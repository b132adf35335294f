/** Values shared by every part of the record pipeline: immutable result revisions,
    record levels and scopes, and the classification key that orders a timeline. */
module RecordDomain {

  datatype Option<+T> = None | Some(value: T)

  datatype Kind = Single | Average
  datatype Level = World | Continental | National | Personal
  datatype Action = Active | Corrected | Retracted
  datatype Status = Active | Corrected | Retracted
  datatype Validation = Pending | Verified | Rejected

  /** One line of the reference country table. */
  datatype Country = Country(wcaName: string, displayName: string, continent: string)
  type Geography = map<string, Country>

  datatype RowId = RowId(result: nat, revision: nat)

  /** The classifier-relevant fields of an immutable canonical revision. `at` is the
      entry time, or the first observation time when no entry time is known. */
  datatype Revision = Revision(
    resultId: nat, revision: nat,
    action: Action, status: Status, validation: Validation,
    value: int, at: int,
    event: string, kind: Kind,
    competitionId: string, competitionName: string,
    roundId: string, roundNumber: Option<int>, localDate: Option<int>,
    person: string, country: string)

  /** A record column: one holder and record type, one event, one kind. */
  datatype Cell = Cell(event: string, kind: Kind, level: Level, scope: string)

  /** The active baseline export and the static country table. */
  datatype Env = Env(geography: Geography, baseline: map<Cell, int>, absorbed: set<string>)

  function Id(r: Revision): RowId {
    RowId(r.resultId, r.revision)
  }

  /** A nullable column read: an absent key is a NULL cell. */
  function Get<K, V>(m: map<K, V>, k: K): Option<V> {
    if k in m then Some(m[k]) else None
  }

  /** A nullable column write. */
  function Put<K, V>(m: map<K, V>, k: K, v: Option<V>): map<K, V> {
    if v.Some? then m[k := v.value] else m - {k}
  }

  lemma MapsAgree<K, V>(a: map<K, V>, b: map<K, V>)
    requires a.Keys == b.Keys
    requires forall k :: k in a ==> a[k] == b[k]
    ensures a == b
  {
  }

  function UpperChar(c: char): char {
    if 'a' <= c <= 'z' then (c as int - 32) as char else c
  }

  function Upper(s: string): string {
    seq(|s|, i requires 0 <= i < |s| => UpperChar(s[i]))
  }

  function CountryName(geography: Geography, code: string): string {
    if Upper(code) !in geography then ""
    else
      var country := geography[Upper(code)];
      if country.wcaName != "" then country.wcaName else country.displayName
  }

  function ContinentName(geography: Geography, code: string): string {
    if Upper(code) in geography then geography[Upper(code)].continent else ""
  }

  function RecordScope(geography: Geography, r: Revision, level: Level): string {
    match level
    case World => "World"
    case Continental => ContinentName(geography, r.country)
    case National => CountryName(geography, r.country)
    case Personal => Upper(r.person)
  }

  function CellOf(env: Env, r: Revision, level: Level): Cell {
    Cell(r.event, r.kind, level, RecordScope(env.geography, r, level))
  }

  function AllLevels(): set<Level> {
    {World, Continental, National, Personal}
  }

  /** The order in which the levels of a row are visited. */
  const RECORD_LEVELS: seq<Level> := [World, Continental, National, Personal]

  lemma LevelIsListed(level: Level)
    ensures level in AllLevels()
  {
    match level
    case World =>
    case Continental =>
    case National =>
    case Personal =>
  }

  /** The cells a revision competes in: one per level whose scope is known. */
  ghost function CellsOf(env: Env, r: Revision): (cells: set<Cell>)
    ensures forall c {:trigger c in cells} :: c in cells <==> c.scope != "" && c == CellOf(env, r, c.level)
  {
    set level | level in AllLevels() && RecordScope(env.geography, r, level) != "" :: CellOf(env, r, level)
  }

  predicate IsAbsorbed(env: Env, r: Revision) {
    r.competitionId != "" && r.competitionId in env.absorbed
  }

  predicate IsComplete(value: int) {
    value > 0
  }

  predicate RevisionIsValid(r: Revision) {
    && r.action != Action.Retracted
    && r.status != Status.Retracted
    && r.validation != Rejected
    && IsComplete(r.value)
  }

  /** Strict order of the classification key (time, result, revision). */
  predicate Before(a: Revision, b: Revision) {
    || a.at < b.at
    || (a.at == b.at && a.resultId < b.resultId)
    || (a.at == b.at && a.resultId == b.resultId && a.revision < b.revision)
  }

  /** No two rows share an identity, so the classification key is a total order. */
  ghost predicate Distinct(rows: set<Revision>) {
    forall a, b {:trigger a in rows, b in rows} :: a in rows && b in rows && Id(a) == Id(b) ==> a == b
  }

  predicate SortedByKey(rows: seq<Revision>) {
    forall i, j :: 0 <= i < j < |rows| ==> Before(rows[i], rows[j])
  }
}
