/** The classifier's tables and what each of its transactions does to them. Every function
    here is a whole-table description; ClassificationService carries out the same changes
    step by step and is proved against it. */
module Classification {
  import opened RecordDomain
  import opened RecordOrder
  import opened Adjudication
  import opened Replay

  datatype Head = Head(revision: nat, status: Status)
  datatype Processed = Processed(row: Revision, valid: bool)
  datatype LevelId = LevelId(row: RowId, level: Level)

  /** Canonical heads, the immutable revision log, processed projections with their four
      level rows each, and the live record cells. */
  datatype Store = Store(
    heads: map<nat, Head>, log: map<RowId, Revision>,
    processed: map<RowId, Processed>, levels: map<LevelId, LevelRow>,
    live: map<Cell, int>)

  /** Revisions of a result are numbered 1 to its head. */
  ghost predicate NumberedToHead(s: Store) {
    && (forall k {:trigger k in s.log} :: k in s.log ==> k.result in s.heads && 1 <= k.revision <= s.heads[k.result].revision)
    && (forall id, n :: id in s.heads && 1 <= n <= s.heads[id].revision ==> RowId(id, n) in s.log)
  }

  ghost predicate LogKeysMatch(s: Store) {
    forall k :: k in s.log ==> Id(s.log[k]) == k
  }

  ghost predicate HeadsLogged(s: Store) {
    forall id :: id in s.heads ==>
      var k := RowId(id, s.heads[id].revision);
      s.heads[id].revision >= 1 && k in s.log && s.log[k].status == s.heads[id].status
  }

  ghost predicate OneEventPerResult(s: Store) {
    forall j, k :: j in s.log && k in s.log && j.result == k.result ==>
      s.log[j].event == s.log[k].event && s.log[j].kind == s.log[k].kind
  }

  ghost predicate LogIsContiguous(s: Store) {
    LogKeysMatch(s) && NumberedToHead(s) && HeadsLogged(s) && OneEventPerResult(s)
  }

  ghost predicate ProjectionsMatchLog(env: Env, s: Store) {
    && (forall k :: k in s.processed ==> k in s.log && s.processed[k].row == s.log[k])
    && (forall k :: k in s.processed && s.processed[k].valid ==> RevisionIsValid(s.processed[k].row))
    && (forall k, level :: k in s.processed ==> LevelId(k, level) in s.levels)
    && (forall l {:trigger l in s.levels} :: l in s.levels ==> l.row in s.processed)
    && (forall l {:trigger s.levels[l]} :: l in s.levels ==> s.levels[l].scope == RecordScope(env.geography, s.processed[l.row].row, l.level))
  }

  // -------- Current timelines --------

  /** `r` is a current, valid, unabsorbed row of the timeline of cell `c`. */
  predicate Counts(env: Env, s: Store, r: Revision, c: Cell) {
    && Id(r) in s.processed && s.processed[Id(r)] == Processed(r, true)
    && r.resultId in s.heads && s.heads[r.resultId].revision == r.revision
    && s.heads[r.resultId].status != Status.Retracted
    && c == CellOf(env, r, c.level)
    && !IsAbsorbed(env, r)
  }

  ghost function Rows(env: Env, s: Store, c: Cell): (rows: set<Revision>)
    ensures forall r :: r in rows <==> Counts(env, s, r, c)
    ensures Distinct(rows)
  {
    set k | k in s.processed && Counts(env, s, s.processed[k].row, c) :: s.processed[k].row
  }

  ghost function Floor(env: Env, c: Cell): Option<int> {
    Get(env.baseline, c)
  }

  /** The row and cell a level row belongs to, when it is part of a current timeline. */
  ghost predicate OnTimeline(env: Env, s: Store, l: LevelId) {
    && l.row in s.processed
    && Counts(env, s, s.processed[l.row].row, CellOf(env, s.processed[l.row].row, l.level))
    && Id(s.processed[l.row].row) == l.row
  }

  ghost function CellAt(env: Env, s: Store, l: LevelId): Cell
    requires l.row in s.processed
  {
    CellOf(env, s.processed[l.row].row, l.level)
  }

  // -------- Consistency with a replay --------

  ghost predicate CellConsistent(env: Env, s: Store, c: Cell) {
    && Get(s.live, c) == Best(Floor(env, c), Rows(env, s, c))
    && forall r :: r in Rows(env, s, c) ==>
         && LevelId(Id(r), c.level) in s.levels
         && s.levels[LevelId(Id(r), c.level)] == Replayed(Floor(env, c), Rows(env, s, c), c.scope, r)
  }

  /** Every cell and every current level row is what one sorted replay over the baseline gives. */
  ghost predicate Consistent(env: Env, s: Store) {
    forall c: Cell {:trigger CellConsistent(env, s, c)} :: c.scope != "" ==> CellConsistent(env, s, c)
  }

  // -------- Materialisation --------

  function DefaultChild(scope: string): LevelRow {
    LevelRow(scope, NoRecord, None, NotApplicable, false, false, NotCeased, None, None)
  }

  /** A still valid projection of an earlier revision of the same result. */
  predicate IsSuperseded(s: Store, rev: Revision, k: RowId) {
    k in s.processed && k.result == rev.resultId && k.revision < rev.revision && s.processed[k].valid
  }

  ghost function ProjectionAfter(s: Store, rev: Revision, k: RowId): Processed
    requires k in s.processed || k == Id(rev)
  {
    if k == Id(rev) then Processed(rev, RevisionIsValid(rev))
    else if IsSuperseded(s, rev, k) then s.processed[k].(valid := false)
    else s.processed[k]
  }

  ghost function ChildAfter(env: Env, s: Store, rev: Revision, l: LevelId): LevelRow
    requires l in s.levels || l.row == Id(rev)
  {
    if l !in s.levels then DefaultChild(RecordScope(env.geography, rev, l.level))
    else if IsSuperseded(s, rev, l.row) then s.levels[l].(holds := false)
    else s.levels[l]
  }

  ghost function OwnChildren(rev: Revision): (ids: set<LevelId>)
    ensures forall l {:trigger l in ids} :: l in ids <==> l.row == Id(rev)
  {
    assert forall l: LevelId :: l == LevelId(l.row, l.level);
    assert forall level: Level :: level in AllLevels() by {
      forall level: Level ensures level in AllLevels() {
        LevelIsListed(level);
      }
    }
    set level | level in AllLevels() :: LevelId(Id(rev), level)
  }

  /** Write the projection of a revision, its missing level rows, and retire older projections. */
  ghost function Materialized(env: Env, s: Store, rev: Revision): (t: Store)
    ensures t.heads == s.heads && t.log == s.log && t.live == s.live
    ensures t.processed.Keys == s.processed.Keys + {Id(rev)}
    ensures forall k :: k in t.processed ==> t.processed[k] == ProjectionAfter(s, rev, k)
    ensures t.levels.Keys == s.levels.Keys + OwnChildren(rev)
    ensures forall l :: l in t.levels ==> t.levels[l] == ChildAfter(env, s, rev, l)
  {
    s.(processed := map k | k in s.processed.Keys + {Id(rev)} :: ProjectionAfter(s, rev, k),
       levels := map l | l in s.levels.Keys + OwnChildren(rev) :: ChildAfter(env, s, rev, l))
  }

  // -------- Repair --------

  ghost function LiveAfterRepair(env: Env, s: Store, cells: set<Cell>, c: Cell): Option<int> {
    if c in cells && c.scope != "" then Best(Floor(env, c), Rows(env, s, c)) else Get(s.live, c)
  }

  ghost function ChildAfterRepair(env: Env, s: Store, cells: set<Cell>, l: LevelId): LevelRow
    requires l in s.levels
  {
    if OnTimeline(env, s, l) && CellAt(env, s, l) in cells && CellAt(env, s, l).scope != "" then
      var c := CellAt(env, s, l);
      Replayed(Floor(env, c), Rows(env, s, c), c.scope, s.processed[l.row].row)
    else s.levels[l]
  }

  /** Replay each of these timelines from its baseline. */
  ghost function RepairCells(env: Env, s: Store, cells: set<Cell>): (t: Store)
    ensures t.heads == s.heads && t.log == s.log && t.processed == s.processed && t.levels.Keys == s.levels.Keys
    ensures forall c :: Get(t.live, c) == LiveAfterRepair(env, s, cells, c)
    ensures forall l :: l in s.levels ==> t.levels[l] == ChildAfterRepair(env, s, cells, l)
  {
    s.(live := map c | c in s.live.Keys + cells && LiveAfterRepair(env, s, cells, c).Some? :: LiveAfterRepair(env, s, cells, c).value,
       levels := map l | l in s.levels :: ChildAfterRepair(env, s, cells, l))
  }

  // -------- The incremental path --------

  ghost predicate Improves(env: Env, s: Store, rev: Revision, c: Cell) {
    c in CellsOf(env, rev) && Compare(rev.value, Get(s.live, c)) == Broken
  }

  /** One comparison of the revision against each of its live cells, advancing strict improvements. */
  ghost function Compared(env: Env, s: Store, rev: Revision): (t: Store)
    ensures t.heads == s.heads && t.log == s.log && t.processed == s.processed && t.levels.Keys == s.levels.Keys
    ensures forall c :: Get(t.live, c) == if Improves(env, s, rev, c) then Some(rev.value) else Get(s.live, c)
    ensures forall l :: l in s.levels ==> t.levels[l] == ComparedChild(env, s, rev, l)
  {
    s.(live := map c | c in s.live.Keys + CellsOf(env, rev) && (c in s.live || Improves(env, s, rev, c)) ::
                 if Improves(env, s, rev, c) then rev.value else s.live[c],
       levels := map l | l in s.levels :: ComparedChild(env, s, rev, l))
  }

  ghost function ComparedChild(env: Env, s: Store, rev: Revision, l: LevelId): LevelRow
    requires l in s.levels
  {
    var scope := RecordScope(env.geography, rev, l.level);
    var incumbent := Get(s.live, CellOf(env, rev, l.level));
    var outcome := Compare(rev.value, incumbent);
    if l.row != Id(rev) then s.levels[l]
    else if scope == "" then s.levels[l].(scope := scope, outcome := NoRecord, recognition := NotApplicable)
    else s.levels[l].(scope := scope, incumbent := incumbent, outcome := outcome,
                      recognition := if outcome != NoRecord then Recognized else NotApplicable)
  }

  /** The current rows of a cell whose stored outcome is a record. */
  ghost function StoredQualifying(env: Env, s: Store, c: Cell): (q: set<Revision>)
    ensures Distinct(q)
  {
    set r | r in Rows(env, s, c) && LevelId(Id(r), c.level) in s.levels && s.levels[LevelId(Id(r), c.level)].outcome != NoRecord
  }

  ghost function JudgedChild(env: Env, s: Store, cells: set<Cell>, l: LevelId): LevelRow
    requires l in s.levels
  {
    if OnTimeline(env, s, l) && CellAt(env, s, l) in cells then
      var c := CellAt(env, s, l);
      Judge(s.levels[l], StoredQualifying(env, s, c), Get(s.live, c), c.scope, s.processed[l.row].row)
    else s.levels[l]
  }

  /** Re-adjudicate these timelines from their stored outcomes. */
  ghost function Adjudicated(env: Env, s: Store, cells: set<Cell>): (t: Store)
    ensures t.heads == s.heads && t.log == s.log && t.processed == s.processed && t.levels.Keys == s.levels.Keys
    ensures t.live == s.live
    ensures forall l :: l in s.levels ==> t.levels[l] == JudgedChild(env, s, cells, l)
  {
    s.(levels := map l | l in s.levels :: JudgedChild(env, s, cells, l))
  }

  ghost function Incremental(env: Env, s: Store, rev: Revision): Store {
    if Id(rev) !in s.processed || !s.processed[Id(rev)].valid || IsAbsorbed(env, rev) then s
    else Adjudicated(env, Compared(env, s, rev), CellsOf(env, rev))
  }

  // -------- Historical projection of a stale or absorbed revision --------

  ghost function EarlierHistory(env: Env, s: Store, rev: Revision, level: Level): set<Revision> {
    set k | k in s.processed && k != Id(rev)
            && CellOf(env, s.processed[k].row, level) == CellOf(env, rev, level)
            && Before(s.processed[k].row, rev)
          :: s.processed[k].row
  }

  ghost function HistoricalChild(env: Env, s: Store, rev: Revision, l: LevelId): LevelRow
    requires l in s.levels
  {
    var c := CellOf(env, rev, l.level);
    var incumbent := Best(if c.scope != "" then Floor(env, c) else None, EarlierHistory(env, s, rev, l.level));
    var outcome := if Id(rev) in s.processed && s.processed[Id(rev)].valid && c.scope != "" then Compare(rev.value, incumbent) else NoRecord;
    if l.row != Id(rev) then s.levels[l]
    else s.levels[l].(scope := c.scope, incumbent := incumbent, outcome := outcome, holds := false,
                      recognition := if outcome != NoRecord then Recognized else NotApplicable)
  }

  /** Only the revision's own level rows change; no live cell does. */
  ghost function Historical(env: Env, s: Store, rev: Revision): (t: Store)
    ensures t.heads == s.heads && t.log == s.log && t.processed == s.processed && t.levels.Keys == s.levels.Keys
    ensures t.live == s.live
    ensures forall l :: l in s.levels ==> t.levels[l] == HistoricalChild(env, s, rev, l)
  {
    s.(levels := map l | l in s.levels :: HistoricalChild(env, s, rev, l))
  }

  // -------- Classification of one revision --------

  /** Some current row of one of the revision's timelines has a later key. */
  ghost predicate OutOfOrder(env: Env, s: Store, rev: Revision) {
    exists c, r :: c in CellsOf(env, rev) && r in Rows(env, s, c) && Id(r) != Id(rev) && Before(rev, r)
  }

  ghost function Previous(s: Store, rev: Revision): Option<Revision> {
    if rev.revision > 1 then Get(s.log, RowId(rev.resultId, rev.revision - 1)) else None
  }

  /** The scopes of the revision and of the one just before it, in the revision's own event. */
  ghost function Affected(env: Env, s: Store, rev: Revision): set<Cell> {
    CellsOf(env, rev)
    + match Previous(s, rev)
      case Some(prev) => CellsOf(env, prev.(event := rev.event, kind := rev.kind))
      case None => {}
  }

  ghost predicate IsHead(s: Store, rev: Revision) {
    rev.resultId in s.heads && s.heads[rev.resultId].revision == rev.revision
  }

  /** Classify one revision with no other writer in between. */
  ghost function Classified(env: Env, s: Store, rev: Revision): Store {
    var m := Materialized(env, s, rev);
    if !IsHead(s, rev) || IsAbsorbed(env, rev) then Historical(env, m, rev)
    else if rev.revision > 1 || OutOfOrder(env, m, rev) then RepairCells(env, m, Affected(env, m, rev))
    else Incremental(env, m, rev)
  }
}
