/** CubingChina round results: normalisation of live payloads and the evidence a stored row derives. */
module CubingChina {
  import opened RecordDomain
  import opened Evidence
  import opened Finalization

  datatype RoundTarget = RoundTarget(
    competitionId: int, wcaCompetitionId: string, competitionName: string, slug: string,
    startDate: Option<int>, endDate: Option<int>,
    event: string, eventName: string, roundId: string, roundNumber: Option<int>, roundName: string,
    format: string, cutoff: int)

  /** One result row as the live feed sends it; `wellTyped` is false when a field is missing or has the wrong type. */
  datatype RawResult = RawResult(
    wellTyped: bool, competition: int, event: string, round: string, id: string, number: int, format: string,
    attempts: seq<int>, best: Option<int>, average: Option<int>, singleTag: string, averageTag: string)

  datatype User = User(name: string, person: string, region: string)
  type Users = map<int, User>

  /** The meaningful content of a row; two rows have the same hash exactly when they are equal. */
  datatype Row = Row(
    resultId: string, competition: int, number: int, name: string, person: string, region: string, country: string,
    event: string, round: string, format: string, attempts: seq<int>, best: Option<int>, average: Option<int>,
    singleTag: string, averageTag: string)

  datatype Outcome<+T> = Ok(value: T) | PayloadError

  // -------- Normalisation --------

  predicate IsBlank(c: char) {
    c == ' ' || c == '\t' || c == '\n' || c == '\r'
  }

  function Trim(s: string): string {
    if s != "" && IsBlank(s[0]) then Trim(s[1..])
    else if s != "" && IsBlank(s[|s| - 1]) then Trim(s[..|s| - 1])
    else s
  }

  const CONTINENTAL_TAGS: set<string> := {"AFR", "ASR", "ER", "NAR", "OCR", "SAR"}

  function NormalTag(tag: string): string {
    var upper := Upper(Trim(tag));
    if upper in CONTINENTAL_TAGS then "CR" else upper
  }

  /** Country codes by region name, as the geography table resolves them. */
  function CountryOf(codes: map<string, string>, region: string): string {
    if region != "" && region in codes then codes[region] else ""
  }

  function NormalResult(codes: map<string, string>, t: RoundTarget, users: Users, raw: RawResult): Outcome<Row> {
    if !raw.wellTyped || raw.competition != t.competitionId || raw.event != t.event || raw.round != t.roundId then PayloadError
    else
      var user := if raw.number in users then users[raw.number] else User("", "", "");
      Ok(Row(raw.id, t.competitionId, raw.number, user.name, Upper(user.person), user.region, CountryOf(codes, user.region),
             raw.event, raw.round, raw.format, raw.attempts, raw.best, raw.average, NormalTag(raw.singleTag), NormalTag(raw.averageTag)))
  }

  /** The rows of a snapshot by result id, the last of any duplicates; one bad row spoils the snapshot. */
  function NormalSnapshot(codes: map<string, string>, t: RoundTarget, users: Users, rows: seq<RawResult>): (m: Outcome<map<string, Row>>)
    ensures m.Ok? ==> forall id :: id in m.value ==> m.value[id].resultId == id
  {
    if rows == [] then Ok(map[])
    else
      var before := NormalSnapshot(codes, t, users, rows[..|rows| - 1]);
      var last := NormalResult(codes, t, users, rows[|rows| - 1]);
      if before.PayloadError? || last.PayloadError? then PayloadError
      else Ok(before.value[last.value.resultId := last.value])
  }

  /** The snapshot is accepted iff every row can be normalised; then it holds exactly the result ids sent, each with
      the normalisation of the last row sent for it. */
  ghost predicate LastWins(codes: map<string, string>, t: RoundTarget, users: Users, raws: seq<RawResult>, m: Outcome<map<string, Row>>) {
    && (m.Ok? <==> AllNormal(codes, t, users, raws))
    && (m.Ok? ==> (forall id :: id in m.value ==> exists i :: 0 <= i < |raws| && raws[i].id == id))
    && (m.Ok? ==> forall i :: 0 <= i < |raws| ==> raws[i].id in m.value)
    && (m.Ok? ==> forall i :: 0 <= i < |raws| && IsLast(raws, i) ==> m.value[raws[i].id] == NormalResult(codes, t, users, raws[i]).value)
  }

  /** No later row is for the same result. */
  predicate IsLast(raws: seq<RawResult>, i: nat)
    requires i < |raws|
  {
    forall j :: i < j < |raws| ==> raws[j].id != raws[i].id
  }

  predicate AllNormal(codes: map<string, string>, t: RoundTarget, users: Users, raws: seq<RawResult>) {
    forall i :: 0 <= i < |raws| ==> NormalResult(codes, t, users, raws[i]).Ok?
  }

  lemma AllNormalSnoc(codes: map<string, string>, t: RoundTarget, users: Users, init: seq<RawResult>, last: RawResult)
    ensures AllNormal(codes, t, users, init + [last]) <==>
            AllNormal(codes, t, users, init) && NormalResult(codes, t, users, last).Ok?
  {
    var raws := init + [last];
    assert raws[|init|] == last;
    if AllNormal(codes, t, users, raws) {
      forall i | 0 <= i < |init|
        ensures NormalResult(codes, t, users, init[i]).Ok?
      {
        assert raws[i] == init[i];
      }
    }
  }

  lemma {:induction false} AcceptedExactly(codes: map<string, string>, t: RoundTarget, users: Users, raws: seq<RawResult>)
    ensures NormalSnapshot(codes, t, users, raws).Ok? <==> AllNormal(codes, t, users, raws)
    decreases |raws|
  {
    if raws != [] {
      var init, last := raws[..|raws| - 1], raws[|raws| - 1];
      AcceptedExactly(codes, t, users, init);
      AllNormalSnoc(codes, t, users, init, last);
      assert raws == init + [last];
    }
  }

  lemma {:induction false} SentIdsExactly(codes: map<string, string>, t: RoundTarget, users: Users, raws: seq<RawResult>, id: string)
    ensures var m := NormalSnapshot(codes, t, users, raws);
            m.Ok? ==> (id in m.value <==> exists i :: 0 <= i < |raws| && raws[i].id == id)
    decreases |raws|
  {
    if raws != [] {
      SentIdsExactly(codes, t, users, raws[..|raws| - 1], id);
    }
  }

  lemma {:induction false} LastRowStands(codes: map<string, string>, t: RoundTarget, users: Users, raws: seq<RawResult>, i: nat)
    requires i < |raws| && IsLast(raws, i)
    ensures var m := NormalSnapshot(codes, t, users, raws);
            m.Ok? ==> raws[i].id in m.value && NormalResult(codes, t, users, raws[i]) == Ok(m.value[raws[i].id])
    decreases |raws|
  {
    if i < |raws| - 1 {
      assert raws[|raws| - 1].id != raws[i].id;
      LastRowStands(codes, t, users, raws[..|raws| - 1], i);
    }
  }

  lemma NormalSnapshotStep(codes: map<string, string>, t: RoundTarget, users: Users, raws: seq<RawResult>, i: nat)
    requires i < |raws|
    ensures var before, row := NormalSnapshot(codes, t, users, raws[..i]), NormalResult(codes, t, users, raws[i]);
            && (before.Ok? && row.Ok? ==> NormalSnapshot(codes, t, users, raws[..i + 1]) == Ok(before.value[row.value.resultId := row.value]))
            && (row.PayloadError? ==> NormalSnapshot(codes, t, users, raws).PayloadError?)
  {
    assert raws[..i + 1][..i] == raws[..i];
    AcceptedExactly(codes, t, users, raws);
  }

  lemma NormalSnapshotExactly(codes: map<string, string>, t: RoundTarget, users: Users, raws: seq<RawResult>)
    ensures LastWins(codes, t, users, raws, NormalSnapshot(codes, t, users, raws))
  {
    var m := NormalSnapshot(codes, t, users, raws);
    AcceptedExactly(codes, t, users, raws);
    if m.Ok? {
      forall id | id in m.value
        ensures exists i :: 0 <= i < |raws| && raws[i].id == id
      {
        SentIdsExactly(codes, t, users, raws, id);
      }
      forall i | 0 <= i < |raws|
        ensures raws[i].id in m.value
        ensures IsLast(raws, i) ==> m.value[raws[i].id] == NormalResult(codes, t, users, raws[i]).value
      {
        SentIdsExactly(codes, t, users, raws, raws[i].id);
        if IsLast(raws, i) {
          LastRowStands(codes, t, users, raws, i);
        }
      }
    }
  }

  // -------- Finalisation rule --------

  function DigitValue(c: char): int {
    if '0' <= c <= '9' then c as int - '0' as int else -1
  }

  function Decimal(s: string): int {
    if s == "" || DigitValue(s[|s| - 1]) < 0 then -1
    else if |s| == 1 then DigitValue(s[0])
    else
      var high := Decimal(s[..|s| - 1]);
      if high < 0 then -1 else high * 10 + DigitValue(s[|s| - 1])
  }

  function LowerChar(c: char): char {
    if 'A' <= c <= 'Z' then (c as int + 32) as char else c
  }

  function Lower(s: string): string {
    seq(|s|, i requires 0 <= i < |s| => LowerChar(s[i]))
  }

  function ExpectedAttempts(format: string): int {
    var normal := Lower(Trim(if format == "" then "a" else format));
    if normal == "a" then 5
    else if normal == "m" then 3
    else if Decimal(normal) >= 0 then Decimal(normal)
    else 0
  }

  /** Timed cutoffs are published in seconds, attempts in centiseconds. */
  function RuleFor(t: RoundTarget): Rule {
    var cutoff := if t.cutoff > 0 && t.event != "333fm" then t.cutoff * 100 else t.cutoff;
    var attempts := if Lower(if t.format == "" then "a" else t.format) == "a" then 2 else 1;
    Rule(ExpectedAttempts(t.format), if cutoff > 0 then Some(attempts) else None, if cutoff > 0 then Some(cutoff) else None)
  }

  // -------- Derived evidence --------

  function StableIdentity(t: RoundTarget, resultId: string): string {
    "cubingchina:" + IntText(t.competitionId) + ":" + resultId
  }

  function SourceUrl(t: RoundTarget): string {
    "https://cubing.com/live/" + t.slug + "#!/event/" + t.event + "/" + t.roundId + "/all"
  }

  function ClaimOf(t: RoundTarget, row: Row, kind: Kind, value: int, observedAt: int): Claim {
    Claim(CUBINGCHINA, "cubingchina_websocket", StableIdentity(t, row.resultId),
          if t.competitionId == 0 then "" else IntText(t.competitionId), IntText(row.number),
          Context(t.wcaCompetitionId, t.competitionName, "", t.startDate, t.endDate, t.roundId, t.roundNumber, t.roundName,
                  t.eventName, row.name, row.person, row.country, SourceUrl(t)),
          t.event, kind, value, None, observedAt, "", None)
  }

  /** The value a finalised row claims for a kind: neither missing nor zero, averages only once every attempt is in. */
  function ClaimedValue(t: RoundTarget, row: Row, kind: Kind): Option<int> {
    if !IsFinalized(t.event, row.attempts, RuleFor(t)) then None
    else if kind == Single then
      if row.best.Some? && row.best.value != 0 then row.best else None
    else
      if row.average.Some? && row.average.value != 0 && AllExpectedEntered(row.attempts, RuleFor(t).expected) then row.average else None
  }

  function DerivedClaim(t: RoundTarget, row: Row, kind: Kind, observedAt: int): Option<Claim> {
    var value := ClaimedValue(t, row, kind);
    if value.Some? then Some(ClaimOf(t, row, kind, value.value, observedAt)) else None
  }

  /** The observations a stored row derives, single first. */
  function ResultObservations(t: RoundTarget, row: Row, observedAt: int): (claims: seq<Claim>)
    ensures forall i :: 0 <= i < |claims| ==> DerivedClaim(t, row, claims[i].kind, observedAt) == Some(claims[i])
    ensures forall kind :: DerivedClaim(t, row, kind, observedAt).Some? ==>
              exists i :: 0 <= i < |claims| && claims[i] == DerivedClaim(t, row, kind, observedAt).value
    ensures forall i, j :: 0 <= i < j < |claims| ==> claims[i].kind != claims[j].kind
  {
    Listed(DerivedClaim(t, row, Single, observedAt), DerivedClaim(t, row, Average, observedAt))
  }

  predicate OfKind(claim: Option<Claim>, kind: Kind) {
    claim.Some? ==> claim.value.kind == kind
  }

  function Listed(single: Option<Claim>, average: Option<Claim>): (claims: seq<Claim>)
    requires OfKind(single, Single) && OfKind(average, Average)
    ensures forall i :: 0 <= i < |claims| ==> (if claims[i].kind == Single then single else average) == Some(claims[i])
    ensures single.Some? ==> exists i :: 0 <= i < |claims| && claims[i] == single.value
    ensures average.Some? ==> exists i :: 0 <= i < |claims| && claims[i] == average.value
    ensures forall i, j :: 0 <= i < j < |claims| ==> claims[i].kind != claims[j].kind
  {
    var first, second := if single.Some? then [single.value] else [], if average.Some? then [average.value] else [];
    assert single.Some? ==> (first + second)[0] == single.value;
    assert average.Some? ==> (first + second)[|first|] == average.value;
    first + second
  }

  // -------- Observation keys --------

  function KeyOf(t: RoundTarget, resultId: string, kind: Kind): string {
    CUBINGCHINA + "|" + "cubingchina_websocket" + "|" + StableIdentity(t, resultId) + "|" + KindName(kind) + "|final"
  }

  lemma DerivedKey(t: RoundTarget, row: Row, kind: Kind, observedAt: int)
    ensures DerivedClaim(t, row, kind, observedAt).Some? ==>
              ObservationKey(DerivedClaim(t, row, kind, observedAt).value) == KeyOf(t, row.resultId, kind)
  {
  }

  /** Two rows, or two kinds of one row, never share an observation key, whatever characters the feed uses. */
  lemma KeysAreDistinct(t: RoundTarget, a: string, i: Kind, b: string, j: Kind)
    requires KeyOf(t, a, i) == KeyOf(t, b, j)
    ensures a == b && i == j
  {
    assert KeyOf(t, a, i) == KeyFor(CUBINGCHINA, "cubingchina_websocket", StableIdentity(t, a), i);
    assert KeyOf(t, b, j) == KeyFor(CUBINGCHINA, "cubingchina_websocket", StableIdentity(t, b), j);
    KeysDecode(CUBINGCHINA, "cubingchina_websocket", StableIdentity(t, a), i, CUBINGCHINA, "cubingchina_websocket", StableIdentity(t, b), j);
    PrefixCancels("cubingchina:" + IntText(t.competitionId) + ":", a, b);
  }
}
