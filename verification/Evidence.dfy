/** Provider-neutral evidence, the canonical results it is merged into, and the tables of the
    reconciliation ledger. */
module Evidence {
  import opened RecordDomain

  /** Descriptive fields of a result; an empty string or None never overwrites a known value. */
  datatype Context = Context(
    competitionId: string, competitionName: string, competitionCountry: string,
    startDate: Option<int>, endDate: Option<int>,
    roundId: string, roundNumber: Option<int>, roundName: string, eventName: string,
    competitorName: string, person: string, country: string, sourceUrl: string)

  datatype Zone = Zone(timezone: string, localDate: Option<int>, resolved: bool, reason: string)

  /** The fields a revision freezes. */
  datatype Facts = Facts(
    identityKey: string, event: string, kind: Kind, context: Context, zone: Zone,
    value: int, enteredAt: Option<int>, firstAt: int, validation: Validation, reason: string)

  /** One normalized claim. `localDate` is the competition-local date, given or derived. */
  datatype Claim = Claim(
    source: string, channel: string, sourceIdentity: string, sourceCompetition: string, sourceCompetitor: string,
    context: Context, event: string, kind: Kind, value: int,
    enteredAt: Option<int>, observedAt: int, timezone: string, localDate: Option<int>)

  datatype Observation = Observation(
    pk: nat, canonical: nat, source: string, channel: string, sourceIdentity: string, kind: Kind,
    value: int, enteredAt: Option<int>, firstAt: int, lastAt: int, trusted: bool, active: bool, revision: nat)

  /** A mutable canonical head. `current` is the key of its current observation. */
  datatype Canonical = Canonical(
    facts: Facts, status: Status, lastAt: int, current: Option<string>, revision: nat, scope: Option<string>)

  /** One immutable revision row. */
  datatype Logged = Logged(revision: nat, facts: Facts, action: Action, status: Status, lastAt: int)

  datatype ValidationId = ValidationId(result: nat, level: Level)
  datatype ValidationRow = ValidationRow(region: string, value: int, benchmark: int, verified: bool)

  /** `log[id]` lists the revisions of a result in order; `work` holds one item per enqueued revision. */
  datatype Ledger = Ledger(
    canonicals: map<nat, Canonical>, observations: map<string, Observation>,
    log: map<nat, seq<Logged>>, work: map<RowId, Action>,
    validations: map<ValidationId, ValidationRow>,
    nextId: nat, nextPk: nat)

  datatype BenchmarkKey = BenchmarkKey(level: Level, event: string, kind: Kind, region: string)

  /** Reference tables and the latest stored snapshot of the official records. */
  datatype Reference = Reference(
    geography: Geography, recordsNames: map<string, string>, snapshot: Option<map<BenchmarkKey, int>>)

  const TRUSTED_CHANNELS: set<string> := {"api_polling", "graphql_subscription"}
  const CUBINGCHINA := "cubingchina"
  const ALL_RETRACTED := "all_source_observations_retracted"
  const DISAGREEMENT := "trusted_source_disagreement"

  predicate EvidenceIsTrusted(channel: string) {
    channel in TRUSTED_CHANNELS
  }

  function TrustRank(channel: string): int {
    if channel in TRUSTED_CHANNELS then 100
    else if channel == "cubingchina_websocket" then 20
    else 0
  }

  function KindName(kind: Kind): string {
    if kind == Single then "single" else "average"
  }

  function Digit(n: nat): string
    requires n < 10
  {
    [("0123456789")[n]]
  }

  function NatText(n: nat): string {
    if n < 10 then Digit(n) else NatText(n / 10) + Digit(n % 10)
  }

  function IntText(n: int): string {
    if n < 0 then "-" + NatText(-n) else NatText(n)
  }

  /** Everything that can change the reconciled fact or its context: all but the observation time. */
  function Fingerprint(d: Claim): Claim {
    d.(observedAt := 0)
  }

  function KeyFor(source: string, channel: string, identity: string, kind: Kind): string {
    source + "|" + channel + "|" + identity + "|" + KindName(kind) + "|final"
  }

  function ObservationKey(d: Claim): string {
    KeyFor(d.source, d.channel, d.sourceIdentity, d.kind)
  }

  /** The identity shared by every source, when competition, person and round are all known. */
  function NaturalKey(d: Claim): Option<string> {
    if d.context.competitionId == "" || d.context.person == "" || d.context.roundNumber.None? then None
    else Some("wca|" + Upper(d.context.competitionId) + "|" + Upper(d.context.person) + "|" + d.event + "|"
              + IntText(d.context.roundNumber.value) + "|" + KindName(d.kind))
  }

  function ProposedKey(d: Claim): string {
    if NaturalKey(d).Some? then NaturalKey(d).value
    else "source|" + d.source + "|" + d.sourceCompetition + "|" + d.sourceIdentity + "|" + d.event + "|" + KindName(d.kind) + "|final"
  }

  predicate IsSourceKey(key: string) {
    "source|" <= key
  }

  lemma NaturalIsNotSource(d: Claim)
    ensures NaturalKey(d).Some? ==> !IsSourceKey(NaturalKey(d).value)
  {
    if NaturalKey(d).Some? {
      assert NaturalKey(d).value[0] == 'w';
    }
  }

  function Or(a: string, b: string): string {
    if a != "" then a else b
  }

  function OrElse<T>(a: Option<T>, b: Option<T>): Option<T> {
    if a.Some? then a else b
  }

  function MergedContext(known: Context, given: Context): Context {
    Context(
      Or(given.competitionId, known.competitionId), Or(given.competitionName, known.competitionName),
      Or(given.competitionCountry, known.competitionCountry),
      OrElse(given.startDate, known.startDate), OrElse(given.endDate, known.endDate),
      Or(given.roundId, known.roundId), OrElse(given.roundNumber, known.roundNumber), Or(given.roundName, known.roundName),
      Or(given.eventName, known.eventName), Or(given.competitorName, known.competitorName), Or(given.person, known.person),
      Or(given.country, known.country), Or(given.sourceUrl, known.sourceUrl))
  }

  predicate ZoneResolved(d: Claim) {
    d.timezone != "" && d.localDate.Some?
  }

  function ZoneReason(d: Claim): string {
    if d.timezone == "" then "missing_or_ambiguous_source_timezone"
    else if d.localDate.None? then "invalid_source_timezone"
    else "provider_supplied_iana_timezone"
  }

  function MergedZone(known: Zone, d: Claim): Zone {
    var dated := if d.timezone != "" then known.(timezone := d.timezone, localDate := d.localDate) else known;
    if ZoneResolved(d) || dated.timezone == "" then dated.(resolved := ZoneResolved(d), reason := ZoneReason(d)) else dated
  }

  function Updated(facts: Facts, d: Claim): Facts {
    facts.(context := MergedContext(facts.context, d.context), zone := MergedZone(facts.zone, d))
  }

  function FreshFacts(d: Claim): Facts {
    Facts(ProposedKey(d), d.event, d.kind, d.context, Zone(d.timezone, d.localDate, ZoneResolved(d), ZoneReason(d)),
          d.value, d.enteredAt, d.observedAt, Validation.Pending, "")
  }

  // -------- Observation keys --------

  lemma PrefixCancels(a: string, b: string, c: string)
    requires a + b == a + c
    ensures b == c
  {
    assert |b| == |c|;
    forall i | 0 <= i < |b|
      ensures b[i] == c[i]
    {
      assert (a + b)[|a| + i] == b[i] && (a + c)[|a| + i] == c[i];
    }
  }

  lemma SuffixCancels(a: string, b: string, c: string)
    requires b + a == c + a
    ensures b == c
  {
    assert |b| == |c|;
    forall i | 0 <= i < |b|
      ensures b[i] == c[i]
    {
      assert (b + a)[i] == b[i] && (c + a)[i] == c[i];
    }
  }

  lemma NoBarBefore(a: string, x: string, b: string, y: string)
    requires '|' !in b && a + ("|" + x) == b + ("|" + y)
    ensures |b| <= |a|
  {
    var s := a + ("|" + x);
    assert s[|a|] == '|';
    forall i | 0 <= i < |b|
      ensures s[i] != '|'
    {
      assert s[i] == (b + ("|" + y))[i] == b[i];
    }
  }

  /** A field without a bar ends at the first bar. */
  lemma FirstBar(a: string, x: string, b: string, y: string)
    requires '|' !in a && '|' !in b && a + ("|" + x) == b + ("|" + y)
    ensures a == b && x == y
  {
    NoBarBefore(a, x, b, y);
    NoBarBefore(b, y, a, x);
    var s := a + ("|" + x);
    assert a == s[..|a|] && b == s[..|b|];
    assert a + ("|" + x) == (a + "|") + x && b + ("|" + y) == (b + "|") + y;
    PrefixCancels(a + "|", x, y);
  }

  function KeyTail(kind: Kind): string {
    "|" + KindName(kind) + "|final"
  }

  lemma LastLetters(a: string, kind: Kind)
    ensures var s := a + KeyTail(kind);
            |s| >= 8 && s[|s| - 8] == if kind == Single then 'l' else 'g'
  {
    var tail := KeyTail(kind);
    var s := a + tail;
    assert tail == if kind == Single then "|single|final" else "|average|final";
    assert s[|s| - 8] == tail[|tail| - 8];
  }

  lemma KeyShape(source: string, channel: string, identity: string, kind: Kind)
    ensures KeyFor(source, channel, identity, kind) == source + ("|" + (channel + ("|" + (identity + KeyTail(kind)))))
  {
  }

  /** A key names one source, channel, identity and kind, whatever characters the identity has, as long as sources
      and channels contain no bar. */
  lemma KeysDecode(source: string, channel: string, identity: string, kind: Kind,
                   source': string, channel': string, identity': string, kind': Kind)
    requires '|' !in source && '|' !in channel && '|' !in source' && '|' !in channel'
    requires KeyFor(source, channel, identity, kind) == KeyFor(source', channel', identity', kind')
    ensures source == source' && channel == channel' && identity == identity' && kind == kind'
  {
    KeyShape(source, channel, identity, kind);
    KeyShape(source', channel', identity', kind');
    FirstBar(source, channel + ("|" + (identity + KeyTail(kind))), source', channel' + ("|" + (identity' + KeyTail(kind'))));
    FirstBar(channel, identity + KeyTail(kind), channel', identity' + KeyTail(kind'));
    LastLetters(identity, kind);
    LastLetters(identity', kind');
    SuffixCancels(KeyTail(kind), identity, identity');
  }

  /** With a bar in a source two different claims share a key. */
  lemma BarsCollide(d: Claim)
    ensures ObservationKey(d.(source := "a|b", channel := "c")) == ObservationKey(d.(source := "a", channel := "b|c"))
    ensures d.(source := "a|b", channel := "c") != d.(source := "a", channel := "b|c")
  {
    assert "a|b" + "|" + "c" == "a" + "|" + "b|c";
  }
}
