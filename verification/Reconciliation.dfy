/** What each reconciliation transaction does to the ledger. EvidenceService carries the same
    transactions out step by step. */
module Reconciliation {
  import opened RecordDomain
  import opened Evidence
  import opened RecordValidation

  // -------- The head's view of its evidence --------

  ghost function ActiveKeys(l: Ledger, id: nat): (keys: set<string>)
    ensures forall k :: k in keys <==> k in l.observations && l.observations[k].canonical == id && l.observations[k].active
  {
    set k | k in l.observations && l.observations[k].canonical == id && l.observations[k].active
  }

  /** Greater by trust, then last observation time, then row id. */
  predicate Outweighs(a: Observation, b: Observation) {
    || TrustRank(a.channel) > TrustRank(b.channel)
    || (TrustRank(a.channel) == TrustRank(b.channel) && a.lastAt > b.lastAt)
    || (TrustRank(a.channel) == TrustRank(b.channel) && a.lastAt == b.lastAt && a.pk > b.pk)
  }

  ghost predicate PksDiffer(obs: map<string, Observation>) {
    forall j, k :: j in obs && k in obs && obs[j].pk == obs[k].pk ==> j == k
  }

  ghost predicate IsHeaviest(obs: map<string, Observation>, keys: set<string>, k: string) {
    k in keys && k in obs && forall j :: j in keys && j in obs ==> j == k || Outweighs(obs[k], obs[j])
  }

  ghost function Heaviest(obs: map<string, Observation>, keys: set<string>): (k: string)
    requires keys != {} && keys <= obs.Keys && PksDiffer(obs)
    ensures IsHeaviest(obs, keys, k)
  {
    var j :| j in keys;
    assert forall x :: x in keys <==> x == j || x in keys - {j};
    if keys == {j} then j
    else
      var k := Heaviest(obs, keys - {j});
      if Outweighs(obs[k], obs[j]) then k else j
  }

  lemma HeaviestIsUnique(obs: map<string, Observation>, keys: set<string>, j: string, k: string)
    requires IsHeaviest(obs, keys, j) && IsHeaviest(obs, keys, k)
    ensures j == k
  {
  }

  ghost predicate IsFirstTime(obs: map<string, Observation>, keys: set<string>, m: int) {
    && (exists k :: k in keys && k in obs && obs[k].firstAt == m)
    && forall k :: k in keys && k in obs ==> m <= obs[k].firstAt
  }

  ghost function FirstTime(obs: map<string, Observation>, keys: set<string>): (m: int)
    requires keys != {} && keys <= obs.Keys
    ensures IsFirstTime(obs, keys, m)
  {
    var k :| k in keys;
    assert forall x :: x in keys <==> x == k || x in keys - {k};
    if keys == {k} then obs[k].firstAt
    else
      var m := FirstTime(obs, keys - {k});
      if m < obs[k].firstAt then m else obs[k].firstAt
  }

  ghost predicate IsLastTime(obs: map<string, Observation>, keys: set<string>, m: int) {
    && (exists k :: k in keys && k in obs && obs[k].lastAt == m)
    && forall k :: k in keys && k in obs ==> obs[k].lastAt <= m
  }

  ghost function LastTime(obs: map<string, Observation>, keys: set<string>): (m: int)
    requires keys != {} && keys <= obs.Keys
    ensures IsLastTime(obs, keys, m)
  {
    var k :| k in keys;
    assert forall x :: x in keys <==> x == k || x in keys - {k};
    if keys == {k} then obs[k].lastAt
    else
      var m := LastTime(obs, keys - {k});
      if m > obs[k].lastAt then m else obs[k].lastAt
  }

  ghost function TrustedValues(obs: map<string, Observation>, keys: set<string>): set<int> {
    set k | k in keys && k in obs && obs[k].trusted :: obs[k].value
  }

  ghost function TrustVerdict(values: set<int>): (Validation, string) {
    if exists v, w :: v in values && w in values && v != w then (Rejected, DISAGREEMENT)
    else if values != {} then (Verified, "trusted_source_observation")
    else (Validation.Pending, "untrusted_source_only")
  }

  ghost function RefreshedHead(l: Ledger, id: nat): Canonical
    requires id in l.canonicals && PksDiffer(l.observations)
  {
    var head, keys := l.canonicals[id], ActiveKeys(l, id);
    if keys == {} then head.(facts := head.facts.(validation := Validation.Pending, reason := ALL_RETRACTED), current := None)
    else
      var k := Heaviest(l.observations, keys);
      var chosen := l.observations[k];
      var (validation, reason) := TrustVerdict(TrustedValues(l.observations, keys));
      head.(facts := head.facts.(value := chosen.value, enteredAt := OrElse(chosen.enteredAt, head.facts.enteredAt),
                                 firstAt := FirstTime(l.observations, keys), validation := validation, reason := reason),
            lastAt := LastTime(l.observations, keys), current := Some(k))
  }

  function WithHead(l: Ledger, id: nat, head: Canonical): Ledger {
    l.(canonicals := l.canonicals[id := head])
  }

  ghost function Refreshed(l: Ledger, id: nat): Ledger
    requires id in l.canonicals && PksDiffer(l.observations)
  {
    WithHead(l, id, RefreshedHead(l, id))
  }

  // -------- Revisions --------

  function StatusFor(action: Action): Status {
    match action
    case Active => Status.Active
    case Corrected => Status.Corrected
    case Retracted => Status.Retracted
  }

  /** The action of the revision a head needs, if it needs one. */
  function NeededAction(head: Canonical, rows: seq<Logged>): Option<Action> {
    if rows == [] then Some(Action.Active)
    else
      var latest := rows[|rows| - 1];
      if head.current.None? then
        if latest.status == Status.Retracted then None else Some(Action.Retracted)
      else if latest.status == Status.Retracted then Some(Action.Active)
      else if latest.facts != head.facts then Some(Action.Corrected)
      else None
  }

  function NewRow(head: Canonical, rows: seq<Logged>, action: Action): Logged {
    Logged(|rows| + 1, head.facts, action, StatusFor(action), head.lastAt)
  }

  /** Freeze a revision with its one work item when something relevant changed. */
  function Snapshotted(l: Ledger, id: nat): Ledger
    requires id in l.canonicals && id in l.log
  {
    var head, rows := l.canonicals[id], l.log[id];
    match NeededAction(head, rows)
    case Some(action) =>
      l.(canonicals := l.canonicals[id := head.(status := StatusFor(action), revision := |rows| + 1)],
         log := l.log[id := rows + [NewRow(head, rows, action)]],
         work := l.work[RowId(id, |rows| + 1) := action])
    case None => WithHead(l, id, head.(status := if rows == [] then head.status else rows[|rows| - 1].status))
  }

  ghost function ValidatedLatest(w: Reference, l: Ledger, id: nat): Ledger
    requires id in l.canonicals
  {
    if w.snapshot.None? then l else Checked(w, l, {id})
  }

  ghost function RefreshedAndEnqueued(w: Reference, l: Ledger, id: nat): Ledger
    requires id in l.canonicals && id in l.log && PksDiffer(l.observations)
  {
    Snapshotted(ValidatedLatest(w, Refreshed(l, id), id), id)
  }

  // -------- Finding the canonical result --------

  ghost function ByIdentity(l: Ledger, key: string): (id: Option<nat>)
    ensures id.Some? ==> id.value in l.canonicals && l.canonicals[id.value].facts.identityKey == key
    ensures id.None? ==> forall i :: i in l.canonicals ==> l.canonicals[i].facts.identityKey != key
  {
    if i :| i in l.canonicals && l.canonicals[i].facts.identityKey == key then Some(i) else None
  }

  predicate SameSource(o: Observation, d: Claim) {
    o.source == d.source && o.sourceIdentity == d.sourceIdentity && o.kind == d.kind
  }

  /** The single result the same source claim already points at, under any ingestion method. */
  ghost function SameSourceResult(l: Ledger, d: Claim): (id: Option<nat>)
    ensures id.Some? ==> exists k :: k in l.observations && SameSource(l.observations[k], d) && l.observations[k].canonical == id.value
  {
    if i :| SourceResults(l, d) == {i} then
      assert i in SourceResults(l, d);
      Some(i)
    else None
  }

  ghost function SourceResults(l: Ledger, d: Claim): set<nat> {
    set k | k in l.observations && SameSource(l.observations[k], d) :: l.observations[k].canonical
  }

  function Rekeyed(l: Ledger, id: nat, key: string): Ledger
    requires id in l.canonicals
  {
    WithHead(l, id, l.canonicals[id].(facts := l.canonicals[id].facts.(identityKey := key)))
  }

  ghost function NaturalHolder(l: Ledger, d: Claim): Option<nat> {
    if NaturalKey(d).Some? then ByIdentity(l, NaturalKey(d).value) else None
  }

  predicate Upgradable(l: Ledger, id: nat, d: Claim) {
    NaturalKey(d).Some? && id in l.canonicals && IsSourceKey(l.canonicals[id].facts.identityKey)
  }

  ghost function Found(l: Ledger, d: Claim): Option<nat> {
    var natural := NaturalHolder(l, d);
    if ObservationKey(d) in l.observations then
      if natural.Some? then natural else Some(l.observations[ObservationKey(d)].canonical)
    else if natural.Some? then natural
    else SameSourceResult(l, d)
  }

  /** A claim that now carries a natural identity upgrades a source-keyed result in place. */
  function Upgraded(l: Ledger, id: nat, d: Claim): Ledger {
    if Upgradable(l, id, d) then Rekeyed(l, id, NaturalKey(d).value) else l
  }

  function Created(l: Ledger, d: Claim): Ledger {
    l.(canonicals := l.canonicals[l.nextId := Canonical(FreshFacts(d), Status.Active, d.observedAt, None, 0, NaturalKey(d))],
       log := l.log[l.nextId := []],
       nextId := l.nextId + 1)
  }

  /** The result the claim belongs to, created when nothing holds its identity. */
  ghost function Located(l: Ledger, d: Claim): (r: (Ledger, nat)) {
    var found := Found(l, d);
    if found.Some? then (l, found.value)
    else
      var holder := ByIdentity(l, ProposedKey(d));
      if holder.Some? then (l, holder.value) else (Created(l, d), l.nextId)
  }

  /** The natural identity wins: its holder takes the claim, or a source-keyed result takes the identity. */
  ghost function Resolved(l: Ledger, id: nat, d: Claim): (r: (Ledger, nat)) {
    var natural := NaturalHolder(l, d);
    if natural.Some? then (l, natural.value) else (Upgraded(l, id, d), id)
  }

  function ContextUpdated(l: Ledger, id: nat, d: Claim): Ledger
    requires id in l.canonicals
  {
    var head := l.canonicals[id];
    WithHead(l, id, head.(facts := Updated(head.facts, d), scope := OrElse(head.scope, NaturalKey(d))))
  }

  // -------- Observations --------

  function Observed(l: Ledger, id: nat, d: Claim): Observation {
    var key := ObservationKey(d);
    if key in l.observations then
      var o := l.observations[key];
      var changed := o.value != d.value || !o.active || o.enteredAt != d.enteredAt;
      Observation(o.pk, id, d.source, d.channel, d.sourceIdentity, d.kind, d.value, d.enteredAt, o.firstAt, d.observedAt,
                  EvidenceIsTrusted(d.channel), true, if changed then o.revision + 1 else o.revision)
    else
      Observation(l.nextPk, id, d.source, d.channel, d.sourceIdentity, d.kind, d.value, d.enteredAt, d.observedAt, d.observedAt,
                  EvidenceIsTrusted(d.channel), true, 1)
  }

  function WithObservation(l: Ledger, id: nat, d: Claim): Ledger {
    l.(observations := l.observations[ObservationKey(d) := Observed(l, id, d)],
       nextPk := if ObservationKey(d) in l.observations then l.nextPk else l.nextPk + 1)
  }

  function PreviousResult(l: Ledger, d: Claim): Option<nat> {
    if ObservationKey(d) in l.observations then Some(l.observations[ObservationKey(d)].canonical) else None
  }

  // -------- Transactions --------

  ghost predicate Referential(l: Ledger) {
    && (forall k :: k in l.observations ==> l.observations[k].canonical in l.canonicals)
    && (forall k :: k in l.observations ==> l.observations[k].pk < l.nextPk)
    && (forall i :: i in l.canonicals ==> i < l.nextId)
    && l.log.Keys == l.canonicals.Keys
    && PksDiffer(l.observations)
  }

  lemma Locates(l: Ledger, d: Claim)
    requires Referential(l)
    ensures Located(l, d).1 in Located(l, d).0.canonicals && Referential(Located(l, d).0)
    ensures Located(l, d).0.observations == l.observations
  {
  }

  ghost function Target(l: Ledger, d: Claim): (r: (Ledger, nat))
    requires Referential(l)
    ensures r.1 in r.0.canonicals && Referential(r.0) && r.0.observations == l.observations
    ensures l.canonicals.Keys <= r.0.canonicals.Keys
    ensures r.0.nextPk == l.nextPk
  {
    Locates(l, d);
    var (l1, id) := Located(l, d);
    Resolved(l1, id, d)
  }

  /** The claim stored on its result, before any head is refreshed. */
  ghost function Merged(l: Ledger, d: Claim): (t: Ledger)
    requires Referential(l)
    ensures Referential(t) && t.canonicals.Keys == Target(l, d).0.canonicals.Keys
    ensures l.canonicals.Keys <= t.canonicals.Keys
  {
    var (l1, id) := Target(l, d);
    WithObservation(ContextUpdated(l1, id, d), id, d)
  }

  lemma RefreshTables(w: Reference, l: Ledger, id: nat)
    requires id in l.canonicals && id in l.log && PksDiffer(l.observations)
    ensures var t := RefreshedAndEnqueued(w, l, id);
            t.canonicals.Keys == l.canonicals.Keys && t.log.Keys == l.log.Keys && t.observations == l.observations
            && t.nextId == l.nextId && t.nextPk == l.nextPk
  {
    ValidatedTables(w, Refreshed(l, id), id);
    SnapshotTables(ValidatedLatest(w, Refreshed(l, id), id), id);
  }

  lemma ValidatedTables(w: Reference, l: Ledger, id: nat)
    requires id in l.canonicals
    ensures var t := ValidatedLatest(w, l, id);
            t.canonicals.Keys == l.canonicals.Keys && t.log == l.log && t.observations == l.observations
            && t.nextId == l.nextId && t.nextPk == l.nextPk
  {
  }

  lemma SnapshotTables(l: Ledger, id: nat)
    requires id in l.canonicals && id in l.log
    ensures var t := Snapshotted(l, id);
            t.canonicals.Keys == l.canonicals.Keys && t.log.Keys == l.log.Keys && t.observations == l.observations
            && t.nextId == l.nextId && t.nextPk == l.nextPk
  {
  }

  lemma RefreshFrame(w: Reference, l: Ledger, id: nat)
    requires Referential(l) && id in l.canonicals
    ensures var t := RefreshedAndEnqueued(w, l, id);
            Referential(t) && t.canonicals.Keys == l.canonicals.Keys && t.observations == l.observations
            && t.nextId == l.nextId && t.nextPk == l.nextPk
  {
    RefreshTables(w, l, id);
    SameEvidence(l, RefreshedAndEnqueued(w, l, id));
  }

  lemma SameEvidence(l: Ledger, t: Ledger)
    requires Referential(l) && t.observations == l.observations && t.canonicals.Keys == l.canonicals.Keys
    requires t.log.Keys == l.log.Keys && t.nextId == l.nextId && t.nextPk == l.nextPk
    ensures Referential(t)
  {
  }

  /** Reconcile one claim: store it, refresh the result it belongs to, and the one it was taken from. */
  ghost function Reconciled(w: Reference, l: Ledger, d: Claim): (t: Ledger)
    requires Referential(l)
    ensures Referential(t)
  {
    var id := Target(l, d).1;
    var m := Merged(l, d);
    RefreshFrame(w, m, id);
    var n := RefreshedAndEnqueued(w, m, id);
    var previous := PreviousResult(l, d);
    if previous.Some? && previous.value != id then
      RefreshFrame(w, n, previous.value);
      RefreshedAndEnqueued(w, n, previous.value)
    else n
  }

  function Withdrawn(l: Ledger, key: string, observedAt: int): Ledger
    requires key in l.observations
  {
    var o := l.observations[key];
    l.(observations := l.observations[key := o.(active := false, lastAt := observedAt, revision := o.revision + 1)])
  }

  ghost function RetractedClaim(w: Reference, l: Ledger, key: string, observedAt: int): (t: Ledger)
    requires Referential(l)
    ensures Referential(t)
  {
    if key !in l.observations || !l.observations[key].active then l
    else
      var m := Withdrawn(l, key, observedAt);
      RefreshFrame(w, m, l.observations[key].canonical);
      RefreshedAndEnqueued(w, m, l.observations[key].canonical)
  }

  /** Validate one result on its own; a judged verdict is enqueued at once. */
  ghost function ValidatedAlone(w: Reference, l: Ledger, id: nat): (t: Ledger)
    requires Referential(l) && id in l.canonicals
    ensures t.canonicals.Keys == l.canonicals.Keys && t.observations == l.observations && Referential(t)
  {
    var m := Checked(w, l, {id});
    if Overridden(l, id) then Snapshotted(m, id) else m
  }
}
