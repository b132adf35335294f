/** The reconciliation and validation transactions over mutable tables, statement by statement, each
    proved to leave exactly the ledger Reconciliation and ValidationProofs describe. */
module EvidenceService {
  import opened RecordDomain
  import opened Evidence
  import opened RecordValidation
  import opened Reconciliation
  import opened LedgerProofs
  import opened ValidationProofs

  const VALIDATION_LEVELS: seq<Level> := [World, Continental, National]

  // -------- Reading one result's evidence --------

  /** What the loop over a result's active observations has gathered from `keys`. */
  ghost predicate Gathered(obs: map<string, Observation>, keys: set<string>, chosen: string, first: int, last: int, values: set<int>) {
    && IsHeaviest(obs, keys, chosen) && IsFirstTime(obs, keys, first) && IsLastTime(obs, keys, last)
    && values == TrustedValues(obs, keys)
  }

  lemma GatheredOneMore(obs: map<string, Observation>, seen: set<string>, chosen: string, first: int, last: int, values: set<int>, k: string)
    requires PksDiffer(obs) && seen <= obs.Keys && Gathered(obs, seen, chosen, first, last, values) && k in obs && k !in seen
    ensures Gathered(obs, seen + {k},
                     if Outweighs(obs[k], obs[chosen]) then k else chosen,
                     if obs[k].firstAt < first then obs[k].firstAt else first,
                     if obs[k].lastAt > last then obs[k].lastAt else last,
                     values + if obs[k].trusted then {obs[k].value} else {})
  {
    assert forall j :: j in seen + {k} <==> j in seen || j == k;
    var all := values + if obs[k].trusted then {obs[k].value} else {};
    forall v: int
      ensures v in all <==> v in TrustedValues(obs, seen + {k})
    {
      if v in all && v in values {
        var j :| j in seen && j in obs && obs[j].trusted && obs[j].value == v;
        assert j in seen + {k};
      } else if v in all {
        assert k in seen + {k};
      }
    }
    TimesOneMore(obs, seen, first, last, k);
  }

  lemma TimesOneMore(obs: map<string, Observation>, seen: set<string>, first: int, last: int, k: string)
    requires IsFirstTime(obs, seen, first) && IsLastTime(obs, seen, last) && k in obs
    ensures IsFirstTime(obs, seen + {k}, if obs[k].firstAt < first then obs[k].firstAt else first)
    ensures IsLastTime(obs, seen + {k}, if obs[k].lastAt > last then obs[k].lastAt else last)
  {
    var f :| f in seen && f in obs && obs[f].firstAt == first;
    var t :| t in seen && t in obs && obs[t].lastAt == last;
    assert f in seen + {k} && t in seen + {k} && k in seen + {k};
  }

  method Gather(obs: map<string, Observation>, keys: set<string>)
    returns (chosen: string, first: int, last: int, values: set<int>)
    requires keys != {} && keys <= obs.Keys && PksDiffer(obs)
    ensures Gathered(obs, keys, chosen, first, last, values)
  {
    chosen :| chosen in keys;
    first, last := obs[chosen].firstAt, obs[chosen].lastAt;
    values := if obs[chosen].trusted then {obs[chosen].value} else {};
    var pending := keys - {chosen};
    assert keys - pending == {chosen};
    while pending != {}
      invariant pending <= keys && Gathered(obs, keys - pending, chosen, first, last, values)
      decreases pending
    {
      var k :| k in pending;
      GatheredOneMore(obs, keys - pending, chosen, first, last, values, k);
      assert keys - (pending - {k}) == keys - pending + {k};
      chosen := if Outweighs(obs[k], obs[chosen]) then k else chosen;
      first := if obs[k].firstAt < first then obs[k].firstAt else first;
      last := if obs[k].lastAt > last then obs[k].lastAt else last;
      values := values + if obs[k].trusted then {obs[k].value} else {};
      pending := pending - {k};
    }
    assert keys - pending == keys;
  }

  lemma Pick<T>(s: set<T>) returns (x: T)
    requires s != {}
    ensures x in s
  {
    x :| x in s;
  }

  lemma MoreThanOne(values: set<int>)
    ensures |values| > 1 <==> exists v, w :: v in values && w in values && v != w
  {
    if |values| > 1 {
      var v := Pick(values);
      assert |values - {v}| > 0;
      var w := Pick(values - {v});
    }
    if v, w :| v in values && w in values && v != w {
      assert {v, w} <= values;
      assert |values - {v, w}| == |values| - |{v, w}|;
    }
  }

  /** The gathered summary is the one the refreshed head is defined by. */
  lemma GatheredIsRefreshed(obs: map<string, Observation>, keys: set<string>, chosen: string, first: int, last: int, values: set<int>)
    requires keys != {} && keys <= obs.Keys && PksDiffer(obs) && Gathered(obs, keys, chosen, first, last, values)
    ensures chosen == Heaviest(obs, keys) && first == FirstTime(obs, keys) && last == LastTime(obs, keys)
    ensures TrustVerdict(values) == if |values| > 1 then (Rejected, DISAGREEMENT)
                                    else if values != {} then (Verified, "trusted_source_observation")
                                    else (Validation.Pending, "untrusted_source_only")
  {
    HeaviestIsUnique(obs, keys, chosen, Heaviest(obs, keys));
    MoreThanOne(values);
  }

  class EvidenceStore {
    var world: Reference
    var canonicals: map<nat, Canonical>
    var observations: map<string, Observation>
    var log: map<nat, seq<Logged>>
    var work: map<RowId, Action>
    var validations: map<ValidationId, ValidationRow>
    var nextId: nat
    var nextPk: nat

    constructor (world: Reference)
      ensures this.world == world && LedgerInv(State())
    {
      this.world := world;
      canonicals, observations, log, work, validations := map[], map[], map[], map[], map[];
      nextId, nextPk := 0, 0;
    }

    function State(): Ledger
      reads this
    {
      Ledger(canonicals, observations, log, work, validations, nextId, nextPk)
    }

    // -------- Heads and revisions --------

    method RefreshCanonicalValues(id: nat) returns (hasEvidence: bool)
      requires id in canonicals && PksDiffer(observations)
      modifies this`canonicals
      ensures State() == Refreshed(old(State()), id)
      ensures hasEvidence <==> ActiveKeys(old(State()), id) != {}
    {
      var keys := set k | k in observations && observations[k].canonical == id && observations[k].active;
      assert keys == ActiveKeys(State(), id);
      var head := canonicals[id];
      if keys == {} {
        canonicals := canonicals[id := head.(facts := head.facts.(validation := Validation.Pending, reason := ALL_RETRACTED), current := None)];
        return false;
      }
      var key, first, last, values := Gather(observations, keys);
      GatheredIsRefreshed(observations, keys, key, first, last, values);
      var chosen := observations[key];
      var verdict: (Validation, string) :=
        if |values| > 1 then (Rejected, DISAGREEMENT)
        else if values != {} then (Verified, "trusted_source_observation")
        else (Validation.Pending, "untrusted_source_only");
      var facts := head.facts.(value := chosen.value, enteredAt := OrElse(chosen.enteredAt, head.facts.enteredAt),
                               firstAt := first, validation := verdict.0, reason := verdict.1);
      canonicals := canonicals[id := head.(facts := facts, lastAt := last, current := Some(key))];
      return true;
    }

    /** Persist a new immutable revision only for a classifier-relevant change. */
    method SnapshotAndEnqueue(id: nat) returns (enqueued: bool)
      requires id in canonicals && id in log
      modifies this`canonicals, this`log, this`work
      ensures State() == Snapshotted(old(State()), id)
      ensures enqueued <==> NeededAction(old(canonicals)[id], old(log)[id]).Some?
    {
      var head, rows := canonicals[id], log[id];
      var action;
      if rows == [] {
        action := Action.Active;
      } else {
        var latest := rows[|rows| - 1];
        if head.current.None? {
          if latest.status == Status.Retracted {
            canonicals := canonicals[id := head.(status := latest.status)];
            return false;
          }
          action := Action.Retracted;
        } else if latest.status == Status.Retracted {
          action := Action.Active;
        } else if latest.facts != head.facts {
          action := Action.Corrected;
        } else {
          canonicals := canonicals[id := head.(status := latest.status)];
          return false;
        }
      }
      canonicals := canonicals[id := head.(status := StatusFor(action), revision := |rows| + 1)];
      log := log[id := rows + [Logged(|rows| + 1, head.facts, action, StatusFor(action), head.lastAt)]];
      work := work[RowId(id, |rows| + 1) := action];
      return true;
    }

    method RefreshAndEnqueue(id: nat)
      requires id in canonicals && id in log && PksDiffer(observations)
      modifies this`canonicals, this`log, this`work, this`validations
      ensures State() == RefreshedAndEnqueued(world, old(State()), id)
    {
      var _ := RefreshCanonicalValues(id);
      if world.snapshot.Some? {
        CheckResult(id);
      }
      var _ := SnapshotAndEnqueue(id);
    }

    // -------- Validation of one result --------

    /** Bring one result's validation rows and verdict up to the snapshot, enqueueing nothing. */
    method CheckResult(id: nat)
      requires id in canonicals && world.snapshot.Some?
      modifies this`canonicals, this`validations
      ensures State() == Checked(world, old(State()), {id})
    {
      ghost var l := State();
      var facts := canonicals[id].facts;
      if !Judged(State(), id) {
        validations := map v | v in validations && v.result != id :: validations[v];
        UnjudgedRows(world, l, id, validations);
        CheckedIs(world, l, id, State());
        return;
      }
      var overridden := Overridden(State(), id);
      var present, verified := WriteRows(id);
      PresentLevels(world, l, id, validations, present);
      validations := map v | v in validations && (v.result != id || v.level in present) :: validations[v];
      if overridden {
        canonicals := canonicals[id := canonicals[id].(facts :=
          if verified then facts.(validation := Verified, reason := RECORD_MATCH)
          else facts.(validation := Validation.Pending, reason := NO_RECORD_MATCH))];
      }
      CheckedIs(world, l, id, State());
    }

    /** Write the row of every level that has a benchmark. */
    method WriteRows(id: nat) returns (present: set<Level>, verified: bool)
      requires id in canonicals && world.snapshot.Some? && Judged(State(), id)
      modifies this`validations
      ensures RowsUpTo(world, old(State()), id, |VALIDATION_LEVELS|, validations, present)
      ensures verified <==> exists level :: level in present && RowFor(world, canonicals[id].facts, level).value.verified
    {
      ghost var l := State();
      var facts := canonicals[id].facts;
      present, verified := {}, false;
      for i := 0 to |VALIDATION_LEVELS|
        invariant RowsUpTo(world, l, id, i, validations, present)
        invariant verified <==> exists level :: level in present && RowFor(world, facts, level).value.verified
      {
        var level := VALIDATION_LEVELS[i];
        var row := RowFor(world, facts, level);
        RowsStep(world, l, id, i, validations, present);
        if row.Some? {
          validations := validations[ValidationId(id, level) := row.value];
          verified := verified || row.value.verified;
          present := present + {level};
        }
      }
    }

    /** Validate one result on its own; a judged verdict is enqueued at once. */
    method ValidateResult(id: nat)
      requires Referential(State()) && id in canonicals && world.snapshot.Some?
      modifies this`canonicals, this`log, this`work, this`validations
      ensures State() == ValidatedAlone(world, old(State()), id)
    {
      var overridden := Overridden(State(), id);
      CheckResult(id);
      if overridden {
        var _ := SnapshotAndEnqueue(id);
      }
    }

    // -------- Validation of a batch --------

    /** Rows and verdicts of every result first, then one snapshot per changed head. */
    method ValidateScopeBatch(ids: seq<nat>)
      requires world.snapshot.Some? && AllKnown(State(), ids) && NoDuplicates(ids)
      modifies this`canonicals, this`log, this`work, this`validations
      ensures State() == BatchValidated(world, old(State()), ids)
    {
      ghost var l := State();
      var desired, heads, changed := JudgeEach(ids);
      validations := (map v | v in validations && v.result !in ids :: validations[v]) + desired;
      canonicals := heads;
      BatchChecked(world, l, ids, desired, State());
      SnapshotEach(changed);
    }

    /** The rows and verdicts of a batch, and which heads they change; nothing is written. */
    method JudgeEach(ids: seq<nat>) returns (desired: map<ValidationId, ValidationRow>, heads: map<nat, Canonical>, changed: seq<nat>)
      requires world.snapshot.Some? && AllKnown(State(), ids) && NoDuplicates(ids)
      ensures BatchUpTo(world, State(), ids, desired, heads)
      ensures changed == Changing(world, State(), ids)
    {
      desired, heads, changed := map[], canonicals, [];
      for i := 0 to |ids|
        invariant BatchUpTo(world, State(), ids[..i], desired, heads)
        invariant changed == Changing(world, State(), ids[..i])
      {
        desired, heads, changed := JudgeNext(ids, i, desired, heads, changed);
      }
      assert ids[..|ids|] == ids;
    }

    method JudgeNext(ids: seq<nat>, i: nat, desired: map<ValidationId, ValidationRow>, heads: map<nat, Canonical>, changed: seq<nat>)
      returns (desired': map<ValidationId, ValidationRow>, heads': map<nat, Canonical>, changed': seq<nat>)
      requires world.snapshot.Some? && AllKnown(State(), ids) && NoDuplicates(ids) && i < |ids|
      requires BatchUpTo(world, State(), ids[..i], desired, heads) && changed == Changing(world, State(), ids[..i])
      ensures BatchUpTo(world, State(), ids[..i + 1], desired', heads') && changed' == Changing(world, State(), ids[..i + 1])
    {
      var id := ids[i];
      BatchOneMore(world, State(), ids, i, desired, heads);
      var rows, overridden, facts := JudgeResult(id);
      desired', heads', changed' := desired + rows, heads, changed;
      if overridden && facts != canonicals[id].facts {
        heads' := heads[id := canonicals[id].(facts := facts)];
        changed' := changed + [id];
      }
    }

    /** The validation rows and the verdict one result should have; nothing is written. */
    method JudgeResult(id: nat) returns (rows: map<ValidationId, ValidationRow>, overridden: bool, facts: Facts)
      requires id in canonicals && world.snapshot.Some?
      ensures RowsFor(world, State(), id, rows)
      ensures overridden == Overridden(State(), id)
      ensures overridden ==> facts == VerdictFacts(world, canonicals[id].facts)
    {
      facts := canonicals[id].facts;
      rows, overridden := map[], false;
      if !Judged(State(), id) {
        return;
      }
      var verified := false;
      for i := 0 to |VALIDATION_LEVELS|
        invariant JudgedUpTo(world, facts, id, i, rows)
        invariant verified <==> exists level :: LevelRank(level) < i && RowFor(world, facts, level).Some? && RowFor(world, facts, level).value.verified
      {
        var level := VALIDATION_LEVELS[i];
        var row := RowFor(world, facts, level);
        assert forall l :: LevelRank(l) == i <==> l == level;
        if row.Some? {
          rows := rows[ValidationId(id, level) := row.value];
          verified := verified || row.value.verified;
        }
      }
      VerifiedAtSomeLevel(world, facts);
      overridden := Overridden(State(), id);
      if overridden {
        facts := if verified then facts.(validation := Verified, reason := RECORD_MATCH)
                 else facts.(validation := Validation.Pending, reason := NO_RECORD_MATCH);
      }
    }

    method SnapshotEach(ids: seq<nat>)
      requires forall i :: i in ids ==> i in canonicals && i in log
      modifies this`canonicals, this`log, this`work
      ensures State() == EachSnapshotted(old(State()), ids)
    {
      ghost var l := State();
      for i := 0 to |ids|
        invariant State() == EachSnapshotted(l, ids[..i])
      {
        assert ids[..i + 1][..i] == ids[..i];
        var _ := SnapshotAndEnqueue(ids[i]);
      }
      assert ids[..|ids|] == ids;
    }

    /** The scope refresh: bounded batches, one after another. */
    method ValidateScope(ids: seq<nat>, batchSize: int)
      requires world.snapshot.Some? && LedgerInv(State()) && AllKnown(State(), ids) && NoDuplicates(ids)
      modifies this`canonicals, this`log, this`work, this`validations
      ensures State() == EachAlone(world, old(State()), ids)
    {
      ghost var l := State();
      var size := if batchSize < 1 then 1 else batchSize;
      var offset := 0;
      EachAloneNone(world, l, ids);
      while offset < |ids|
        invariant 0 <= offset <= |ids|
        invariant DoneTo(world, l, ids, offset, State())
        decreases |ids| - offset
      {
        var end := if offset + size < |ids| then offset + size else |ids|;
        BatchReady(world, l, ids, offset, end, State());
        ValidateScopeBatch(ids[offset..end]);
        offset := end;
      }
      assert ids[..|ids|] == ids;
    }

    /** The results of a scope with active CubingChina evidence or an existing validation row, in id order. */
    method SelectScope(event: string, kind: Kind) returns (ids: seq<nat>)
      ensures ids == Selection(State(), ScopeIds(State(), event, kind, nextId))
    {
      ids := [];
      for id := 0 to nextId
        invariant ids == Selection(State(), ScopeIds(State(), event, kind, id))
      {
        SelectionSnoc(State(), ScopeIds(State(), event, kind, id), id);
        if InScope(State(), event, kind, id) && Selected(State(), id) {
          ids := ids + [id];
        }
      }
    }

    /** Refresh the stored validation of a scope: as if every one of its results were validated on its own. */
    method RefreshScope(event: string, kind: Kind, batchSize: int)
      requires LedgerInv(State())
      modifies this`canonicals, this`log, this`work, this`validations
      ensures AllKnown(old(State()), ScopeIds(old(State()), event, kind, old(nextId)))
      ensures State() == if world.snapshot.None? then old(State())
                         else EachAlone(world, old(State()), ScopeIds(old(State()), event, kind, old(nextId)))
    {
      ghost var all := ScopeIds(State(), event, kind, nextId);
      assert AllKnown(State(), all);
      if world.snapshot.None? {
        return;
      }
      SelectionLosesNothing(world, State(), all);
      var ids := SelectScope(event, kind);
      ValidateScope(ids, batchSize);
    }

    // -------- Reconciliation --------

    method FindByIdentity(key: string) returns (id: Option<nat>)
      requires KeysUnique(State())
      ensures id == ByIdentity(State(), key)
    {
      if i :| i in canonicals && canonicals[i].facts.identityKey == key {
        id := Some(i);
      } else {
        id := None;
      }
    }

    method FindSameSource(d: Claim) returns (id: Option<nat>)
      ensures id == SameSourceResult(State(), d)
    {
      var ids: set<nat> := set k | k in observations && SameSource(observations[k], d) :: observations[k].canonical;
      assert ids == SourceResults(State(), d);
      if k :| k in observations && SameSource(observations[k], d) {
        OneSourceResult(State(), d, k);
        if ids == {observations[k].canonical} {
          return Some(observations[k].canonical);
        }
      } else {
        assert ids == {};
      }
      return None;
    }

    /** The result this claim already belongs to; a source-keyed one is upgraded on the way. */
    method FindCanonical(d: Claim) returns (found: Option<nat>)
      requires Referential(State()) && KeysUnique(State())
      modifies this`canonicals
      ensures found == Found(old(State()), d)
      ensures State() == if ObservationKey(d) in old(observations) && NaturalHolder(old(State()), d).None?
                         then Upgraded(old(State()), old(observations)[ObservationKey(d)].canonical, d) else old(State())
    {
      var natural: Option<nat> := None;
      if NaturalKey(d).Some? {
        natural := FindByIdentity(NaturalKey(d).value);
      }
      if ObservationKey(d) in observations {
        var current := observations[ObservationKey(d)].canonical;
        if natural.Some? && natural.value != current {
          return natural;
        }
        if NaturalKey(d).Some? && IsSourceKey(canonicals[current].facts.identityKey) {
          HolderIsNotSource(State(), d);
          canonicals := canonicals[current := canonicals[current].(facts := canonicals[current].facts.(identityKey := NaturalKey(d).value))];
        }
        return Some(current);
      }
      if natural.Some? {
        return natural;
      }
      found := FindSameSource(d);
    }

    method CreateCanonical(d: Claim) returns (id: nat)
      requires KeysUnique(State())
      modifies this`canonicals, this`log, this`nextId
      ensures (State(), id) == if ByIdentity(old(State()), ProposedKey(d)).Some? then (old(State()), ByIdentity(old(State()), ProposedKey(d)).value)
                               else (Created(old(State()), d), old(nextId))
    {
      var holder := FindByIdentity(ProposedKey(d));
      if holder.Some? {
        return holder.value;
      }
      id := nextId;
      canonicals := canonicals[id := Canonical(FreshFacts(d), Status.Active, d.observedAt, None, 0, NaturalKey(d))];
      log := log[id := []];
      nextId := nextId + 1;
    }

    /** The natural identity wins: its holder takes the claim, or a source-keyed result takes the identity. */
    method ResolveIdentity(id: nat, d: Claim) returns (resolved: nat)
      requires KeysUnique(State()) && id in canonicals
      modifies this`canonicals
      ensures (State(), resolved) == Resolved(old(State()), id, d)
    {
      resolved := id;
      if NaturalKey(d).Some? && canonicals[id].facts.identityKey != NaturalKey(d).value {
        var natural := FindByIdentity(NaturalKey(d).value);
        if natural.Some? {
          resolved := natural.value;
        } else if IsSourceKey(canonicals[id].facts.identityKey) {
          canonicals := canonicals[id := canonicals[id].(facts := canonicals[id].facts.(identityKey := NaturalKey(d).value))];
        }
      } else {
        OwnIdentityResolves(State(), id, d);
      }
    }

    method LocateResult(d: Claim) returns (id: nat)
      requires Referential(State()) && KeysUnique(State())
      modifies this`canonicals, this`log, this`nextId
      ensures (State(), id) == Target(old(State()), d)
    {
      ghost var l := State();
      LocatedKeys(l, d);
      var found := FindCanonical(d);
      if found.Some? {
        id := found.value;
        if NaturalHolder(l, d).None? {
          UpgradedKeys(l, id, d);
        }
      } else {
        id := CreateCanonical(d);
      }
      id := ResolveIdentity(id, d);
    }

    /** Attach the claim to its result: context merged, observation stored, nothing refreshed yet. */
    method StoreClaim(d: Claim) returns (id: nat)
      requires Referential(State()) && KeysUnique(State())
      modifies this`canonicals, this`log, this`nextId, this`observations, this`nextPk
      ensures State() == Merged(old(State()), d) && id == Target(old(State()), d).1
    {
      id := LocateResult(d);
      var head := canonicals[id];
      canonicals := canonicals[id := head.(facts := Updated(head.facts, d), scope := OrElse(head.scope, NaturalKey(d)))];
      StoreObservation(id, d);
    }

    /** Reconcile evidence and transactionally enqueue its immutable revision. */
    method Reconcile(d: Claim)
      requires Referential(State()) && KeysUnique(State())
      modifies this`canonicals, this`observations, this`log, this`work, this`validations, this`nextId, this`nextPk
      ensures State() == Reconciled(world, old(State()), d)
    {
      ReconciledInTurn(world, State(), d);
      var previous := PreviousResult(State(), d);
      var id := StoreClaim(d);
      RefreshBoth(id, previous);
    }

    /** Refresh the result a claim joined, and then the one it was taken from. */
    method RefreshBoth(id: nat, previous: Option<nat>)
      requires CanRefreshBoth(world, State(), id, previous)
      modifies this`canonicals, this`log, this`work, this`validations
      ensures State() == BothRefreshed(world, old(State()), id, previous)
    {
      RefreshAndEnqueue(id);
      if previous.Some? && previous.value != id {
        RefreshAndEnqueue(previous.value);
      }
    }

    method StoreObservation(id: nat, d: Claim)
      modifies this`observations, this`nextPk
      ensures State() == WithObservation(old(State()), id, d)
    {
      var key := ObservationKey(d);
      var created := key !in observations;
      if created {
        observations := observations[key := Observation(nextPk, id, d.source, d.channel, d.sourceIdentity, d.kind, d.value,
                                                        d.enteredAt, d.observedAt, d.observedAt, false, true, 1)];
        nextPk := nextPk + 1;
      }
      var o := observations[key];
      var changed := !created && (o.value != d.value || !o.active || o.enteredAt != d.enteredAt);
      observations := observations[key := o.(canonical := id, source := d.source, channel := d.channel,
        sourceIdentity := d.sourceIdentity, kind := d.kind, value := d.value, trusted := EvidenceIsTrusted(d.channel),
        enteredAt := d.enteredAt, lastAt := d.observedAt, active := true,
        revision := if changed then o.revision + 1 else o.revision)];
    }

    /** Withdraw one observation; false when there was nothing active to withdraw. */
    method Retract(key: string, observedAt: int) returns (withdrawn: bool)
      requires Referential(State())
      modifies this`canonicals, this`observations, this`log, this`work, this`validations
      ensures State() == RetractedClaim(world, old(State()), key, observedAt)
      ensures withdrawn <==> key in old(observations) && old(observations)[key].active
    {
      ghost var l := State();
      if key !in observations || !observations[key].active {
        return false;
      }
      Withdraw(key, observedAt);
      WithdrawnReferential(l, key, observedAt);
      RefreshAndEnqueue(observations[key].canonical);
      return true;
    }

    method Withdraw(key: string, observedAt: int)
      requires key in observations
      modifies this`observations
      ensures State() == Withdrawn(old(State()), key, observedAt)
    {
      var o := observations[key];
      observations := observations[key := o.(active := false, lastAt := observedAt, revision := o.revision + 1)];
    }
  }

  ghost predicate CanRefresh(l: Ledger, id: nat) {
    id in l.canonicals && id in l.log && PksDiffer(l.observations)
  }

  ghost predicate CanRefreshBoth(w: Reference, l: Ledger, id: nat, previous: Option<nat>) {
    && CanRefresh(l, id)
    && (previous.Some? && previous.value != id ==> CanRefresh(RefreshedAndEnqueued(w, l, id), previous.value))
  }

  ghost function BothRefreshed(w: Reference, l: Ledger, id: nat, previous: Option<nat>): Ledger
    requires CanRefreshBoth(w, l, id, previous)
  {
    var n := RefreshedAndEnqueued(w, l, id);
    if previous.Some? && previous.value != id then RefreshedAndEnqueued(w, n, previous.value) else n
  }

  /** Reconciling is storing the claim, refreshing its result, and then the one it was taken from. */
  lemma ReconciledInTurn(w: Reference, l: Ledger, d: Claim)
    requires Referential(l)
    ensures CanRefreshBoth(w, Merged(l, d), Target(l, d).1, PreviousResult(l, d))
    ensures Reconciled(w, l, d) == BothRefreshed(w, Merged(l, d), Target(l, d).1, PreviousResult(l, d))
  {
    RefreshFrame(w, Merged(l, d), Target(l, d).1);
  }

  /** If the source claim points at a single result, it is the one any of its rows points at. */
  lemma OneSourceResult(l: Ledger, d: Claim, k: string)
    requires k in l.observations && SameSource(l.observations[k], d)
    ensures SameSourceResult(l, d) == if SourceResults(l, d) == {l.observations[k].canonical} then Some(l.observations[k].canonical) else None
  {
    assert l.observations[k].canonical in SourceResults(l, d);
  }

  lemma HolderIsNotSource(l: Ledger, d: Claim)
    ensures NaturalHolder(l, d).Some? ==> !IsSourceKey(l.canonicals[NaturalHolder(l, d).value].facts.identityKey)
  {
    NaturalIsNotSource(d);
  }

  lemma LocatedKeys(l: Ledger, d: Claim)
    requires Referential(l) && KeysUnique(l)
    ensures KeysUnique(Located(l, d).0) && Located(l, d).1 in Located(l, d).0.canonicals
  {
    Locates(l, d);
    if Found(l, d).None? && ByIdentity(l, ProposedKey(d)).None? {
      CreatedKeys(l, d);
    }
  }

  /** A result that already carries the natural identity, or a claim without one, resolves to itself. */
  lemma OwnIdentityResolves(l: Ledger, id: nat, d: Claim)
    requires KeysUnique(l) && id in l.canonicals
    requires NaturalKey(d).Some? ==> l.canonicals[id].facts.identityKey == NaturalKey(d).value
    ensures Resolved(l, id, d) == (l, id)
  {
    NaturalIsNotSource(d);
  }

  /** Upgrading while looking the result up is upgrading it once. */
  lemma UpgradedKeys(l: Ledger, id: nat, d: Claim)
    requires KeysUnique(l) && id in l.canonicals && NaturalHolder(l, d).None?
    ensures KeysUnique(Upgraded(l, id, d)) && Resolved(Upgraded(l, id, d), id, d) == Resolved(l, id, d)
  {
    if Upgradable(l, id, d) {
      RekeyedKeys(l, id, NaturalKey(d).value);
      OwnIdentityResolves(Upgraded(l, id, d), id, d);
    }
  }

  // -------- The batch loop --------

  ghost predicate RowsFor(w: Reference, l: Ledger, id: nat, rows: map<ValidationId, ValidationRow>)
    requires id in l.canonicals
  {
    forall v: ValidationId :: Get(rows, v) == if v.result == id then DesiredRow(w, l, v) else None
  }

  ghost predicate JudgedUpTo(w: Reference, facts: Facts, id: nat, i: nat, rows: map<ValidationId, ValidationRow>) {
    forall v: ValidationId :: Get(rows, v) == (if v.result == id && LevelRank(v.level) < i then RowFor(w, facts, v.level) else None)
  }

  lemma VerifiedAtSomeLevel(w: Reference, facts: Facts)
    ensures AnyVerified(w, facts) <==>
            exists level :: LevelRank(level) < |VALIDATION_LEVELS| && RowFor(w, facts, level).Some? && RowFor(w, facts, level).value.verified
  {
    assert RowFor(w, facts, Personal).None?;
    forall level: Level
      ensures level in AllLevels()
    {
      LevelIsListed(level);
    }
  }

  /** The first results of the batch have their rows in `desired` and their verdicts in `heads`. */
  ghost predicate BatchUpTo(w: Reference, l: Ledger, done: seq<nat>, desired: map<ValidationId, ValidationRow>, heads: map<nat, Canonical>)
    requires forall i :: i in done ==> i in l.canonicals
  {
    && (forall v: ValidationId :: Get(desired, v) == if v.result in done then DesiredRow(w, l, v) else None)
    && heads.Keys == l.canonicals.Keys
    && forall i :: i in heads ==> heads[i] == if i in done then ValidatedHead(w, l, i) else l.canonicals[i]
  }

  lemma BatchOneMore(w: Reference, l: Ledger, ids: seq<nat>, i: nat, desired: map<ValidationId, ValidationRow>, heads: map<nat, Canonical>)
    requires AllKnown(l, ids) && NoDuplicates(ids) && i < |ids| && BatchUpTo(w, l, ids[..i], desired, heads)
    ensures ids[i] in l.canonicals && ids[i] !in ids[..i]
    ensures forall rows :: RowsFor(w, l, ids[i], rows) ==>
              BatchUpTo(w, l, ids[..i + 1], desired + rows, heads[ids[i] := ValidatedHead(w, l, ids[i])])
    ensures !VerdictChanges(w, l, ids[i]) ==> heads[ids[i] := ValidatedHead(w, l, ids[i])] == heads
    ensures Changing(w, l, ids[..i + 1]) == Changing(w, l, ids[..i]) + if VerdictChanges(w, l, ids[i]) then [ids[i]] else []
  {
    var id := ids[i];
    assert id in ids;
    assert ids[..i + 1] == ids[..i] + [id];
    ChangingStep(w, l, ids[..i], id);
    forall rows | RowsFor(w, l, id, rows)
      ensures BatchUpTo(w, l, ids[..i + 1], desired + rows, heads[id := ValidatedHead(w, l, id)])
    {
      BatchGrows(w, l, ids[..i], id, desired, rows, heads);
    }
  }

  lemma BatchGrows(w: Reference, l: Ledger, init: seq<nat>, id: nat, desired: map<ValidationId, ValidationRow>,
                   rows: map<ValidationId, ValidationRow>, heads: map<nat, Canonical>)
    requires AllKnown(l, init + [id]) && id in l.canonicals && id !in init && BatchUpTo(w, l, init, desired, heads) && RowsFor(w, l, id, rows)
    ensures BatchUpTo(w, l, init + [id], desired + rows, heads[id := ValidatedHead(w, l, id)])
  {
    forall v: ValidationId
      ensures Get(desired + rows, v) == if v.result in init + [id] then DesiredRow(w, l, v) else None
    {
      assert Get(desired, v) == if v.result in init then DesiredRow(w, l, v) else None;
      assert Get(rows, v) == if v.result == id then DesiredRow(w, l, v) else None;
    }
  }

  lemma BatchChecked(w: Reference, l: Ledger, ids: seq<nat>, desired: map<ValidationId, ValidationRow>, t: Ledger)
    requires AllKnown(l, ids) && BatchUpTo(w, l, ids, desired, t.canonicals)
    requires t == l.(canonicals := t.canonicals, validations := t.validations)
    requires t.validations == (map v | v in l.validations && v.result !in ids :: l.validations[v]) + desired
    ensures t == Checked(w, l, SetOf(ids))
  {
    var c := Checked(w, l, SetOf(ids));
    forall v: ValidationId
      ensures Get(c.validations, v) == Get(t.validations, v)
    {
      BatchRow(w, l, ids, desired, v);
    }
    GetsAgree(c.validations, t.validations);
    MapsAgree(c.canonicals, t.canonicals);
  }

  lemma BatchRow(w: Reference, l: Ledger, ids: seq<nat>, desired: map<ValidationId, ValidationRow>, v: ValidationId)
    requires AllKnown(l, ids)
    requires Get(desired, v) == if v.result in ids then DesiredRow(w, l, v) else None
    ensures Get(Checked(w, l, SetOf(ids)).validations, v) ==
            Get((map x | x in l.validations && x.result !in ids :: l.validations[x]) + desired, v)
  {
    assert Get(Checked(w, l, SetOf(ids)).validations, v) == RowAfter(w, l, SetOf(ids), v);
  }

  // -------- The chunk loop --------

  ghost predicate DoneTo(w: Reference, l: Ledger, ids: seq<nat>, offset: nat, t: Ledger)
    requires LedgerInv(l) && AllKnown(l, ids) && offset <= |ids|
  {
    AllKnown(l, ids[..offset]) && t == EachAlone(w, l, ids[..offset])
  }

  lemma EachAloneNone(w: Reference, l: Ledger, ids: seq<nat>)
    requires LedgerInv(l) && AllKnown(l, ids)
    ensures DoneTo(w, l, ids, 0, l)
  {
    assert ids[..0] == [];
  }

  lemma BatchReady(w: Reference, l: Ledger, ids: seq<nat>, offset: nat, end: nat, t: Ledger)
    requires LedgerInv(l) && AllKnown(l, ids) && NoDuplicates(ids) && offset <= end <= |ids| && DoneTo(w, l, ids, offset, t)
    ensures AllKnown(t, ids[offset..end]) && NoDuplicates(ids[offset..end])
    ensures DoneTo(w, l, ids, end, BatchValidated(w, t, ids[offset..end]))
  {
    SlicesJoin(ids, offset, end);
    SliceKnown(l, ids, offset, end);
    RestIsBatch(w, l, ids[..offset], ids[offset..end]);
  }

  lemma SlicesJoin(ids: seq<nat>, offset: nat, end: nat)
    requires offset <= end <= |ids|
    ensures ids[..end] == ids[..offset] + ids[offset..end]
  {
  }

  /** A batch after validating some results one by one. */
  lemma RestIsBatch(w: Reference, l: Ledger, first: seq<nat>, rest: seq<nat>)
    requires LedgerInv(l) && AllKnown(l, first) && AllKnown(l, rest) && NoDuplicates(rest)
    ensures AllKnown(l, first + rest) && AllKnown(EachAlone(w, l, first), rest)
    ensures BatchValidated(w, EachAlone(w, l, first), rest) == EachAlone(w, l, first + rest)
  {
    EachAloneKeepsInv(w, l, first);
    EachAloneSplits(w, l, first, rest);
    BatchOfClosed(w, EachAlone(w, l, first), rest);
  }

  lemma SliceKnown(l: Ledger, ids: seq<nat>, offset: nat, end: nat)
    requires AllKnown(l, ids) && NoDuplicates(ids) && offset <= end <= |ids|
    ensures AllKnown(l, ids[..offset]) && AllKnown(l, ids[offset..end]) && AllKnown(l, ids[..end]) && NoDuplicates(ids[offset..end])
  {
    forall i, j | 0 <= i < j < end - offset
      ensures ids[offset..end][i] != ids[offset..end][j]
    {
      assert ids[offset..end][i] == ids[offset + i] && ids[offset..end][j] == ids[offset + j];
    }
  }

  lemma UnjudgedRows(w: Reference, l: Ledger, id: nat, after: map<ValidationId, ValidationRow>)
    requires id in l.canonicals && !Judged(l, id)
    requires after == map v | v in l.validations && v.result != id :: l.validations[v]
    ensures forall v :: Get(after, v) == RowAfter(w, l, {id}, v)
    ensures ValidatedHead(w, l, id) == l.canonicals[id] && l.canonicals == l.canonicals[id := l.canonicals[id]]
  {
  }

  function LevelRank(level: Level): nat {
    match level
    case World => 0
    case Continental => 1
    case National => 2
    case Personal => 3
  }

  /** The first `i` levels have their rows; the others are as before. */
  ghost predicate RowsUpTo(w: Reference, l: Ledger, id: nat, i: nat, rows: map<ValidationId, ValidationRow>, present: set<Level>)
    requires id in l.canonicals
  {
    var facts := l.canonicals[id].facts;
    && (forall v: ValidationId :: Get(rows, v) ==
          if v.result == id && LevelRank(v.level) < i && RowFor(w, facts, v.level).Some? then RowFor(w, facts, v.level) else Get(l.validations, v))
    && (forall level :: level in present <==> LevelRank(level) < i && RowFor(w, facts, level).Some?)
  }

  lemma RowsStep(w: Reference, l: Ledger, id: nat, i: nat, rows: map<ValidationId, ValidationRow>, present: set<Level>)
    requires id in l.canonicals && i < |VALIDATION_LEVELS| && RowsUpTo(w, l, id, i, rows, present)
    ensures var level := VALIDATION_LEVELS[i];
            var row := RowFor(w, l.canonicals[id].facts, level);
            if row.Some? then RowsUpTo(w, l, id, i + 1, rows[ValidationId(id, level) := row.value], present + {level})
            else RowsUpTo(w, l, id, i + 1, rows, present)
  {
    assert forall level :: LevelRank(level) == i <==> level == VALIDATION_LEVELS[i];
  }

  /** Once every level has been visited, the rows kept are the rows wanted. */
  lemma PresentLevels(w: Reference, l: Ledger, id: nat, rows: map<ValidationId, ValidationRow>, present: set<Level>)
    requires id in l.canonicals && Judged(l, id) && RowsUpTo(w, l, id, |VALIDATION_LEVELS|, rows, present)
    ensures var after := map v | v in rows && (v.result != id || v.level in present) :: rows[v];
            forall v :: Get(after, v) == RowAfter(w, l, {id}, v)
    ensures AnyVerified(w, l.canonicals[id].facts) <==>
            exists level :: level in present && RowFor(w, l.canonicals[id].facts, level).value.verified
  {
    var after := map v | v in rows && (v.result != id || v.level in present) :: rows[v];
    assert RowFor(w, l.canonicals[id].facts, Personal).None?;
    forall v: ValidationId
      ensures Get(after, v) == RowAfter(w, l, {id}, v)
    {
      assert Get(rows, v) == if v.result == id && LevelRank(v.level) < 3 && RowFor(w, l.canonicals[id].facts, v.level).Some?
                             then RowFor(w, l.canonicals[id].facts, v.level) else Get(l.validations, v);
    }
    forall level: Level
      ensures level in AllLevels()
    {
      LevelIsListed(level);
    }
  }
}
