/** The log the ledger hands to the classifier: every transaction appends revisions that are each the next of
    their result, and what is left is the log the pipeline and the classifier assume. */
module PublishedLog {
  import opened RecordDomain
  import opened Evidence
  import opened RecordValidation
  import opened Reconciliation
  import opened LedgerProofs
  import opened ValidationProofs
  import opened LedgerRuns
  import C = Classification
  import P = Pipeline
  import Runs = PipelineRuns

  // -------- The classifier's view --------

  function AsRevision(id: nat, row: Logged): Revision {
    var f := row.facts;
    Revision(id, row.revision, row.action, row.status, f.validation, f.value,
             if f.enteredAt.Some? then f.enteredAt.value else f.firstAt,
             f.event, f.kind, f.context.competitionId, f.context.competitionName,
             f.context.roundId, f.context.roundNumber, f.zone.localDate, f.context.person, f.context.country)
  }

  function RowIds(log: map<nat, seq<Logged>>): (ids: set<RowId>)
    ensures forall k :: k in ids <==> k.result in log && 1 <= k.revision <= |log[k.result]|
  {
    assert forall k: RowId :: k == RowId(k.result, k.revision);
    set id, n | id in log && 1 <= n <= |log[id]| :: RowId(id, n)
  }

  /** The heads and the revision log as the classifier reads them. */
  function Published(log: map<nat, seq<Logged>>): (s: C.Store)
    ensures forall id :: id in s.heads <==> id in log && log[id] != []
    ensures forall id :: id in s.heads ==> s.heads[id] == C.Head(|log[id]|, log[id][|log[id]| - 1].status)
    ensures forall k :: k in s.log <==> k.result in log && 1 <= k.revision <= |log[k.result]|
    ensures forall k :: k in s.log ==> s.log[k] == AsRevision(k.result, log[k.result][k.revision - 1])
  {
    C.Store(map id | id in log && log[id] != [] :: C.Head(|log[id]|, log[id][|log[id]| - 1].status),
            map k | k in RowIds(log) :: AsRevision(k.result, log[k.result][k.revision - 1]),
            map[], map[], map[])
  }

  lemma RowPublishesLog(log: map<nat, seq<Logged>>, id: nat, row: Logged)
    requires id in log && row.revision == |log[id]| + 1
    ensures Published(log[id := log[id] + [row]]).log == Published(log).log[RowId(id, row.revision) := AsRevision(id, row)]
  {
    var t := Published(log[id := log[id] + [row]]).log;
    var u := Published(log).log[RowId(id, row.revision) := AsRevision(id, row)];
    forall k: RowId
      ensures k in t <==> k in u
      ensures k in t ==> t[k] == u[k]
    {
      RowPublishesAt(log, id, row, k);
    }
    MapsAgree(t, u);
  }

  lemma RowPublishesAt(log: map<nat, seq<Logged>>, id: nat, row: Logged, k: RowId)
    requires id in log && row.revision == |log[id]| + 1
    ensures Get(Published(log[id := log[id] + [row]]).log, k) ==
            if k == RowId(id, row.revision) then Some(AsRevision(id, row)) else Get(Published(log).log, k)
  {
    assert k == RowId(k.result, k.revision);
  }

  lemma RowPublishesHead(log: map<nat, seq<Logged>>, id: nat, row: Logged)
    requires id in log && row.revision == |log[id]| + 1
    ensures Published(log[id := log[id] + [row]]).heads == Published(log).heads[id := C.Head(row.revision, row.status)]
  {
    MapsAgree(Published(log[id := log[id] + [row]]).heads, Published(log).heads[id := C.Head(row.revision, row.status)]);
  }

  /** Appending a row publishes the next revision of its result. */
  lemma RowPublishes(log: map<nat, seq<Logged>>, id: nat, row: Logged)
    requires id in log && row.revision == |log[id]| + 1
    ensures P.IsNext(Published(log), AsRevision(id, row))
    ensures P.SameLog(Published(log[id := log[id] + [row]]), P.Appended(Published(log), AsRevision(id, row)))
  {
    RowPublishesLog(log, id, row);
    RowPublishesHead(log, id, row);
  }

  /** A snapshot hands the classifier at most one revision, the next of its result. */
  lemma SnapshotPublishes(l: Ledger, id: nat) returns (revs: seq<Revision>)
    requires id in l.canonicals && id in l.log
    ensures |revs| <= 1 && P.Chain(Published(l.log), revs)
    ensures P.SameLog(Published(Snapshotted(l, id).log), P.AppendAll(Published(l.log), revs))
  {
    var head, rows := l.canonicals[id], l.log[id];
    revs := [];
    if NeededAction(head, rows).Some? {
      var row := NewRow(head, rows, NeededAction(head, rows).value);
      RowPublishes(l.log, id, row);
      revs := [AsRevision(id, row)];
      assert revs[1..] == [];
    }
  }

  lemma RefreshPublishes(w: Reference, l: Ledger, id: nat) returns (revs: seq<Revision>)
    requires id in l.canonicals && id in l.log && PksDiffer(l.observations)
    ensures |revs| <= 1 && P.Chain(Published(l.log), revs)
    ensures P.SameLog(Published(RefreshedAndEnqueued(w, l, id).log), P.AppendAll(Published(l.log), revs))
  {
    revs := SnapshotPublishes(ValidatedLatest(w, Refreshed(l, id), id), id);
  }

  /** One chain of revisions after another. */
  lemma ChainThen(s: C.Store, m: C.Store, t: C.Store, first: seq<Revision>, second: seq<Revision>)
    requires P.Chain(s, first) && P.SameLog(m, P.AppendAll(s, first))
    requires P.Chain(m, second) && P.SameLog(t, P.AppendAll(m, second))
    ensures P.Chain(s, first + second) && P.SameLog(t, P.AppendAll(s, first + second))
  {
    Runs.AppendAllConcat(s, first, second);
    Runs.ChainFrame(m, P.AppendAll(s, first), second);
    Runs.AppendAllFrame(m, P.AppendAll(s, first), second);
  }

  lemma MergedLog(l: Ledger, d: Claim)
    requires Referential(l)
    ensures Merged(l, d).log == l.log || (l.nextId !in l.log && Merged(l, d).log == l.log[l.nextId := []])
  {
    var (l1, id1) := Located(l, d);
    LocatedLog(l, d);
    ResolvedLog(l1, id1, d);
  }

  lemma LocatedLog(l: Ledger, d: Claim)
    requires Referential(l)
    ensures Located(l, d).0.log == l.log || (l.nextId !in l.log && Located(l, d).0.log == l.log[l.nextId := []])
  {
  }

  lemma ResolvedLog(l: Ledger, id: nat, d: Claim)
    ensures Resolved(l, id, d).0.log == l.log
  {
  }

  /** A result without revisions publishes nothing. */
  lemma EmptyLogPublishesNothing(log: map<nat, seq<Logged>>, id: nat)
    requires id !in log
    ensures P.SameLog(Published(log[id := []]), Published(log))
  {
    EmptyLogPublishesNoRow(log, id);
    var t, u := Published(log[id := []]).heads, Published(log).heads;
    forall j: nat
      ensures j in t <==> j in u
      ensures j in t ==> t[j] == u[j]
    {
    }
    MapsAgree(t, u);
  }

  lemma EmptyLogPublishesNoRow(log: map<nat, seq<Logged>>, id: nat)
    requires id !in log
    ensures Published(log[id := []]).log == Published(log).log
  {
    var after: map<nat, seq<Logged>> := log[id := []];
    forall k: RowId
      ensures k in RowIds(after) <==> k in RowIds(log)
    {
      if k.result != id && k.result in log {
        assert after[k.result] == log[k.result];
      }
    }
    assert RowIds(after) == RowIds(log);
    forall k | k in RowIds(log)
      ensures Published(after).log[k] == Published(log).log[k]
    {
      assert k.result != id;
    }
    MapsAgree(Published(after).log, Published(log).log);
  }

  lemma MergedPublishesNothing(l: Ledger, d: Claim)
    requires Referential(l)
    ensures P.SameLog(Published(Merged(l, d).log), Published(l.log))
  {
    MergedLog(l, d);
    if l.nextId !in l.log {
      EmptyLogPublishesNothing(l.log, l.nextId);
    }
  }

  /** Reconciling one claim hands the pipeline at most two revisions, each the next of its result. */
  lemma ReconcilePublishes(w: Reference, l: Ledger, d: Claim) returns (revs: seq<Revision>)
    requires Sound(l)
    ensures |revs| <= 2 && P.Chain(Published(l.log), revs)
    ensures P.SameLog(Published(Reconciled(w, l, d).log), P.AppendAll(Published(l.log), revs))
  {
    var m, id := Merged(l, d), Target(l, d).1;
    var n := RefreshedAndEnqueued(w, m, id);
    var previous := PreviousResult(l, d);
    MergedPublishesNothing(l, d);
    revs := RefreshPublishes(w, m, id);
    Runs.ChainFrame(Published(m.log), Published(l.log), revs);
    Runs.AppendAllFrame(Published(m.log), Published(l.log), revs);
    if previous.Some? && previous.value != id {
      RefreshFrame(w, m, id);
      var more := RefreshPublishes(w, n, previous.value);
      ChainThen(Published(l.log), Published(n.log), Published(Reconciled(w, l, d).log), revs, more);
      revs := revs + more;
    }
  }

  /** So does a retraction, with at most one. */
  lemma RetractPublishes(w: Reference, l: Ledger, key: string, observedAt: int) returns (revs: seq<Revision>)
    requires Referential(l)
    ensures |revs| <= 1 && P.Chain(Published(l.log), revs)
    ensures P.SameLog(Published(RetractedClaim(w, l, key, observedAt).log), P.AppendAll(Published(l.log), revs))
  {
    revs := [];
    if key in l.observations && l.observations[key].active {
      revs := RefreshPublishes(w, Withdrawn(l, key, observedAt), l.observations[key].canonical);
    }
  }

  lemma AlonePublishes(w: Reference, l: Ledger, id: nat) returns (revs: seq<Revision>)
    requires Referential(l) && id in l.canonicals
    ensures |revs| <= 1 && P.Chain(Published(l.log), revs)
    ensures P.SameLog(Published(ValidatedAlone(w, l, id).log), P.AppendAll(Published(l.log), revs))
  {
    revs := [];
    if Overridden(l, id) {
      revs := SnapshotPublishes(Checked(w, l, {id}), id);
    }
  }

  lemma {:induction false} EachAlonePublishes(w: Reference, l: Ledger, ids: seq<nat>) returns (revs: seq<Revision>)
    requires Referential(l) && AllKnown(l, ids)
    ensures |revs| <= |ids| && P.Chain(Published(l.log), revs)
    ensures P.SameLog(Published(EachAlone(w, l, ids).log), P.AppendAll(Published(l.log), revs))
    decreases |ids|
  {
    revs := [];
    if ids != [] {
      var init := ids[..|ids| - 1];
      assert forall i :: i in init ==> i in ids;
      revs := EachAlonePublishes(w, l, init);
      var m := EachAlone(w, l, init);
      var more := AlonePublishes(w, m, ids[|ids| - 1]);
      ChainThen(Published(l.log), Published(m.log), Published(EachAlone(w, l, ids).log), revs, more);
      revs := revs + more;
    }
  }

  /** A scope refresh in batches of any size publishes at most one revision per result of the scope. */
  lemma RevalidatePublishes(w: Reference, l: Ledger, ids: seq<nat>, size: nat) returns (revs: seq<Revision>)
    requires LedgerInv(l) && AllKnown(l, ids) && NoDuplicates(ids) && size >= 1
    ensures |revs| <= |ids| && P.Chain(Published(l.log), revs)
    ensures P.SameLog(Published(InBatches(w, l, ids, size).log), P.AppendAll(Published(l.log), revs))
  {
    BatchSizeIsInvisible(w, l, ids, size);
    revs := EachAlonePublishes(w, l, ids);
  }

  lemma OpPublishes(l: Ledger, op: Op) returns (revs: seq<Revision>)
    requires LedgerInv(l) && Runnable(l, op)
    ensures P.Chain(Published(l.log), revs)
    ensures P.SameLog(Published(After(l, op).log), P.AppendAll(Published(l.log), revs))
  {
    match op
    case Reconcile(w, d) => revs := ReconcilePublishes(w, l, d);
    case Retract(w, key, observedAt) => revs := RetractPublishes(w, l, key, observedAt);
    case Revalidate(w, ids, size) => revs := RevalidatePublishes(w, l, ids, size);
  }

  lemma {:induction false} OpsPublish(l: Ledger, ops: seq<Op>, t: Ledger) returns (revs: seq<Revision>)
    requires LedgerInv(l) && LedgerRun(l, ops, t)
    ensures P.Chain(Published(l.log), revs)
    ensures P.SameLog(Published(t.log), P.AppendAll(Published(l.log), revs))
    decreases |ops|
  {
    revs := [];
    if ops != [] {
      var m := After(l, ops[0]);
      revs := OpPublishes(l, ops[0]);
      OpKeepsInv(l, ops[0]);
      var more := OpsPublish(m, ops[1..], t);
      ChainThen(Published(l.log), Published(m.log), Published(t.log), revs, more);
      revs := revs + more;
    }
  }

  // -------- Nothing rewrites the event of a result --------

  ghost predicate EventKept(l: Ledger, id: nat) {
    && id in l.log && id in l.canonicals
    && forall i :: 0 <= i < |l.log[id]| ==>
         l.log[id][i].facts.event == l.canonicals[id].facts.event && l.log[id][i].facts.kind == l.canonicals[id].facts.kind
  }

  ghost predicate EventsKept(l: Ledger) {
    forall id :: id in l.canonicals ==> EventKept(l, id)
  }

  ghost predicate SameEvents(l: Ledger, t: Ledger) {
    && t.canonicals.Keys == l.canonicals.Keys && t.log == l.log
    && forall i :: i in l.canonicals ==>
         t.canonicals[i].facts.event == l.canonicals[i].facts.event && t.canonicals[i].facts.kind == l.canonicals[i].facts.kind
  }

  lemma EventsFrame(l: Ledger, t: Ledger)
    requires EventsKept(l) && SameEvents(l, t)
    ensures EventsKept(t)
  {
    forall id | id in t.canonicals
      ensures EventKept(t, id)
    {
      assert EventKept(l, id);
    }
  }

  lemma CheckedSameEvents(w: Reference, l: Ledger, ids: set<nat>)
    requires ids <= l.canonicals.Keys
    ensures SameEvents(l, Checked(w, l, ids))
  {
    forall i | i in l.canonicals
      ensures Checked(w, l, ids).canonicals[i].facts.event == l.canonicals[i].facts.event
      ensures Checked(w, l, ids).canonicals[i].facts.kind == l.canonicals[i].facts.kind
    {
      CheckedFacts(w, l, ids, i);
    }
  }

  lemma SnapshotKeepsEvent(l: Ledger, id: nat, j: nat)
    requires EventKept(l, j) && EventKept(l, id)
    ensures EventKept(Snapshotted(l, id), j)
  {
  }

  lemma SnapshotKeepsEvents(l: Ledger, id: nat)
    requires EventsKept(l) && id in l.canonicals && id in l.log
    ensures EventsKept(Snapshotted(l, id))
  {
    forall j | j in Snapshotted(l, id).canonicals
      ensures EventKept(Snapshotted(l, id), j)
    {
      assert EventKept(l, id) && EventKept(l, j);
      SnapshotKeepsEvent(l, id, j);
    }
  }

  lemma RefreshKeepsEvents(w: Reference, l: Ledger, id: nat)
    requires EventsKept(l) && id in l.canonicals && id in l.log && PksDiffer(l.observations)
    ensures EventsKept(RefreshedAndEnqueued(w, l, id))
  {
    var r := Refreshed(l, id);
    EventsFrame(l, r);
    if w.snapshot.Some? {
      CheckedSameEvents(w, r, {id});
      EventsFrame(r, Checked(w, r, {id}));
    }
    SnapshotKeepsEvents(ValidatedLatest(w, r, id), id);
  }

  lemma CreatedKeepsEvents(l: Ledger, d: Claim)
    requires EventsKept(l)
    ensures EventsKept(Created(l, d))
  {
    forall j | j in Created(l, d).canonicals
      ensures EventKept(Created(l, d), j)
    {
      assert j in l.canonicals ==> EventKept(l, j);
    }
  }

  lemma LocatedKeepsEvents(l: Ledger, d: Claim)
    requires Referential(l) && EventsKept(l)
    ensures EventsKept(Located(l, d).0)
  {
    CreatedKeepsEvents(l, d);
  }

  lemma ResolvedSameEvents(l: Ledger, id: nat, d: Claim)
    ensures SameEvents(l, Resolved(l, id, d).0)
  {
  }

  lemma StoredSameEvents(l: Ledger, id: nat, d: Claim)
    requires id in l.canonicals
    ensures SameEvents(l, WithObservation(ContextUpdated(l, id, d), id, d))
  {
  }

  lemma MergedKeepsEvents(l: Ledger, d: Claim)
    requires Referential(l) && EventsKept(l)
    ensures EventsKept(Merged(l, d))
  {
    var (l1, id1) := Located(l, d);
    var (l2, id2) := Target(l, d);
    LocatedKeepsEvents(l, d);
    ResolvedSameEvents(l1, id1, d);
    EventsFrame(l1, l2);
    StoredSameEvents(l2, id2, d);
    EventsFrame(l2, Merged(l, d));
  }

  lemma ReconcileKeepsEvents(w: Reference, l: Ledger, d: Claim)
    requires Referential(l) && EventsKept(l)
    ensures EventsKept(Reconciled(w, l, d))
  {
    var m, id := Merged(l, d), Target(l, d).1;
    var previous := PreviousResult(l, d);
    MergedKeepsEvents(l, d);
    RefreshKeepsEvents(w, m, id);
    if previous.Some? && previous.value != id {
      RefreshFrame(w, m, id);
      RefreshKeepsEvents(w, RefreshedAndEnqueued(w, m, id), previous.value);
    }
  }

  lemma RetractKeepsEvents(w: Reference, l: Ledger, key: string, observedAt: int)
    requires Referential(l) && EventsKept(l)
    ensures EventsKept(RetractedClaim(w, l, key, observedAt))
  {
    if key in l.observations && l.observations[key].active {
      var m := Withdrawn(l, key, observedAt);
      EventsFrame(l, m);
      RefreshKeepsEvents(w, m, l.observations[key].canonical);
    }
  }

  lemma AloneKeepsEvents(w: Reference, l: Ledger, id: nat)
    requires Referential(l) && EventsKept(l) && id in l.canonicals
    ensures EventsKept(ValidatedAlone(w, l, id))
  {
    CheckedSameEvents(w, l, {id});
    EventsFrame(l, Checked(w, l, {id}));
    SnapshotKeepsEvents(Checked(w, l, {id}), id);
  }

  lemma {:induction false} EachAloneKeepsEvents(w: Reference, l: Ledger, ids: seq<nat>)
    requires Referential(l) && AllKnown(l, ids) && EventsKept(l)
    ensures EventsKept(EachAlone(w, l, ids))
    decreases |ids|
  {
    if ids != [] {
      var init := ids[..|ids| - 1];
      assert forall i :: i in init ==> i in ids;
      EachAloneKeepsEvents(w, l, init);
      AloneKeepsEvents(w, EachAlone(w, l, init), ids[|ids| - 1]);
    }
  }

  lemma OpKeepsEvents(l: Ledger, op: Op)
    requires LedgerInv(l) && Runnable(l, op) && EventsKept(l)
    ensures EventsKept(After(l, op))
  {
    match op
    case Reconcile(w, d) => ReconcileKeepsEvents(w, l, d);
    case Retract(w, key, observedAt) => RetractKeepsEvents(w, l, key, observedAt);
    case Revalidate(w, ids, size) =>
      BatchSizeIsInvisible(w, l, ids, size);
      EachAloneKeepsEvents(w, l, ids);
  }

  lemma {:induction false} RunKeepsEvents(l: Ledger, ops: seq<Op>, t: Ledger)
    requires LedgerInv(l) && EventsKept(l) && LedgerRun(l, ops, t)
    ensures EventsKept(t)
    decreases |ops|
  {
    if ops != [] {
      OpKeepsEvents(l, ops[0]);
      OpKeepsInv(l, ops[0]);
      RunKeepsEvents(After(l, ops[0]), ops[1..], t);
    }
  }

  // -------- The published log --------

  lemma PublishedRow(l: Ledger, k: RowId)
    requires Sound(l) && k in Published(l.log).log
    ensures k.result in l.canonicals && EventKept(l, k.result) ==>
              && Published(l.log).log[k].event == l.canonicals[k.result].facts.event
              && Published(l.log).log[k].kind == l.canonicals[k.result].facts.kind
    ensures k.result in l.canonicals && Id(Published(l.log).log[k]) == k
  {
    assert LogWell(l, k.result);
  }

  /** Consecutive revisions 1 to head of every result, heads that agree with their last revision, and one
      event and kind per result. */
  lemma PublishedIsContiguous(l: Ledger)
    requires Sound(l) && EventsKept(l)
    ensures C.LogIsContiguous(Published(l.log))
  {
    forall k | k in Published(l.log).log
      ensures Id(Published(l.log).log[k]) == k
    {
      PublishedRow(l, k);
    }
    PublishedEvents(l);
    PublishedHeads(l.log);
  }

  lemma PublishedEvent(l: Ledger, k: RowId)
    requires Sound(l) && EventsKept(l) && k in Published(l.log).log
    ensures k.result in l.canonicals
    ensures Published(l.log).log[k].event == l.canonicals[k.result].facts.event
    ensures Published(l.log).log[k].kind == l.canonicals[k.result].facts.kind
  {
    PublishedRow(l, k);
    assert EventKept(l, k.result);
  }

  lemma PublishedEvents(l: Ledger)
    requires Sound(l) && EventsKept(l)
    ensures C.OneEventPerResult(Published(l.log))
  {
    forall k | k in Published(l.log).log
      ensures k.result in l.canonicals
      ensures Published(l.log).log[k].event == l.canonicals[k.result].facts.event
      ensures Published(l.log).log[k].kind == l.canonicals[k.result].facts.kind
    {
      PublishedEvent(l, k);
    }
    OneEventEach(Published(l.log), l.canonicals);
  }

  lemma OneEventEach(s: C.Store, canonicals: map<nat, Canonical>)
    requires forall k :: k in s.log ==>
               k.result in canonicals && s.log[k].event == canonicals[k.result].facts.event && s.log[k].kind == canonicals[k.result].facts.kind
    ensures C.OneEventPerResult(s)
  {
  }

  lemma PublishedHeads(log: map<nat, seq<Logged>>)
    ensures C.NumberedToHead(Published(log)) && C.HeadsLogged(Published(log))
  {
    var s := Published(log);
    forall id | id in s.heads
      ensures var k := RowId(id, s.heads[id].revision);
              s.heads[id].revision >= 1 && k in s.log && s.log[k].status == s.heads[id].status
    {
      assert RowId(id, s.heads[id].revision) in s.log;
    }
  }

  /** The log of every reachable ledger is one the pipeline's appends produce, one revision after another,
      and it is the log the classifier's guarantees assume. */
  lemma RunPublishes(env: Env, ops: seq<Op>, l: Ledger) returns (revs: seq<Revision>)
    requires LedgerRun(Empty(), ops, l)
    ensures P.Chain(P.Start(env).store, revs) && P.SameLog(Published(l.log), P.AppendAll(P.Start(env).store, revs))
    ensures C.LogIsContiguous(Published(l.log))
  {
    EmptyIsSound();
    revs := OpsPublish(Empty(), ops, l);
    RunKeepsLedger(Empty(), ops, l);
    RunKeepsEvents(Empty(), ops, l);
    PublishedIsContiguous(l);
    EmptyPublishesNothing(env);
    Runs.ChainFrame(Published(Empty().log), P.Start(env).store, revs);
    Runs.AppendAllFrame(Published(Empty().log), P.Start(env).store, revs);
  }

  lemma EmptyPublishesNothing(env: Env)
    ensures P.SameLog(Published(Empty().log), P.Start(env).store)
  {
    assert Published(Empty().log).heads == map[] && Published(Empty().log).log == map[];
  }
}
