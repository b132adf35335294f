/** Runs with one worker per result, in which the items of the first revisions of a cell, of some results, or of all results are
    settled while others wait. Every claim is in turn: the moment an item can be claimed, its result's worker claims it. */
module Schedules {
  import opened RecordDomain
  import opened RecordOrder
  import opened Classification
  import opened SettledProofs
  import opened BaselineProofs
  import opened WorkQueue
  import opened Pipeline
  import opened PipelineProofs
  import opened PipelineRuns

  // -------- One worker per result --------

  ghost function Waiting(a: Sys): (rows: set<RowId>)
    ensures forall k :: k in rows <==> k in a.work && Unsettled(a.work[k])
  {
    set k | k in a.work && Unsettled(a.work[k])
  }

  /** What is projected is what is settled. */
  ghost predicate Tidy(a: Sys) {
    a.work.Keys == a.store.log.Keys && a.store.processed.Keys == a.work.Keys - Waiting(a)
  }

  /** The first waiting item of a result is held by the worker of that name; the others have yet to be claimed. */
  ghost predicate Attended(a: Sys, k: RowId)
    requires k in a.work
  {
    if HasUnsettledEarlier(a.work, k) then a.work[k].status == WorkStatus.Pending
    else
      && PhaseOf(a, k.result) == Phase.Claimed(k)
      && a.work[k].status == Processing && a.work[k].claimedBy == Some(k.result)
      && a.work[k].expires.Some? && a.work[k].expires.value >= 0
  }

  ghost predicate Minds(a: Sys, w: nat) {
    !PhaseOf(a, w).Idle? ==> PhaseOf(a, w).row in Waiting(a) && PhaseOf(a, w).row.result == w
  }

  /** Every result's first waiting item is claimed and nothing more has been done with it. */
  ghost predicate Restful(a: Sys) {
    && Tidy(a)
    && (forall k :: k in Waiting(a) ==> Attended(a, k))
    && forall w :: Minds(a, w)
  }

  /** The same, but for one result nothing is claimed. */
  ghost predicate RestfulBut(a: Sys, result: nat) {
    && Tidy(a) && PhaseOf(a, result).Idle?
    && (forall k :: k in Waiting(a) ==> if k.result == result then a.work[k].status == WorkStatus.Pending else Attended(a, k))
    && forall w :: Minds(a, w)
  }

  /** Nothing of the same result is unsettled before `k`. */
  ghost predicate Foremost(a: Sys, k: RowId) {
    k in Waiting(a) && !HasUnsettledEarlier(a.work, k)
  }

  ghost predicate OthersStay(a: Sys, b: Sys, worker: nat) {
    forall w :: w != worker ==> PhaseOf(b, w) == PhaseOf(a, w)
  }

  // Claiming.

  /** The items of some results. */
  ghost function OfResults(rows: set<RowId>, results: set<nat>): (some: set<RowId>)
    ensures forall k :: k in some <==> k in rows && k.result in results
  {
    set k | k in rows && k.result in results
  }

  /** Some waiting item of these results is the first of its own. */
  lemma PickForemost(a: Sys, results: set<nat>) returns (k: RowId)
    requires OfResults(Waiting(a), results) != {}
    ensures Foremost(a, k) && k.result in results
  {
    k :| k in OfResults(Waiting(a), results);
    while HasUnsettledEarlier(a.work, k)
      invariant k in Waiting(a) && k.result in results
      decreases k.revision
    {
      var j :| j in a.work && j.result == k.result && j.revision < k.revision && Unsettled(a.work[j]);
      k := j;
    }
  }

  function ClaimOf(k: RowId): Event {
    Claim(k.result, k, 0, 300)
  }

  /** Only one item can be claimed, so the claim is in turn. */
  lemma ClaimInTurn(a: Sys, k: RowId)
    requires RestfulBut(a, k.result) && Foremost(a, k)
    ensures Enabled(a, ClaimOf(k)) && InTurn(a, ClaimOf(k))
  {
    forall j | Claimable(a.work, j, 0)
      ensures j == k
    {
      assert j in Waiting(a);
      assert j.result == k.result;
    }
  }

  lemma ClaimAttends(env: Env, a: Sys, k: RowId)
    requires RestfulBut(a, k.result) && Foremost(a, k) && Enabled(a, ClaimOf(k))
    ensures var b := Next(env, a, ClaimOf(k));
            Restful(b) && Waiting(b) == Waiting(a) && b.store == a.store
  {
    var b := Next(env, a, ClaimOf(k));
    assert Waiting(b) == Waiting(a);
    forall j | j in Waiting(b)
      ensures Attended(b, j)
    {
      assert HasUnsettledEarlier(b.work, j) == HasUnsettledEarlier(a.work, j);
      if j.result == k.result && j != k {
        assert j.revision > k.revision;
      }
    }
    forall w
      ensures Minds(b, w)
    {
      assert Minds(a, w);
    }
  }

  /** Claim the first waiting item of a result, if it has one. */
  lemma Attend(env: Env, events: seq<Event>, a: Sys, result: nat) returns (events': seq<Event>, b: Sys)
    requires Scheduled(env, events, a) && RestfulBut(a, result)
    ensures Scheduled(env, events', b) && Appends(events') == Appends(events)
    ensures Restful(b) && Waiting(b) == Waiting(a) && b.store == a.store
  {
    events', b := events, a;
    if OfResults(Waiting(a), {result}) != {} {
      var k := PickForemost(a, {result});
      ClaimInTurn(a, k);
      ClaimAttends(env, a, k);
      Extend(env, events, a, ClaimOf(k));
      events', b := events + [ClaimOf(k)], Next(env, a, ClaimOf(k));
    } else {
      assert forall k :: k in Waiting(a) ==> k.result != result;
    }
  }

  // Classifying.

  /** After loading and materialising an item. */
  ghost predicate Begun(env: Env, a: Sys, b: Sys, rev: Revision) {
    && PhaseOf(b, rev.resultId) == Materialised(Id(rev), HeadRevision(a.store, rev.resultId))
    && b.store == Materialized(env, a.store, rev) && b.work == a.work && OthersStay(a, b, rev.resultId)
  }

  lemma BeginEnabled(env: Env, a: Sys, rev: Revision)
    requires PhaseOf(a, rev.resultId) == Phase.Claimed(Id(rev)) && Logged(a.store, rev)
    ensures Enabled(a, Load(rev.resultId))
    ensures var loaded := Next(env, a, Load(rev.resultId));
            Enabled(loaded, Materialise(rev.resultId)) && Begun(env, a, Next(env, loaded, Materialise(rev.resultId)), rev)
  {
  }

  lemma Begin(env: Env, events: seq<Event>, a: Sys, rev: Revision) returns (events': seq<Event>, b: Sys)
    requires Scheduled(env, events, a) && PhaseOf(a, rev.resultId) == Phase.Claimed(Id(rev)) && Logged(a.store, rev)
    ensures Scheduled(env, events', b) && Appends(events') == Appends(events) && Begun(env, a, b, rev)
  {
    var w := rev.resultId;
    BeginEnabled(env, a, rev);
    Extend(env, events, a, Load(w));
    events', b := events + [Load(w)], Next(env, a, Load(w));
    Extend(env, events', b, Materialise(w));
    events', b := events' + [Materialise(w)], Next(env, b, Materialise(w));
  }

  /** The worker has a verdict on its item; the log has not moved and the item is projected. */
  ghost predicate Decidedly(a: Sys, b: Sys, k: RowId) {
    && SameLog(b.store, a.store) && b.store.processed.Keys == a.store.processed.Keys + {k}
    && PhaseOf(b, k.result).Returned? && PhaseOf(b, k.result).row == k
    && b.work == a.work && OthersStay(a, b, k.result)
  }

  /** Only the item's own level rows may have been written since `a`. */
  ghost predicate OnlySaved(a: Sys, b: Sys, k: RowId, verdict: bool, saved: nat) {
    && PhaseOf(b, k.result) == Historic(k, verdict, saved) && b.work == a.work && OthersStay(a, b, k.result)
    && SameLog(b.store, a.store) && b.store.processed.Keys == a.store.processed.Keys && b.store.live == a.store.live
  }

  lemma SaveOne(env: Env, a: Sys, b: Sys, k: RowId, verdict: bool, saved: nat)
    requires OnlySaved(a, b, k, verdict, saved) && saved < |RECORD_LEVELS| && k in a.store.log
    ensures Enabled(b, SaveLevel(k.result))
    ensures OnlySaved(a, Next(env, b, SaveLevel(k.result)), k, verdict, saved + 1)
  {
  }

  lemma {:induction false} SaveAll(env: Env, events: seq<Event>, a: Sys, k: RowId, verdict: bool, count: nat)
      returns (events': seq<Event>, b: Sys)
    requires Scheduled(env, events, a) && PhaseOf(a, k.result) == Historic(k, verdict, 0) && k in a.store.log
    requires count <= |RECORD_LEVELS|
    ensures Scheduled(env, events', b) && Appends(events') == Appends(events) && OnlySaved(a, b, k, verdict, count)
    decreases count
  {
    events', b := events, a;
    if count > 0 {
      events', b := SaveAll(env, events, a, k, verdict, count - 1);
      SaveOne(env, a, b, k, verdict, count - 1);
      Extend(env, events', b, SaveLevel(k.result));
      events', b := events' + [SaveLevel(k.result)], Next(env, b, SaveLevel(k.result));
    }
  }

  lemma DecidesHistory(env: Env, a: Sys, b: Sys, rev: Revision)
    requires Begun(env, a, b, rev) && Logged(a.store, rev)
    requires HeadRevision(a.store, rev.resultId) > rev.revision || IsAbsorbed(env, rev)
    ensures Enabled(b, Decide(rev.resultId))
    ensures var d := Next(env, b, Decide(rev.resultId));
            exists verdict :: PhaseOf(d, rev.resultId) == Historic(Id(rev), verdict, 0)
                              && d.store == b.store && d.work == b.work && OthersStay(b, d, rev.resultId)
  {
    var d := Next(env, b, Decide(rev.resultId));
    assert PhaseOf(d, rev.resultId) == Historic(Id(rev), HeadRevision(a.store, rev.resultId) <= rev.revision, 0);
  }

  lemma ReturnStep(env: Env, a: Sys, b: Sys, k: RowId, verdict: bool)
    requires OnlySaved(a, b, k, verdict, |RECORD_LEVELS|)
    ensures Enabled(b, Return(k.result))
    ensures var d := Next(env, b, Return(k.result));
            && PhaseOf(d, k.result) == Returned(k, verdict) && OthersStay(a, d, k.result)
            && d.work == a.work && d.store == b.store
  {
  }

  /** Decide, save the level rows and return without a commit: the item was overtaken, or its revision is absorbed. */
  lemma DecideHistoric(env: Env, events: seq<Event>, a: Sys, b: Sys, rev: Revision) returns (events': seq<Event>, b': Sys)
    requires Scheduled(env, events, b) && Begun(env, a, b, rev) && Logged(a.store, rev)
    requires HeadRevision(a.store, rev.resultId) > rev.revision || IsAbsorbed(env, rev)
    ensures Scheduled(env, events', b') && Appends(events') == Appends(events)
    ensures Decidedly(a, b', Id(rev)) && b'.store.live == a.store.live
  {
    var w := rev.resultId;
    DecidesHistory(env, a, b, rev);
    Extend(env, events, b, Decide(w));
    events', b' := events + [Decide(w)], Next(env, b, Decide(w));
    var decided, verdict := b', PhaseOf(b', w).verdict;
    events', b' := SaveAll(env, events', decided, Id(rev), verdict, |RECORD_LEVELS|);
    ReturnStep(env, decided, b', Id(rev), verdict);
    Extend(env, events', b', Return(w));
    events', b' := events' + [Return(w)], Next(env, b', Return(w));
  }

  /** Classifying this revision now does not replay `c`. */
  ghost predicate Mild(env: Env, s: Store, rev: Revision, c: Cell) {
    IsHead(s, rev) && c in Touched(env, s, rev) ==> rev.revision <= 1 && !OutOfOrder(env, Materialized(env, s, rev), rev)
  }

  lemma MildCommit(env: Env, s: Store, m: Store, rev: Revision, c: Cell)
    requires m == Materialized(env, s, rev) && HeadProjection(m, rev) && !IsAbsorbed(env, rev) && c.scope != ""
    requires Mild(env, s, rev, c)
    ensures AtMost(Get(Committed(env, m, rev, rev.revision > 1 || OutOfOrder(env, m, rev)).live, c), Get(s.live, c))
  {
    TouchedFrame(env, s, m, rev);
    CommittedLive(env, m, rev, rev.revision > 1 || OutOfOrder(env, m, rev), c);
  }

  lemma DecidesCommit(env: Env, a: Sys, b: Sys, rev: Revision)
    requires Begun(env, a, b, rev) && HeadRevision(a.store, rev.resultId) == rev.revision && Logged(b.store, rev) && !IsAbsorbed(env, rev)
    ensures Enabled(b, Decide(rev.resultId))
    ensures var d := Next(env, b, Decide(rev.resultId));
            && PhaseOf(d, rev.resultId) == Ready(Id(rev), rev.revision > 1 || OutOfOrder(env, b.store, rev))
            && d.store == b.store && d.work == a.work && OthersStay(a, d, rev.resultId)
  {
  }

  lemma CommitStep(env: Env, a: Sys, b: Sys, rev: Revision, repair: bool)
    requires PhaseOf(b, rev.resultId) == Ready(Id(rev), repair) && Logged(b.store, rev) && IsHead(b.store, rev)
    requires b.work == a.work && OthersStay(a, b, rev.resultId)
    ensures Enabled(b, Commit(rev.resultId))
    ensures var d := Next(env, b, Commit(rev.resultId));
            && PhaseOf(d, rev.resultId) == Returned(Id(rev), true) && d.store == Committed(env, b.store, rev, repair)
            && d.work == a.work && OthersStay(a, d, rev.resultId)
  {
  }

  /** Decide on a head, and commit it. */
  lemma DecideCommit(env: Env, events: seq<Event>, a: Sys, b: Sys, rev: Revision, c: Cell) returns (events': seq<Event>, b': Sys)
    requires Scheduled(env, events, b) && Begun(env, a, b, rev) && HeadRevision(a.store, rev.resultId) == rev.revision
    requires HeadProjection(b.store, rev) && !IsAbsorbed(env, rev) && c.scope != ""
    ensures Scheduled(env, events', b') && Appends(events') == Appends(events) && Decidedly(a, b', Id(rev))
    ensures Mild(env, a.store, rev, c) ==> AtMost(Get(b'.store.live, c), Get(a.store.live, c))
  {
    var w, repair := rev.resultId, rev.revision > 1 || OutOfOrder(env, b.store, rev);
    DecidesCommit(env, a, b, rev);
    Extend(env, events, b, Decide(w));
    events', b' := events + [Decide(w)], Next(env, b, Decide(w));
    CommitStep(env, a, b', rev, repair);
    Extend(env, events', b', Commit(w));
    events', b' := events' + [Commit(w)], Next(env, b', Commit(w));
    CommittedFrame(env, b.store, rev, repair);
    if Mild(env, a.store, rev, c) {
      MildCommit(env, a.store, b.store, rev, c);
    }
  }

  lemma BegunHeadIsReady(env: Env, events: seq<Event>, b: Sys, rev: Revision)
    requires Scheduled(env, events, b) && PhaseOf(b, rev.resultId).Materialised? && PhaseOf(b, rev.resultId).row == Id(rev)
    requires Logged(b.store, rev) && HeadRevision(b.store, rev.resultId) == rev.revision
    ensures HeadProjection(b.store, rev)
  {
    ScheduledReachable(env, events, b);
    HeadReady(env, b, rev);
  }

  lemma HeadReady(env: Env, b: Sys, rev: Revision)
    requires StoreInv(env, b.store) && WorkersInv(env, b)
    requires PhaseOf(b, rev.resultId).Materialised? && PhaseOf(b, rev.resultId).row == Id(rev)
    requires Logged(b.store, rev) && HeadRevision(b.store, rev.resultId) == rev.revision
    ensures HeadProjection(b.store, rev)
  {
    PhaseSound(env, b, rev.resultId);
    NumberedHeads(b.store);
    assert Id(rev) in b.store.log;
    assert HeadAgrees(b.store, rev);
  }

  /** The verdict on a begun item: committed when it is an unabsorbed head, historical otherwise. */
  lemma DecideItem(env: Env, events: seq<Event>, a: Sys, begun: Sys, rev: Revision, c: Cell) returns (events': seq<Event>, b: Sys)
    requires Scheduled(env, events, begun) && Begun(env, a, begun, rev) && c.scope != ""
    requires Logged(a.store, rev) && rev.revision <= HeadRevision(a.store, rev.resultId)
    ensures Scheduled(env, events', b) && Appends(events') == Appends(events) && Decidedly(a, b, Id(rev))
    ensures Mild(env, a.store, rev, c) ==> AtMost(Get(b.store.live, c), Get(a.store.live, c))
  {
    if HeadRevision(a.store, rev.resultId) > rev.revision || IsAbsorbed(env, rev) {
      events', b := DecideHistoric(env, events, a, begun, rev);
    } else {
      BegunHeadIsReady(env, events, begun, rev);
      events', b := DecideCommit(env, events, a, begun, rev, c);
    }
  }

  // Settling.

  lemma SettleStep(env: Env, a: Sys, b: Sys, k: RowId)
    requires Restful(a) && Foremost(a, k) && Decidedly(a, b, k)
    ensures Enabled(b, Settle(k.result))
    ensures var d := Next(env, b, Settle(k.result));
            && PhaseOf(d, k.result).Idle? && OthersStay(a, d, k.result) && d.store == b.store
            && k in a.work && d.work.Keys == a.work.Keys && !Unsettled(d.work[k])
            && forall j :: j in a.work && j != k ==> d.work[j] == a.work[j]
  {
    assert Attended(a, k);
  }

  /** What settling the first item of a result leaves of the others. */
  lemma SettleLeaves(a: Sys, d: Sys, k: RowId)
    requires Restful(a) && Foremost(a, k)
    requires d.work.Keys == a.work.Keys && !Unsettled(d.work[k]) && forall j :: j in a.work && j != k ==> d.work[j] == a.work[j]
    requires PhaseOf(d, k.result).Idle? && OthersStay(a, d, k.result)
    requires SameLog(d.store, a.store) && d.store.processed.Keys == a.store.processed.Keys + {k}
    ensures RestfulBut(d, k.result) && Waiting(d) == Waiting(a) - {k}
  {
    assert Waiting(d) == Waiting(a) - {k};
    forall j | j in Waiting(d)
      ensures if j.result == k.result then d.work[j].status == WorkStatus.Pending else Attended(d, j)
    {
      assert Attended(a, j);
      if j.result == k.result {
        assert j.revision > k.revision;
      } else {
        assert HasUnsettledEarlier(d.work, j) == HasUnsettledEarlier(a.work, j);
      }
    }
    forall w
      ensures Minds(d, w)
    {
      assert Minds(a, w);
    }
  }

  /** An item settles; unless classifying it replays `c`, the cell does not get worse. */
  lemma SettleItem(env: Env, events: seq<Event>, a: Sys, rev: Revision, c: Cell) returns (events': seq<Event>, b: Sys)
    requires Scheduled(env, events, a) && Restful(a) && Foremost(a, Id(rev)) && Logged(a.store, rev) && c.scope != ""
    ensures Scheduled(env, events', b) && Appends(events') == Appends(events)
    ensures Restful(b) && Waiting(b) == Waiting(a) - {Id(rev)} && SameLog(b.store, a.store)
    ensures Mild(env, a.store, rev, c) ==> AtMost(Get(b.store.live, c), Get(a.store.live, c))
  {
    ScheduledLog(env, events, a);
    assert Id(rev) in a.store.log && rev.revision <= HeadRevision(a.store, rev.resultId);
    assert Attended(a, Id(rev));
    events', b := Begin(env, events, a, rev);
    events', b := DecideItem(env, events', a, b, rev, c);
    SettleStep(env, a, b, Id(rev));
    Extend(env, events', b, Settle(rev.resultId));
    events', b := events' + [Settle(rev.resultId)], Next(env, b, Settle(rev.resultId));
    SettleLeaves(a, b, Id(rev));
    events', b := Attend(env, events', b, rev.resultId);
  }

  // -------- Schedules --------

  lemma OneLess(rows: set<RowId>, results: set<nat>, k: RowId)
    requires k in OfResults(rows, results)
    ensures OfResults(rows - {k}, results) == OfResults(rows, results) - {k}
    ensures rows - {k} - OfResults(rows - {k}, results) == rows - OfResults(rows, results)
  {
  }

  lemma AllResults(rows: set<RowId>) returns (results: set<nat>)
    ensures OfResults(rows, results) == rows
  {
    results := set k | k in rows :: k.result;
  }

  /** However it is classified, a revision that no longer is a head, or reaches other cells only, leaves `c` alone. */
  ghost predicate Remote(env: Env, s: Store, rev: Revision, c: Cell) {
    IsHead(s, rev) ==> c !in Touched(env, s, rev)
  }

  ghost predicate AllRemote(env: Env, s: Store, rows: set<RowId>, c: Cell) {
    forall k :: k in rows && k in s.log ==> Remote(env, s, s.log[k], c)
  }

  lemma RemoteFrame(env: Env, s: Store, t: Store, rows: set<RowId>, fewer: set<RowId>, c: Cell)
    requires SameLog(s, t) && fewer <= rows && AllRemote(env, s, rows, c)
    ensures AllRemote(env, t, fewer, c)
  {
    forall k | k in fewer && k in t.log
      ensures Remote(env, t, t.log[k], c)
    {
      TouchedFrame(env, s, t, t.log[k]);
      assert Remote(env, s, s.log[k], c);
    }
  }

  /** Settle everything of some results that waits. */
  lemma {:induction false} Drain(env: Env, events: seq<Event>, a: Sys, results: set<nat>, c: Cell) returns (events': seq<Event>, b: Sys)
    requires Scheduled(env, events, a) && Restful(a) && c.scope != ""
    ensures Scheduled(env, events', b) && Appends(events') == Appends(events)
    ensures Restful(b) && Waiting(b) == Waiting(a) - OfResults(Waiting(a), results) && SameLog(b.store, a.store)
    ensures AllRemote(env, a.store, OfResults(Waiting(a), results), c) ==> AtMost(Get(b.store.live, c), Get(a.store.live, c))
    decreases OfResults(Waiting(a), results)
  {
    events', b := events, a;
    if OfResults(Waiting(a), results) != {} {
      ScheduledLog(env, events, a);
      var k := PickForemost(a, results);
      events', b := SettleItem(env, events, a, a.store.log[k], c);
      var middle := b;
      OneLess(Waiting(a), results, k);
      events', b := Drain(env, events', middle, results, c);
      if AllRemote(env, a.store, OfResults(Waiting(a), results), c) {
        assert Remote(env, a.store, a.store.log[k], c);
        RemoteFrame(env, a.store, middle.store, OfResults(Waiting(a), results), OfResults(Waiting(middle), results), c);
      }
    }
  }

  /** No settled current row of its event and kind has a key later than `g`. */
  ghost predicate Unpassed(env: Env, a: Sys, g: Revision) {
    forall r ::
      Logged(a.store, r) && IsHead(a.store, r) && Eligible(env, r) && r.event == g.event && r.kind == g.kind && Before(g, r) ==>
        Id(r) in Waiting(a)
  }

  /** A current row, other than the one being classified, is a settled head. */
  lemma RowIsSettled(env: Env, a: Sys, g: Revision, r: Revision, c: Cell)
    requires ProjectionsMatchLog(env, a.store) && Restful(a) && HeadAgrees(a.store, g)
    requires Counts(env, Materialized(env, a.store, g), r, c) && Id(r) != Id(g)
    ensures Logged(a.store, r) && IsHead(a.store, r) && Eligible(env, r) && Id(r) !in Waiting(a)
  {
    MaterializedCounts(env, a.store, g, c, r);
  }

  lemma UnpassedIsInOrder(env: Env, a: Sys, g: Revision)
    requires StoreInv(env, a.store) && Restful(a) && Logged(a.store, g) && Unpassed(env, a, g)
    ensures !OutOfOrder(env, Materialized(env, a.store, g), g)
  {
    var m := Materialized(env, a.store, g);
    NumberedHeads(a.store);
    OutOfOrderOnWorld(env, m, g);
    forall r | r in Rows(env, m, CellOf(env, g, World)) && Id(r) != Id(g)
      ensures !Before(g, r)
    {
      RowIsSettled(env, a, g, r, CellOf(env, g, World));
    }
  }

  /** First revisions that wait while nothing settled has a later key. */
  ghost predicate Lined(env: Env, a: Sys, firsts: set<Revision>) {
    forall g :: g in firsts ==> Logged(a.store, g) && g.revision == 1 && Id(g) in Waiting(a) && Unpassed(env, a, g)
  }

  lemma LinedAfter(env: Env, a: Sys, b: Sys, firsts: set<Revision>, g: Revision)
    requires Lined(env, a, firsts) && IsEarliest(firsts, g)
    requires SameLog(b.store, a.store) && Waiting(b) == Waiting(a) - {Id(g)}
    ensures Lined(env, b, firsts - {g})
  {
    forall f | f in firsts - {g}
      ensures Id(f) in Waiting(b) && Unpassed(env, b, f)
    {
      assert Unpassed(env, a, f);
    }
  }

  lemma FirstIsForemost(a: Sys, g: Revision)
    requires Id(g) in Waiting(a) && g.revision == 1 && NumberedToHead(a.store) && a.work.Keys == a.store.log.Keys
    ensures Foremost(a, Id(g))
  {
    forall j | j in a.work
      ensures j.revision >= 1
    {
      assert j in a.store.log;
    }
  }

  lemma GoneAfter(all: set<RowId>, after: set<RowId>, last: set<RowId>, firsts: set<Revision>, g: Revision)
    requires after == all - {Id(g)} && last <= after && forall f :: f in firsts - {g} ==> Id(f) !in last
    ensures last <= all && forall f :: f in firsts ==> Id(f) !in last
  {
  }

  /** Settled in key order, first revisions never replay anything. */
  lemma {:induction false} SettleInOrder(env: Env, events: seq<Event>, a: Sys, firsts: set<Revision>, c: Cell)
      returns (events': seq<Event>, b: Sys)
    requires Scheduled(env, events, a) && Restful(a) && Lined(env, a, firsts) && c.scope != ""
    ensures Scheduled(env, events', b) && Appends(events') == Appends(events)
    ensures Restful(b) && SameLog(b.store, a.store)
    ensures Waiting(b) <= Waiting(a) && forall g :: g in firsts ==> Id(g) !in Waiting(b)
    ensures AtMost(Get(b.store.live, c), Get(a.store.live, c))
    decreases firsts
  {
    events', b := events, a;
    if firsts != {} {
      ScheduledReachable(env, events, a);
      var g := Earliest(firsts);
      FirstIsForemost(a, g);
      UnpassedIsInOrder(env, a, g);
      events', b := SettleItem(env, events, a, g, c);
      var middle := b;
      LinedAfter(env, a, middle, firsts, g);
      events', b := SettleInOrder(env, events', middle, firsts - {g}, c);
      GoneAfter(Waiting(a), Waiting(middle), Waiting(b), firsts, g);
    }
  }

  /** `b` is `a` once `rev` has arrived. */
  ghost predicate JustArrived(a: Sys, b: Sys, rev: Revision) {
    && b.store == Appended(a.store, rev) && b.workers == a.workers
    && b.work == a.work[Id(rev) := Fresh(|a.appended|, |a.appended|)]
  }

  /** The next revision arrives with its item, later than every item before it. */
  function Arrival(a: Sys, rev: Revision): Event {
    Append(rev, |a.appended|, |a.appended|)
  }

  lemma ArrivalStep(env: Env, a: Sys, rev: Revision)
    requires Tidy(a) && IsNext(a.store, rev) && Id(rev) !in a.store.log
    ensures Enabled(a, Arrival(a, rev)) && InTurn(a, Arrival(a, rev))
    ensures JustArrived(a, Next(env, a, Arrival(a, rev)), rev)
  {
  }

  lemma ArrivalIsLast(a: Sys, b: Sys, rev: Revision, j: RowId)
    requires Tidy(a) && NumberedToHead(a.store) && IsNext(a.store, rev) && JustArrived(a, b, rev) && j in a.work
    ensures j.result == rev.resultId ==> j.revision < rev.revision
    ensures HasUnsettledEarlier(b.work, j) == HasUnsettledEarlier(a.work, j)
  {
    assert j in a.store.log;
  }

  /** A result with a waiting item keeps its worker busy. */
  lemma BusyWhileWaiting(a: Sys, j: RowId)
    requires Restful(a) && j in Waiting(a)
    ensures !PhaseOf(a, j.result).Idle?
  {
    assert j in OfResults(Waiting(a), {j.result});
    var k := PickForemost(a, {j.result});
    assert Attended(a, k);
  }

  lemma ArrivalAttends(a: Sys, b: Sys, rev: Revision, j: RowId)
    requires Restful(a) && NumberedToHead(a.store) && IsNext(a.store, rev) && Id(rev) !in a.store.log
    requires JustArrived(a, b, rev) && j in Waiting(a)
    ensures Attended(b, j)
  {
    assert Attended(a, j);
    ArrivalIsLast(a, b, rev, j);
  }

  lemma ArrivalWaits(a: Sys, b: Sys, rev: Revision)
    requires Tidy(a) && Id(rev) !in a.store.log && JustArrived(a, b, rev)
    ensures Waiting(b) == Waiting(a) + {Id(rev)} && Tidy(b)
    ensures b.work[Id(rev)].status == WorkStatus.Pending
  {
    assert Waiting(b) == Waiting(a) + {Id(rev)};
  }

  lemma ArrivalMinds(a: Sys, b: Sys, w: nat)
    requires Minds(a, w) && b.workers == a.workers && Waiting(a) <= Waiting(b)
    ensures Minds(b, w)
  {
  }

  lemma ArrivalLeaves(a: Sys, b: Sys, rev: Revision)
    requires Restful(a) && NumberedToHead(a.store) && IsNext(a.store, rev) && Id(rev) !in a.store.log && JustArrived(a, b, rev)
    ensures Waiting(b) == Waiting(a) + {Id(rev)}
    ensures if PhaseOf(a, rev.resultId).Idle? then RestfulBut(b, rev.resultId) else Restful(b)
  {
    ArrivalWaits(a, b, rev);
    forall w
      ensures Minds(b, w)
    {
      ArrivalMinds(a, b, w);
    }
    forall j | j in Waiting(a)
      ensures Attended(b, j) && (PhaseOf(a, rev.resultId).Idle? ==> j.result != rev.resultId)
    {
      ArrivalAttends(a, b, rev, j);
      BusyWhileWaiting(a, j);
    }
    if !PhaseOf(a, rev.resultId).Idle? {
      ArrivalFollowsOthers(a, b, rev);
    }
  }

  lemma ArrivalFollowsOthers(a: Sys, b: Sys, rev: Revision)
    requires Tidy(a) && NumberedToHead(a.store) && IsNext(a.store, rev) && JustArrived(a, b, rev)
    requires Minds(a, rev.resultId) && !PhaseOf(a, rev.resultId).Idle? && Id(rev) !in a.store.log
    ensures HasUnsettledEarlier(b.work, Id(rev))
  {
    var k := PhaseOf(a, rev.resultId).row;
    ArrivalIsLast(a, b, rev, k);
    assert k in b.work && Unsettled(b.work[k]);
  }

  lemma AppendOne(env: Env, events: seq<Event>, a: Sys, rev: Revision) returns (events': seq<Event>, b: Sys)
    requires Scheduled(env, events, a) && Restful(a) && IsNext(a.store, rev)
    ensures Scheduled(env, events', b) && Appends(events') == Appends(events) + [rev]
    ensures Restful(b) && b.store == Appended(a.store, rev) && Waiting(b) == Waiting(a) + {Id(rev)}
  {
    ScheduledLog(env, events, a);
    NextIsFresh(a.store, rev);
    ArrivalStep(env, a, rev);
    Extend(env, events, a, Arrival(a, rev));
    events', b := events + [Arrival(a, rev)], Next(env, a, Arrival(a, rev));
    ArrivalLeaves(a, b, rev);
    if PhaseOf(a, rev.resultId).Idle? {
      events', b := Attend(env, events', b, rev.resultId);
    }
  }

  function Ids(revs: seq<Revision>): (rows: set<RowId>)
    ensures forall k :: k in rows <==> exists r :: r in revs && Id(r) == k
  {
    set r | r in revs :: Id(r)
  }

  lemma IdsFirst(revs: seq<Revision>)
    requires revs != []
    ensures Ids(revs) == {Id(revs[0])} + Ids(revs[1..])
  {
    assert revs == [revs[0]] + revs[1..];
  }

  /** Append a chain of revisions without settling anything. */
  lemma {:induction false} AppendMany(env: Env, events: seq<Event>, a: Sys, revs: seq<Revision>) returns (events': seq<Event>, b: Sys)
    requires Scheduled(env, events, a) && Restful(a) && Chain(a.store, revs)
    ensures Scheduled(env, events', b) && Appends(events') == Appends(events) + revs
    ensures Restful(b) && b.store == AppendAll(a.store, revs) && b.store.live == a.store.live
    ensures Waiting(b) == Waiting(a) + Ids(revs)
    decreases |revs|
  {
    events', b := events, a;
    if revs != [] {
      events', b := AppendOne(env, events, a, revs[0]);
      events', b := AppendMany(env, events', b, revs[1..]);
      MoveFirst(Appends(events), revs);
      IdsFirst(revs);
    }
  }
}
