/** The classification worker loop over mutable tables: claim the first ready item, classify it, settle it.
    With no other worker in between, the loop is one run of the step system. */
module WorkService {
  import opened RecordDomain
  import opened Classification
  import opened SettledProofs
  import opened BaselineProofs
  import opened ClassificationService
  import opened WorkQueue
  import opened Pipeline
  import opened PipelineProofs
  import Runs = PipelineRuns

  ghost predicate PksDiffer(q: Queue) {
    forall i, j :: i in q && j in q && q[i].pk == q[j].pk ==> i == j
  }

  // -------- Classification as steps --------

  /** Load and materialise. */
  lemma ProjectIsRun(env: Env, c: Sys, w: nat, rev: Revision) returns (events: seq<Event>, b: Sys)
    requires PhaseOf(c, w) == Pipeline.Phase.Claimed(Id(rev)) && Logged(c.store, rev)
    ensures IsRun(env, c, events, b) && PhaseOf(b, w) == Materialised(Id(rev), HeadRevision(c.store, rev.resultId))
    ensures b.store == Materialized(env, c.store, rev) && b.work == c.work
  {
    events, b := [], c;
    Runs.RunSnoc(env, c, events, b, Load(w));
    events, b := events + [Load(w)], Next(env, b, Load(w));
    Runs.RunSnoc(env, c, events, b, Materialise(w));
    events, b := events + [Materialise(w)], Next(env, b, Materialise(w));
  }

  /** Load, materialise and decide, with the out-of-order test read at once. */
  lemma DecideIsRun(env: Env, a: Sys, w: nat, rev: Revision) returns (events: seq<Event>, b: Sys)
    requires PhaseOf(a, w) == Pipeline.Phase.Claimed(Id(rev)) && Logged(a.store, rev)
    requires HeadAgrees(a.store, rev)
    ensures IsRun(env, a, events, b) && b.work == a.work && b.store == Materialized(env, a.store, rev)
    ensures PhaseOf(b, w) ==
            if !IsHead(a.store, rev) then Historic(Id(rev), false, 0)
            else if IsAbsorbed(env, rev) then Historic(Id(rev), true, 0)
            else Ready(Id(rev), rev.revision > 1 || OutOfOrder(env, b.store, rev))
  {
    events, b := ProjectIsRun(env, a, w, rev);
    Runs.RunSnoc(env, a, events, b, Decide(w));
    events, b := events + [Decide(w)], Next(env, b, Decide(w));
  }

  lemma HistoricIsRun(env: Env, start: Sys, before: seq<Event>, a: Sys, w: nat, rev: Revision, verdict: bool)
      returns (events: seq<Event>, b: Sys)
    requires IsRun(env, start, before, a) && PhaseOf(a, w) == Historic(Id(rev), verdict, 0)
    requires Logged(a.store, rev) && ProjectionsMatchLog(env, a.store) && Id(rev) in a.store.processed
    ensures IsRun(env, start, events, b) && b.work == a.work && b.store == Historical(env, a.store, rev)
    ensures PhaseOf(b, w) == Returned(Id(rev), verdict)
  {
    events, b := SaveLevels(env, start, before, a, w, rev, verdict, |RECORD_LEVELS|);
    HistoricalAll(env, a.store, rev);
    Runs.RunSnoc(env, start, events, b, Return(w));
    events, b := events + [Return(w)], Next(env, b, Return(w));
  }

  lemma CommitIsRun(env: Env, start: Sys, before: seq<Event>, a: Sys, w: nat, rev: Revision) returns (events: seq<Event>, b: Sys)
    requires IsRun(env, start, before, a) && PhaseOf(a, w).Ready? && PhaseOf(a, w).row == Id(rev)
    requires Logged(a.store, rev) && IsHead(a.store, rev)
    ensures IsRun(env, start, events, b) && b.work == a.work && b.store == Committed(env, a.store, rev, PhaseOf(a, w).repair)
    ensures PhaseOf(b, w) == Returned(Id(rev), true)
  {
    Runs.RunSnoc(env, start, before, a, Commit(w));
    events, b := before + [Commit(w)], Next(env, a, Commit(w));
  }

  /** Classifying a claimed revision with nobody in between is a run of the worker's steps. */
  lemma ClassifyIsRun(env: Env, a: Sys, w: nat, rev: Revision) returns (events: seq<Event>, b: Sys)
    requires PhaseOf(a, w) == Pipeline.Phase.Claimed(Id(rev)) && HeadAgrees(a.store, rev) && ProjectionsMatchLog(env, a.store)
    ensures IsRun(env, a, events, b)
    ensures b.store == Classified(env, a.store, rev) && b.work == a.work
    ensures PhaseOf(b, w) == Returned(Id(rev), IsHead(a.store, rev))
  {
    MaterializedKeepsProjections(env, a.store, rev);
    events, b := DecideIsRun(env, a, w, rev);
    if !IsHead(a.store, rev) || IsAbsorbed(env, rev) {
      events, b := HistoricIsRun(env, a, events, b, w, rev, IsHead(a.store, rev));
    } else {
      events, b := CommitIsRun(env, a, events, b, w, rev);
    }
  }

  /** `b` is `a` with the first `i` level rows of `rev` saved. */
  ghost predicate SavedUpTo(env: Env, a: Sys, b: Sys, w: nat, rev: Revision, verdict: bool, i: nat) {
    && PhaseOf(b, w) == Historic(Id(rev), verdict, i) && b.work == a.work
    && b.store == a.store.(levels := b.store.levels) && HistoricalUpTo(env, a.store, rev, i, b.store.levels)
  }

  lemma SaveIsStep(env: Env, b: Sys, w: nat, rev: Revision, verdict: bool, i: nat)
    requires PhaseOf(b, w) == Historic(Id(rev), verdict, i) && i < |RECORD_LEVELS| && Logged(b.store, rev)
    ensures Enabled(b, SaveLevel(w))
    ensures var d := Next(env, b, SaveLevel(w));
            && PhaseOf(d, w) == Historic(Id(rev), verdict, i + 1) && d.work == b.work
            && d.store == LevelSaved(env, b.store, rev, RECORD_LEVELS[i])
  {
  }

  lemma SavedNext(env: Env, s: Store, t: Store, rev: Revision, i: nat)
    requires t == s.(levels := t.levels) && i < |RECORD_LEVELS| && HistoricalUpTo(env, s, rev, i, t.levels)
    requires Logged(s, rev) && ProjectionsMatchLog(env, s) && Id(rev) in s.processed
    ensures var u := LevelSaved(env, t, rev, RECORD_LEVELS[i]);
            u == s.(levels := u.levels) && HistoricalUpTo(env, s, rev, i + 1, u.levels)
  {
    HistoricalStep(env, s, rev, i, t.levels);
    HistoricalFrame(env, s, t, rev, LevelId(Id(rev), RECORD_LEVELS[i]));
  }

  lemma SaveNext(env: Env, start: Sys, events: seq<Event>, a: Sys, b: Sys, w: nat, rev: Revision, verdict: bool, i: nat)
    requires i < |RECORD_LEVELS| && IsRun(env, start, events, b) && SavedUpTo(env, a, b, w, rev, verdict, i)
    requires Logged(a.store, rev) && ProjectionsMatchLog(env, a.store) && Id(rev) in a.store.processed
    ensures Enabled(b, SaveLevel(w)) && IsRun(env, start, events + [SaveLevel(w)], Next(env, b, SaveLevel(w)))
    ensures SavedUpTo(env, a, Next(env, b, SaveLevel(w)), w, rev, verdict, i + 1)
  {
    SaveIsStep(env, b, w, rev, verdict, i);
    SavedNext(env, a.store, b.store, rev, i);
    Runs.RunSnoc(env, start, events, b, SaveLevel(w));
  }

  /** Saving level rows one after another is the historical projection as far as it goes. */
  lemma {:induction false} SaveUpTo(env: Env, start: Sys, before: seq<Event>, a: Sys, w: nat, rev: Revision, verdict: bool, count: nat)
      returns (events: seq<Event>, b: Sys)
    requires IsRun(env, start, before, a) && PhaseOf(a, w) == Historic(Id(rev), verdict, 0) && count <= |RECORD_LEVELS|
    requires Logged(a.store, rev) && ProjectionsMatchLog(env, a.store) && Id(rev) in a.store.processed
    ensures IsRun(env, start, events, b) && SavedUpTo(env, a, b, w, rev, verdict, count)
    decreases count
  {
    events, b := before, a;
    if count > 0 {
      events, b := SaveUpTo(env, start, before, a, w, rev, verdict, count - 1);
      SaveNext(env, start, events, a, b, w, rev, verdict, count - 1);
      events, b := events + [SaveLevel(w)], Next(env, b, SaveLevel(w));
    }
  }

  lemma SaveLevels(env: Env, start: Sys, before: seq<Event>, a: Sys, w: nat, rev: Revision, verdict: bool, count: nat)
      returns (events: seq<Event>, b: Sys)
    requires IsRun(env, start, before, a) && PhaseOf(a, w) == Historic(Id(rev), verdict, 0) && count <= |RECORD_LEVELS|
    requires Logged(a.store, rev) && ProjectionsMatchLog(env, a.store) && Id(rev) in a.store.processed
    ensures IsRun(env, start, events, b) && PhaseOf(b, w) == Historic(Id(rev), verdict, count)
    ensures b.work == a.work && b.store == PartlyHistorical(env, a.store, rev, count)
  {
    events, b := SaveUpTo(env, start, before, a, w, rev, verdict, count);
    PartlySaved(env, a.store, rev, count, b.store.levels);
  }

  /** Where an attempt breaks off, if it does: a lost connection, a cancelled statement. What the attempt has
      committed by then stays; a transaction that breaks off leaves nothing of its own. The level rows of a stale or
      absorbed revision are saved one by one, so an attempt may break off between them. */
  datatype Fault = NoFault | BeforeProjection | AfterProjection | BetweenLevels(saved: nat) | BeforeSettling

  /** Stale or absorbed: history only. */
  ghost predicate IsHistory(env: Env, s: Store, rev: Revision) {
    !IsHead(s, rev) || IsAbsorbed(env, rev)
  }

  function SavedLevels(saved: nat): nat {
    if saved < |RECORD_LEVELS| then saved else |RECORD_LEVELS|
  }

  /** The tables with the projection and, for history, the first level rows saved. */
  ghost function PartlyClassified(env: Env, s: Store, rev: Revision, saved: nat): Store {
    if IsHistory(env, s, rev) then PartlyHistorical(env, Materialized(env, s, rev), rev, SavedLevels(saved))
    else Materialized(env, s, rev)
  }

  /** The tables an attempt leaves. */
  ghost function StoreAfter(env: Env, s: Store, rev: Revision, fault: Fault): Store {
    match fault
    case BeforeProjection => s
    case AfterProjection => Materialized(env, s, rev)
    case BetweenLevels(saved) => PartlyClassified(env, s, rev, saved)
    case _ => Classified(env, s, rev)
  }

  /** The queue an attempt leaves: settled with the verdict, or FAILED. */
  ghost function WorkAfter(q: Queue, row: RowId, w: nat, current: bool, fault: Fault): Queue {
    if fault.NoFault? then AfterSettle(q, row, w, current) else AfterFailure(q, row, w)
  }

  lemma PartIsRun(env: Env, c: Sys, w: nat, rev: Revision, saved: nat) returns (events: seq<Event>, b: Sys)
    requires PhaseOf(c, w) == Pipeline.Phase.Claimed(Id(rev)) && HeadAgrees(c.store, rev) && ProjectionsMatchLog(env, c.store)
    ensures IsRun(env, c, events, b) && !PhaseOf(b, w).Idle? && PhaseOf(b, w).row == Id(rev)
    ensures b.store == PartlyClassified(env, c.store, rev, saved) && b.work == c.work
  {
    ProjectedIsReady(env, c.store, rev);
    events, b := DecideIsRun(env, c, w, rev);
    if IsHistory(env, c.store, rev) {
      events, b := SaveLevels(env, c, events, b, w, rev, IsHead(c.store, rev), SavedLevels(saved));
    }
  }

  /** The steps of an attempt up to where it breaks off. */
  lemma AttemptIsRun(env: Env, c: Sys, w: nat, rev: Revision, fault: Fault) returns (events: seq<Event>, b: Sys)
    requires PhaseOf(c, w) == Pipeline.Phase.Claimed(Id(rev)) && HeadAgrees(c.store, rev) && ProjectionsMatchLog(env, c.store)
    ensures IsRun(env, c, events, b) && !PhaseOf(b, w).Idle? && PhaseOf(b, w).row == Id(rev)
    ensures b.store == StoreAfter(env, c.store, rev, fault) && b.work == c.work
    ensures fault.NoFault? ==> PhaseOf(b, w) == Returned(Id(rev), IsHead(c.store, rev))
  {
    if fault.BeforeProjection? {
      events, b := [], c;
    } else if fault.AfterProjection? {
      events, b := ProjectIsRun(env, c, w, rev);
    } else if fault.BetweenLevels? {
      events, b := PartIsRun(env, c, w, rev, fault.saved);
    } else {
      events, b := ClassifyIsRun(env, c, w, rev);
    }
  }

  /** One attempt at a claimed item: classified and settled, or broken off and recorded as FAILED. */
  lemma ProcessedIsRun(env: Env, c: Sys, w: nat, row: RowId, fault: Fault) returns (events: seq<Event>, b: Sys)
    requires PhaseOf(c, w) == Pipeline.Phase.Claimed(row) && row in c.work && ProjectionsMatchLog(env, c.store)
    requires row in c.store.log && Id(c.store.log[row]) == row && HeadAgrees(c.store, c.store.log[row])
    ensures IsRun(env, c, events, b) && PhaseOf(b, w).Idle?
    ensures b.store == StoreAfter(env, c.store, c.store.log[row], fault)
    ensures b.work == WorkAfter(c.work, row, w, IsHead(c.store, c.store.log[row]), fault)
  {
    var middle, d := AttemptIsRun(env, c, w, c.store.log[row], fault);
    var last := if fault.NoFault? then Settle(w) else Fail(w);
    Runs.RunSnoc(env, c, middle, d, last);
    events, b := middle + [last], Next(env, d, last);
  }

  /** A claimed item whose revision can be classified. */
  ghost predicate ReadyToProcess(env: Env, c: Sys, w: nat, row: RowId) {
    && PhaseOf(c, w) == Pipeline.Phase.Claimed(row) && row in c.work
    && row in c.store.log && Id(c.store.log[row]) == row && HeadAgrees(c.store, c.store.log[row])
    && LogKeysMatch(c.store) && ProjectionsMatchLog(env, c.store)
  }

  /** Whatever is claimed next is ready to be classified. */
  ghost predicate AllReady(env: Env, a: Sys, w: nat) {
    forall row, now, lease :: Claimable(a.work, row, now) ==> ReadyToProcess(env, ClaimStep(a, w, row, now, lease), w, row)
  }

  function ClaimStep(a: Sys, w: nat, row: RowId, now: int, lease: int): Sys
    requires row in a.work
  {
    At(a, w, Pipeline.Phase.Claimed(row)).(work := a.work[row := Leased(a.work[row], w, now, lease)])
  }

  lemma QueueIsReady(env: Env, a: Sys, w: nat)
    requires QueueInv(env, a) && PhaseOf(a, w).Idle?
    ensures AllReady(env, a, w)
  {
    NumberedHeads(a.store);
    forall row, now, lease | Claimable(a.work, row, now)
      ensures ReadyToProcess(env, ClaimStep(a, w, row, now, lease), w, row)
    {
      RowLogged(a, row);
    }
  }

  // -------- The loop --------

  lemma RunIsReady(env: Env, a: Sys, events: seq<Event>, b: Sys, w: nat)
    requires QueueInv(env, a) && IsRun(env, a, events, b) && PhaseOf(b, w).Idle?
    ensures AllReady(env, b, w)
  {
    RunKeepsQueue(env, a, events, b);
    QueueIsReady(env, b, w);
  }

  /** The first of some items in queue order. */
  method FirstOf(q: Queue, ids: set<RowId>) returns (first: RowId)
    requires PksDiffer(q) && ids != {} && ids <= q.Keys
    ensures first in ids && forall k :: k in ids && k != first ==> ComesFirst(q, first, k)
  {
    first :| first in ids;
    var pending := ids - {first};
    while pending != {}
      invariant pending < ids && first in ids - pending
      invariant forall k :: k in ids && k !in pending && k != first ==> ComesFirst(q, first, k)
      decreases pending
    {
      var k :| k in pending;
      if ComesFirst(q, k, first) {
        first := k;
      }
      pending := pending - {k};
    }
  }

  class Worker {
    const classifier: Classifier
    const name: nat
    /** An installed baseline export is active. */
    var baselineActive: bool
    var work: Queue

    constructor (classifier: Classifier, name: nat, baselineActive: bool, work: Queue)
      ensures this.classifier == classifier && this.name == name && this.baselineActive == baselineActive && this.work == work
    {
      this.classifier := classifier;
      this.name := name;
      this.baselineActive := baselineActive;
      this.work := work;
    }

    /** The tables are those of `a`, and this worker is between items there. */
    ghost predicate Shows(a: Sys)
      reads this, classifier
    {
      a.store == classifier.State() && a.work == work && PhaseOf(a, name).Idle?
    }

    /** Claim the first ready item in queue order, whose earlier revisions are all settled; nothing without a baseline. */
    method ClaimNext(now: int, lease: int) returns (row: Option<RowId>)
      requires PksDiffer(work)
      modifies this`work
      ensures row.None? ==> work == old(work) && (baselineActive ==> forall k :: !Claimable(work, k, now))
      ensures row.Some? ==> baselineActive
      ensures row.Some? ==> Claimable(old(work), row.value, now) && work == old(work)[row.value := Leased(old(work)[row.value], name, now, lease)]
      ensures row.Some? ==> forall k :: Claimable(old(work), k, now) && k != row.value ==> ComesFirst(old(work), row.value, k)
    {
      if !baselineActive {
        return None;
      }
      var ready := set k | k in work && Claimable(work, k, now);
      if ready == {} {
        assert forall k :: Claimable(work, k, now) ==> k in ready;
        return None;
      }
      var first := FirstOf(work, ready);
      assert forall k :: Claimable(work, k, now) ==> k in ready;
      var x := work[first];
      work := work[first := x.(status := Processing, attempts := x.attempts + 1, claimedBy := Some(name),
                               expires := Some(now + if lease < MIN_LEASE then MIN_LEASE else lease))];
      return Some(first);
    }

    /** Settle a classified item if this worker still holds it. */
    method SettleClaim(row: RowId, current: bool) returns (settled: bool)
      modifies this`work
      ensures work == AfterSettle(old(work), row, name, current)
      ensures settled <==> row in old(work) && old(work)[row].status == Processing && HeldBy(old(work), row, name)
    {
      if row !in work || work[row].status != Processing || work[row].claimedBy != Some(name) {
        return false;
      }
      work := work[row := work[row].(status := if current then Completed else Stale, claimedBy := None, expires := None)];
      return true;
    }

    /** Record a failed attempt if this worker is still named on the row. */
    method FailClaim(row: RowId)
      modifies this`work
      ensures work == AfterFailure(old(work), row, name)
    {
      if row in work && work[row].claimedBy == Some(name) {
        work := work[row := work[row].(status := Failed, claimedBy := None, expires := None)];
      }
    }

    /** Project a revision and, if it is history, save some of its level rows. */
    method SaveSome(rev: Revision, saved: nat)
      requires LogKeysMatch(classifier.State()) && ProjectionsMatchLog(classifier.env, classifier.State())
      requires HeadAgrees(classifier.State(), rev)
      modifies classifier`processed, classifier`levels, classifier`live
      ensures classifier.State() == PartlyClassified(classifier.env, old(classifier.State()), rev, saved)
    {
      ProjectedIsReady(classifier.env, classifier.State(), rev);
      classifier.Materialize(rev);
      if classifier.heads[rev.resultId].revision > rev.revision || IsAbsorbed(classifier.env, rev) {
        classifier.SaveHistorical(rev, SavedLevels(saved));
      }
    }

    /** Classify a claimed revision and settle its item; an attempt that breaks off is recorded as FAILED and does not
        count as settled. */
    method ProcessClaimed(row: RowId, fault: Fault, ghost c: Sys) returns (settled: bool, ghost events: seq<Event>, ghost b: Sys)
      requires c.store == classifier.State() && c.work == work
      requires ReadyToProcess(classifier.env, c, name, row)
      modifies this`work, classifier`processed, classifier`levels, classifier`live
      ensures Shows(b) && IsRun(classifier.env, c, events, b)
      ensures work == WorkAfter(old(work), row, name, IsHead(c.store, c.store.log[row]), fault)
      ensures settled <==> fault.NoFault? && HeldBy(old(work), row, name) && old(work)[row].status == Processing
    {
      events, b := ProcessedIsRun(classifier.env, c, name, row, fault);
      settled := false;
      match fault {
        case BeforeProjection =>
          FailClaim(row);
        case AfterProjection =>
          classifier.Materialize(classifier.log[row]);
          FailClaim(row);
        case BetweenLevels(saved) =>
          SaveSome(classifier.log[row], saved);
          FailClaim(row);
        case BeforeSettling =>
          var _ := classifier.ClassifyRevision(classifier.log[row]);
          FailClaim(row);
        case NoFault =>
          var current := classifier.ClassifyRevision(classifier.log[row]);
          settled := SettleClaim(row, current);
      }
    }

    /** Claim and attempt one item; nothing is found when none is ready. */
    method ProcessOne(now: int, lease: int, fault: Fault, ghost a: Sys)
      returns (found: bool, settled: bool, ghost events: seq<Event>, ghost b: Sys)
      requires Shows(a) && PksDiffer(work) && AllReady(classifier.env, a, name)
      modifies this`work, classifier`processed, classifier`levels, classifier`live
      ensures Shows(b) && PksDiffer(work) && IsRun(classifier.env, a, events, b)
      ensures !found ==> (baselineActive ==> forall k :: !Claimable(work, k, now))
      ensures found ==> baselineActive
      ensures settled <==> found && fault.NoFault?
    {
      events, b, settled := [], a, false;
      var row := ClaimNext(now, lease);
      found := row.Some?;
      if found {
        ghost var claim := Claim(name, row.value, now, lease);
        ghost var c := ClaimStep(a, name, row.value, now, lease);
        assert c == Next(classifier.env, a, claim);
        settled, events, b := ProcessClaimed(row.value, fault, c);
        Runs.OneStep(classifier.env, a, claim);
        Runs.RunConcat(classifier.env, a, [claim], c, events, b);
        events := [claim] + events;
      }
    }

    /** One more attempt after a run so far. */
    method ProcessNext(now: int, lease: int, fault: Fault, ghost start: Sys, ghost before: seq<Event>, ghost a: Sys)
      returns (found: bool, settled: bool, ghost events: seq<Event>, ghost b: Sys)
      requires Shows(a) && PksDiffer(work) && QueueInv(classifier.env, start) && IsRun(classifier.env, start, before, a)
      modifies this`work, classifier`processed, classifier`levels, classifier`live
      ensures Shows(b) && PksDiffer(work) && IsRun(classifier.env, start, events, b)
      ensures !found ==> (baselineActive ==> forall k :: !Claimable(work, k, now))
      ensures found ==> baselineActive
      ensures settled <==> found && fault.NoFault?
    {
      RunIsReady(classifier.env, start, before, a, name);
      found, settled, events, b := ProcessOne(now, lease, fault, a);
      Runs.RunConcat(classifier.env, start, before, a, events, b);
      events := before + events;
    }

    /** Attempt ready items up to the limit, at least one if any is ready, counting those that settle. */
    method ProcessReadyWork(limit: int, clock: nat -> int, lease: int, faults: nat -> Fault, ghost a: Sys)
      returns (processed: nat, attempts: nat, ghost events: seq<Event>, ghost b: Sys)
      requires Shows(a) && QueueInv(classifier.env, a) && PksDiffer(work)
      modifies this`work, classifier`processed, classifier`levels, classifier`live
      ensures Shows(b) && IsRun(classifier.env, a, events, b)
      ensures attempts <= Bound(limit) && processed == Unbroken(faults, attempts)
      ensures attempts < Bound(limit) && baselineActive ==> forall k :: !Claimable(work, k, clock(attempts))
      ensures !baselineActive ==> attempts == 0
    {
      processed, attempts, events, b := 0, 0, [], a;
      while attempts < Bound(limit)
        invariant attempts <= Bound(limit) && processed == Unbroken(faults, attempts)
        invariant Shows(b) && PksDiffer(work) && IsRun(classifier.env, a, events, b)
        invariant !baselineActive ==> attempts == 0
        decreases Bound(limit) - attempts
      {
        var found, settled;
        found, settled, events, b := ProcessNext(clock(attempts), lease, faults(attempts), a, events, b);
        if !found {
          return;
        }
        attempts := attempts + 1;
        if settled {
          processed := processed + 1;
        }
      }
    }
  }

  function Bound(limit: int): nat {
    if limit < 1 then 1 else limit
  }

  /** How many of the first `n` attempts do not break off. */
  function Unbroken(faults: nat -> Fault, n: nat): (count: nat)
    ensures count <= n
  {
    if n == 0 then 0 else Unbroken(faults, n - 1) + if faults(n - 1).NoFault? then 1 else 0
  }
}
