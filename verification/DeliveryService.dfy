/** The push worker over mutable tables, proved to take exactly the steps Delivery describes. */
module DeliveryService {
  import opened RecordDomain
  import opened Delivery

  /** Queue order: creation time, then row id. */
  predicate ComesFirst(ds: Deliveries, i: nat, j: nat)
    requires i in ds && j in ds
  {
    ds[i].created < ds[j].created || (ds[i].created == ds[j].created && i < j)
  }

  method EarliestOf(ds: Deliveries, ids: set<nat>) returns (first: nat)
    requires ids != {} && ids <= ds.Keys
    ensures first in ids && forall j :: j in ids && j != first ==> ComesFirst(ds, first, j)
  {
    first :| first in ids;
    var pending := ids - {first};
    while pending != {}
      invariant pending < ids && first in ids - pending
      invariant forall j :: j in ids && j !in pending && j != first ==> ComesFirst(ds, first, j)
      decreases pending
    {
      var k :| k in pending;
      if ComesFirst(ds, k, first) {
        first := k;
      }
      pending := pending - {k};
    }
  }

  /** What one claimed delivery becomes once the provider has answered. */
  function Processed(t: Tables, id: nat, maxAttempts: int, result: SendResult, now: int, delay: int): Tables
    requires id in t.deliveries ==> t.deliveries[id].endpoint in t.endpoints
  {
    if id !in t.deliveries || t.deliveries[id].status != Processing then t
    else if !t.endpoints[t.deliveries[id].endpoint].active then t.(deliveries := CancelledIfClaimed(t.deliveries, id))
    else Recorded(t, id, maxAttempts, result, now, delay)
  }

  predicate IsDueFor(d: Delivery, provider: nat, now: int, cutoff: int) {
    d.provider == provider && IsDue(d, now, cutoff)
  }

  class DeliveryQueue {
    var deliveries: Deliveries
    var endpoints: Endpoints
    const provider: nat
    var maxAttempts: int

    constructor (provider: nat, maxAttempts: int)
      ensures Valid() && State() == Tables(map[], map[]) && this.provider == provider && this.maxAttempts == maxAttempts
    {
      this.provider := provider;
      this.maxAttempts := maxAttempts;
      deliveries, endpoints := map[], map[];
    }

    function State(): Tables
      reads this
    {
      Tables(deliveries, endpoints)
    }

    ghost predicate Valid()
      reads this
    {
      forall id :: id in deliveries ==> deliveries[id].endpoint in endpoints
    }

    /** Claim the first due deliveries of the configured provider in queue order, at most `batchSize` of them. */
    method ClaimDueDeliveries(batchSize: nat, worker: nat, now: int, cutoff: int) returns (ids: seq<nat>)
      modifies this`deliveries
      ensures NoRepeats(ids) && |ids| <= batchSize
      ensures forall id :: id in ids ==> id in old(deliveries) && IsDueFor(old(deliveries)[id], provider, now, cutoff)
      ensures forall id, j :: id in ids && j in old(deliveries) && j !in ids && IsDueFor(old(deliveries)[j], provider, now, cutoff) ==>
                ComesFirst(old(deliveries), id, j)
      ensures |ids| < batchSize ==> forall j :: j in old(deliveries) && IsDueFor(old(deliveries)[j], provider, now, cutoff) ==> j in ids
      ensures deliveries == ClaimedAll(old(deliveries), (set id | id in ids), worker, now)
    {
      var due := set id | id in deliveries && IsDueFor(deliveries[id], provider, now, cutoff);
      ids := [];
      var pending := due;
      while pending != {} && |ids| < batchSize
        invariant pending <= due && |ids| <= batchSize && NoRepeats(ids)
        invariant forall id :: id in ids <==> id in due && id !in pending
        invariant deliveries == old(deliveries)
        invariant forall id, j :: id in ids && j in pending ==> ComesFirst(deliveries, id, j)
        decreases pending
      {
        var first := EarliestOf(deliveries, pending);
        ids := ids + [first];
        pending := pending - {first};
      }
      deliveries := map id | id in deliveries :: if id in ids then
        deliveries[id].(status := Processing, attempts := deliveries[id].attempts + 1, lastAt := Some(now), claimedBy := Some(worker))
        else deliveries[id];
    }

    method ScheduleRetry(id: nat, result: SendResult, now: int, delay: int)
      requires id in deliveries
      modifies this`deliveries
      ensures deliveries == old(deliveries)[id := Rescheduled(old(deliveries)[id], maxAttempts, result, now, delay)]
    {
      var d := deliveries[id].(claimedBy := None);
      if d.attempts >= maxAttempts {
        d := d.(status := PermanentlyFailed, nextAt := None);
      } else {
        d := d.(status := Retry, nextAt := if result.retryAt.Some? then result.retryAt else Some(now + delay));
      }
      deliveries := deliveries[id := d];
    }

    method RecordDeliveryResult(id: nat, result: SendResult, now: int, delay: int)
      requires Valid() && id in deliveries
      modifies this`deliveries, this`endpoints
      ensures State() == Recorded(old(State()), id, maxAttempts, result, now, delay)
      ensures Valid() && deliveries[id].status != Processing
    {
      var d := deliveries[id];
      if d.status != Processing {
        return;
      }
      var e := endpoints[d.endpoint];
      if result.outcome == Success {
        deliveries := deliveries[id := d.(status := Sent, nextAt := None, claimedBy := None)];
        endpoints := endpoints[d.endpoint := e.(failures := 0)];
        return;
      }
      endpoints := endpoints[d.endpoint := e.(failures := e.failures + 1)];
      if result.outcome == PermanentEndpointFailure {
        endpoints := endpoints[d.endpoint := endpoints[d.endpoint].(active := false)];
        deliveries := map i | i in deliveries :: if deliveries[i].endpoint == d.endpoint && IsOpen(deliveries[i].status)
                        then deliveries[i].(status := PermanentlyFailed, nextAt := None, claimedBy := None) else deliveries[i];
        return;
      }
      ScheduleRetry(id, result, now, delay);
    }

    /** Send one claimed delivery, unless it is gone, settled, or its endpoint is inactive. */
    method ProcessClaimedDelivery(id: nat, result: SendResult, now: int, delay: int)
      requires Valid()
      modifies this`deliveries, this`endpoints
      ensures State() == Processed(old(State()), id, maxAttempts, result, now, delay)
      ensures Valid() && (id in deliveries ==> deliveries[id].status != Processing)
    {
      if id !in deliveries || deliveries[id].status != Processing {
        return;
      }
      if !endpoints[deliveries[id].endpoint].active {
        deliveries := deliveries[id := deliveries[id].(status := Cancelled, nextAt := None, claimedBy := None)];
        return;
      }
      RecordDeliveryResult(id, result, now, delay);
    }

    /** Give unprocessed claims back, uncounted. */
    method ReleaseClaimedDeliveries(ids: seq<nat>, worker: nat, now: int) returns (released: nat)
      modifies this`deliveries
      ensures deliveries == Released(old(deliveries), ids, worker, now)
      ensures released == |set id | id in old(deliveries) && id in ids && Releasable(old(deliveries), id, worker)|
    {
      var mine := set id | id in deliveries && id in ids && Releasable(deliveries, id, worker);
      deliveries := map id | id in deliveries :: if id in mine
                      then deliveries[id].(status := Retry, attempts := deliveries[id].attempts - 1, nextAt := Some(now), lastAt := None, claimedBy := None)
                      else deliveries[id];
      return |mine|;
    }

    /** One batch with no other worker in between; `answers` is what the provider returns for each delivery
        and `stop` whether the worker is asked to stop before each one. */
    method ProcessDueBatch(batchSize: nat, worker: nat, now: int, cutoff: int, delay: int,
                           answers: nat -> SendResult, stop: nat -> bool)
      returns (processed: nat, ids: seq<nat>)
      requires Valid()
      modifies this`deliveries, this`endpoints
      ensures Valid() && processed <= |ids| <= batchSize && NoRepeats(ids)
      ensures deliveries.Keys == old(deliveries.Keys)
      ensures forall id :: id in ids ==> id in deliveries && deliveries[id].status != Processing
      ensures processed < |ids| ==> stop(processed)
      ensures forall i :: 0 <= i < processed ==> !stop(i)
      ensures BatchDone(old(deliveries), deliveries, ids, processed, now)
    {
      ghost var before := deliveries;
      ids := ClaimDueDeliveries(batchSize, worker, now, cutoff);
      BatchBegins(before, deliveries, ids, worker, now);
      processed := RunBatch(ids, worker, now, delay, answers, stop, before);
      NoneLeftProcessing(before, deliveries, ids, processed, now);
    }

    method RunBatch(ids: seq<nat>, worker: nat, now: int, delay: int, answers: nat -> SendResult, stop: nat -> bool,
                    ghost before: Deliveries)
      returns (processed: nat)
      requires Valid() && BatchUpTo(before, deliveries, ids, 0, worker, now)
      modifies this`deliveries, this`endpoints
      ensures Valid() && processed <= |ids| && BatchDone(before, deliveries, ids, processed, now)
      ensures processed < |ids| ==> stop(processed)
      ensures forall i :: 0 <= i < processed ==> !stop(i)
    {
      processed := 0;
      while processed < |ids| && !stop(processed)
        invariant processed <= |ids| && Valid()
        invariant forall i :: 0 <= i < processed ==> !stop(i)
        invariant BatchUpTo(before, deliveries, ids, processed, worker, now)
        decreases |ids| - processed
      {
        ProcessNext(ids, processed, answers(ids[processed]), worker, now, delay, before);
        processed := processed + 1;
      }
      ReleaseRest(ids, processed, worker, now, before);
    }

    method ProcessNext(ids: seq<nat>, n: nat, answer: SendResult, worker: nat, now: int, delay: int, ghost before: Deliveries)
      requires Valid() && n < |ids| && BatchUpTo(before, deliveries, ids, n, worker, now)
      modifies this`deliveries, this`endpoints
      ensures Valid() && BatchUpTo(before, deliveries, ids, n + 1, worker, now)
    {
      ghost var t := State();
      NextIsKnown(before, deliveries, ids, n, worker, now);
      ProcessClaimedDelivery(ids[n], answer, now, delay);
      BatchStep(before, t, State(), ids, n, worker, maxAttempts, answer, now, delay);
    }

    method ReleaseRest(ids: seq<nat>, processed: nat, worker: nat, now: int, ghost before: Deliveries)
      requires Valid() && processed <= |ids| && BatchUpTo(before, deliveries, ids, processed, worker, now)
      modifies this`deliveries
      ensures Valid() && BatchDone(before, deliveries, ids, processed, now)
    {
      BatchReleased(before, deliveries, Released(deliveries, ids[processed..], worker, now), ids, processed, worker, now);
      if processed < |ids| {
        var _ := ReleaseClaimedDeliveries(ids[processed..], worker, now);
      } else {
        NothingReleased(deliveries, ids[processed..], worker, now);
      }
    }
  }

  lemma BatchBegins(before: Deliveries, after: Deliveries, ids: seq<nat>, worker: nat, now: int)
    requires NoRepeats(ids) && (forall id :: id in ids ==> id in before)
    requires after == ClaimedAll(before, (set id | id in ids), worker, now)
    ensures BatchUpTo(before, after, ids, 0, worker, now)
  {
  }

  lemma NextIsKnown(before: Deliveries, after: Deliveries, ids: seq<nat>, n: nat, worker: nat, now: int)
    requires BatchUpTo(before, after, ids, n, worker, now) && n < |ids|
    ensures ids[n] in after
  {
    assert ids[n] in ids;
  }

  lemma NothingReleased(ds: Deliveries, ids: seq<nat>, worker: nat, now: int)
    requires ids == []
    ensures Released(ds, ids, worker, now) == ds
  {
  }

  lemma NoneLeftProcessing(before: Deliveries, after: Deliveries, ids: seq<nat>, processed: nat, now: int)
    requires BatchDone(before, after, ids, processed, now)
    ensures forall id :: id in ids ==> id in after && after[id].status != Processing
  {
    forall id | id in ids
      ensures id in after && after[id].status != Processing
    {
      assert Ended(before[id], after[id], id in ids[..processed], id in ids, now);
    }
  }

  /** Sent, failed, cancelled, or waiting for its next attempt, with this attempt counted. */
  predicate Handled(before: Delivery, after: Delivery) {
    (IsFinal(after.status) || after.status == Retry) && after.attempts == before.attempts + 1
  }

  /** Back in the queue with the claim uncounted, or failed along with its endpoint. */
  predicate GivenBack(before: Delivery, after: Delivery, now: int) {
    || (after.status == Retry && after.attempts == before.attempts && after.nextAt == Some(now))
    || (after.status == PermanentlyFailed && after.attempts == before.attempts + 1)
  }

  /** Unchanged, or failed along with its endpoint. */
  predicate Spared(before: Delivery, after: Delivery) {
    after == before || (IsOpen(before.status) && after == before.(status := PermanentlyFailed, nextAt := None, claimedBy := None))
  }

  /** One delivery while a batch runs: handled, still leased, or not part of it. */
  predicate Underway(before: Delivery, after: Delivery, done: bool, claimed: bool, worker: nat, now: int) {
    if done then Handled(before, after)
    else if claimed then Spared(Leased(before, worker, now), after)
    else Spared(before, after)
  }

  /** One delivery after a batch: handled, given back, or not part of it. */
  predicate Ended(before: Delivery, after: Delivery, done: bool, claimed: bool, now: int) {
    if done then Handled(before, after)
    else if claimed then GivenBack(before, after, now)
    else Spared(before, after)
  }

  /** The first `n` claims have been handled, the others are still leased, the rest of the table is spared. */
  ghost predicate BatchUpTo(before: Deliveries, after: Deliveries, ids: seq<nat>, n: nat, worker: nat, now: int) {
    && NoRepeats(ids) && n <= |ids| && after.Keys == before.Keys
    && (forall id :: id in ids ==> id in before)
    && (forall id :: id in before ==> Underway(before[id], after[id], id in ids[..n], id in ids, worker, now))
  }

  /** Every claim was handled or given back. */
  ghost predicate BatchDone(before: Deliveries, after: Deliveries, ids: seq<nat>, processed: nat, now: int) {
    && after.Keys == before.Keys && processed <= |ids|
    && (forall id :: id in ids ==> id in before)
    && (forall id :: id in before ==> Ended(before[id], after[id], id in ids[..processed], id in ids, now))
  }

  lemma ProcessedOne(t: Tables, id: nat, maxAttempts: int, result: SendResult, now: int, delay: int, d: Delivery)
    requires id in t.deliveries && t.deliveries[id].endpoint in t.endpoints
    requires d.status == Processing && Spared(d, t.deliveries[id])
    ensures var after := Processed(t, id, maxAttempts, result, now, delay).deliveries;
            && after.Keys == t.deliveries.Keys
            && after[id].attempts == d.attempts && (IsFinal(after[id].status) || after[id].status == Retry)
            && forall j :: j in t.deliveries && j != id ==> Spared(t.deliveries[j], after[j])
  {
  }

  lemma PrefixStep(ids: seq<nat>, n: nat, id: nat)
    requires NoRepeats(ids) && n < |ids|
    ensures id in ids[..n + 1] <==> id == ids[n] || id in ids[..n]
    ensures ids[n] !in ids[..n] && ids[n] in ids
    ensures id in ids[n..] <==> id in ids && id !in ids[..n]
  {
    assert ids[..n + 1] == ids[..n] + [ids[n]];
    assert ids == ids[..n] + ids[n..];
    assert forall j :: 0 <= j < |ids[n..]| ==> ids[n..][j] == ids[n + j];
  }

  lemma BatchStep(before: Deliveries, t: Tables, u: Tables, ids: seq<nat>, n: nat, worker: nat,
                  maxAttempts: int, result: SendResult, now: int, delay: int)
    requires n < |ids| && BatchUpTo(before, t.deliveries, ids, n, worker, now)
    requires ids[n] in t.deliveries && t.deliveries[ids[n]].endpoint in t.endpoints
    requires u == Processed(t, ids[n], maxAttempts, result, now, delay)
    ensures BatchUpTo(before, u.deliveries, ids, n + 1, worker, now)
  {
    PrefixStep(ids, n, ids[n]);
    ProcessedOne(t, ids[n], maxAttempts, result, now, delay, Leased(before[ids[n]], worker, now));
    forall id | id in before
      ensures Underway(before[id], u.deliveries[id], id in ids[..n + 1], id in ids, worker, now)
    {
      PrefixStep(ids, n, id);
      assert Underway(before[id], t.deliveries[id], id in ids[..n], id in ids, worker, now);
    }
  }

  lemma BatchReleased(before: Deliveries, middle: Deliveries, after: Deliveries, ids: seq<nat>, n: nat, worker: nat, now: int)
    requires BatchUpTo(before, middle, ids, n, worker, now) && after == Released(middle, ids[n..], worker, now)
    ensures BatchDone(before, after, ids, n, now)
  {
    forall id | id in before
      ensures Ended(before[id], after[id], id in ids[..n], id in ids, now)
    {
      assert Underway(before[id], middle[id], id in ids[..n], id in ids, worker, now);
      if n < |ids| {
        PrefixStep(ids, n, id);
      } else {
        assert ids[..n] == ids && ids[n..] == [];
      }
    }
  }
}
