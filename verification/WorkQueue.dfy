/** The leased, per-result ordered queue of classification work: what one claim, settlement or
    failure does to it, and how its items stay ordered. */
module WorkQueue {
  import opened RecordDomain

  datatype WorkStatus = Pending | Processing | Completed | Failed | Stale

  /** One work item. `claimedBy` and `expires` are NULL when nobody holds a lease. */
  datatype Work = Work(status: WorkStatus, attempts: nat, claimedBy: Option<nat>, expires: Option<int>,
                       created: int, pk: nat)
  type Queue = map<RowId, Work>

  const MIN_LEASE := 30

  predicate Unsettled(x: Work) {
    x.status == WorkStatus.Pending || x.status == Processing || x.status == Failed
  }

  predicate HasUnsettledEarlier(q: Queue, k: RowId) {
    exists j :: j in q && j.result == k.result && j.revision < k.revision && Unsettled(q[j])
  }

  predicate Claimable(q: Queue, k: RowId, now: int) {
    && k in q
    && !HasUnsettledEarlier(q, k)
    && (q[k].status == WorkStatus.Pending || q[k].status == Failed
        || (q[k].status == Processing && q[k].expires.Some? && q[k].expires.value < now))
  }

  /** Queue order: creation time, then row id. */
  predicate ComesFirst(q: Queue, i: RowId, j: RowId)
    requires i in q && j in q
  {
    q[i].created < q[j].created || (q[i].created == q[j].created && q[i].pk < q[j].pk)
  }

  function Fresh(created: int, pk: nat): Work {
    Work(WorkStatus.Pending, 0, None, None, created, pk)
  }

  function Leased(x: Work, worker: nat, now: int, lease: int): Work {
    x.(status := Processing, attempts := x.attempts + 1, claimedBy := Some(worker),
       expires := Some(now + if lease < MIN_LEASE then MIN_LEASE else lease))
  }

  predicate HeldBy(q: Queue, k: RowId, worker: nat) {
    k in q && q[k].claimedBy == Some(worker)
  }

  function Settled(x: Work, current: bool): Work {
    x.(status := if current then Completed else Stale, claimedBy := None, expires := None)
  }

  function AfterSettle(q: Queue, k: RowId, worker: nat, current: bool): Queue {
    if HeldBy(q, k, worker) && q[k].status == Processing then q[k := Settled(q[k], current)] else q
  }

  /** A failed attempt is only recorded by the worker still named on the row. */
  function AfterFailure(q: Queue, k: RowId, worker: nat): Queue {
    if HeldBy(q, k, worker) then q[k := q[k].(status := Failed, claimedBy := None, expires := None)] else q
  }

  // -------- Order of the items of one result --------

  /** Only an item being processed carries a worker, and only an unclaimed one has no attempts. */
  ghost predicate LeasesMatch(q: Queue) {
    forall k :: k in q ==>
      && (q[k].claimedBy.Some? <==> q[k].status == Processing)
      && (q[k].expires.Some? <==> q[k].status == Processing)
      && (q[k].attempts == 0 <==> q[k].status == WorkStatus.Pending)
  }

  /** Nothing has been attempted past an unsettled item of the same result. */
  ghost predicate InOrder(q: Queue) {
    forall j, k :: j in q && k in q && j.result == k.result && j.revision < k.revision && Unsettled(q[j]) ==>
      q[k].attempts == 0
  }

  ghost predicate Disciplined(q: Queue) {
    LeasesMatch(q) && InOrder(q)
  }

  lemma ClaimKeepsOrder(q: Queue, k: RowId, worker: nat, now: int, lease: int)
    requires Disciplined(q) && Claimable(q, k, now)
    ensures Disciplined(q[k := Leased(q[k], worker, now, lease)])
  {
    assert forall j :: j in q && j.result == k.result && j.revision < k.revision ==> !Unsettled(q[j]);
  }

  lemma SettleKeepsOrder(q: Queue, k: RowId, worker: nat, current: bool)
    requires Disciplined(q)
    ensures Disciplined(AfterSettle(q, k, worker, current))
  {
  }

  lemma FailKeepsOrder(q: Queue, k: RowId, worker: nat)
    requires Disciplined(q)
    ensures Disciplined(AfterFailure(q, k, worker))
  {
  }

  /** A work item is enqueued for the revision after every revision its result already has. */
  lemma EnqueueKeepsOrder(q: Queue, k: RowId, x: Work)
    requires Disciplined(q) && k !in q && x == Fresh(x.created, x.pk)
    requires forall j :: j in q && j.result == k.result ==> j.revision < k.revision
    ensures Disciplined(q[k := x])
  {
  }

  /** The first `settled` items of a result are settled, the next may have been attempted, and the
      rest are untouched. */
  ghost predicate SettledPrefix(q: Queue, result: nat, head: nat, settled: nat) {
    && settled <= head
    && (forall n: nat {:trigger RowId(result, n)} :: 1 <= n <= head ==> RowId(result, n) in q)
    && (forall n: nat {:trigger RowId(result, n)} :: 1 <= n <= settled ==> !Unsettled(q[RowId(result, n)]))
    && (settled < head ==> Unsettled(q[RowId(result, settled + 1)]))
    && (forall n: nat {:trigger RowId(result, n)} :: settled + 1 < n <= head ==>
          q[RowId(result, n)] == Fresh(q[RowId(result, n)].created, q[RowId(result, n)].pk))
  }

  /** In a disciplined queue every result's items are a settled prefix, then at most one item ever
      attempted and not settled, then untouched pending ones. */
  lemma {:induction false} ItemsAreSettledPrefix(q: Queue, result: nat, head: nat) returns (settled: nat)
    requires Disciplined(q)
    requires forall n: nat {:trigger RowId(result, n)} :: 1 <= n <= head ==> RowId(result, n) in q
    ensures SettledPrefix(q, result, head, settled)
  {
    settled := 0;
    while settled < head && !Unsettled(q[RowId(result, settled + 1)])
      invariant settled <= head
      invariant forall n: nat {:trigger RowId(result, n)} :: 1 <= n <= settled ==> !Unsettled(q[RowId(result, n)])
    {
      settled := settled + 1;
    }
    if settled < head {
      forall n: nat {:trigger RowId(result, n)} | settled + 1 < n <= head
        ensures q[RowId(result, n)] == Fresh(q[RowId(result, n)].created, q[RowId(result, n)].pk)
      {
        assert RowId(result, settled + 1).revision < RowId(result, n).revision;
      }
    }
  }
}
