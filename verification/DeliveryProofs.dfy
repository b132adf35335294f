/** Safety of the delivery queue over every run of any number of workers. */
module DeliveryProofs {
  import opened RecordDomain
  import opened Delivery

  /** The most attempts a delivery gets before it is given up, timeouts aside: at least one. */
  function Cap(maxAttempts: int): int {
    if maxAttempts < 1 then 1 else maxAttempts
  }

  /** Attempts are claims less releases; they exceed the cap only by claims of timed-out leases. */
  ghost predicate Accounted(maxAttempts: int, d: Delivery, h: History) {
    && d.attempts == h.claims - h.releases && d.attempts >= 0
    && (d.status == DeliveryStatus.Processing ==> d.attempts >= 1)
    && d.attempts <= Cap(maxAttempts) + h.timeouts
    && (d.status == DeliveryStatus.Pending || d.status == Retry ==> d.attempts < Cap(maxAttempts) + h.timeouts)
  }

  ghost predicate LedgerInv(maxAttempts: int, a: Sys) {
    && (forall id :: id in a.tables.deliveries ==> Accounted(maxAttempts, a.tables.deliveries[id], HistoryOf(a, id)))
    && (forall id :: id in a.history ==> id in a.tables.deliveries)
  }

  predicate HeldBy(d: Delivery, worker: nat) {
    d.status == Processing && d.claimedBy == Some(worker)
  }

  /** What a worker has claimed in its batch and not yet dealt with. */
  function Remaining(p: Phase): seq<nat> {
    match p
    case Idle => []
    case Batch(rest) => rest
    case Cancelling(id, rest) => [id] + rest
    case Sending(id, rest, _) => [id] + rest
  }

  /** A worker that never crashed holds only what is left of its batch. */
  ghost predicate HoldsOnlyBatch(a: Sys, worker: nat) {
    worker !in a.crashed ==>
      forall id :: id in a.tables.deliveries && HeldBy(a.tables.deliveries[id], worker) ==> id in Remaining(PhaseOf(a, worker))
  }

  ghost predicate EndpointsKnown(a: Sys) {
    forall id :: id in a.tables.deliveries ==> a.tables.deliveries[id].endpoint in a.tables.endpoints
  }

  ghost predicate Inv(maxAttempts: int, a: Sys) {
    && LedgerInv(maxAttempts, a)
    && EndpointsKnown(a)
    && forall w :: HoldsOnlyBatch(a, w)
  }

  // -------- One delivery through one step --------

  /** Everything a step can do to one delivery. */
  ghost predicate Moves(maxAttempts: int, d: Delivery, h: History, d': Delivery, h': History) {
    || (d' == d && h' == h)
    || (h' == h.(claims := h.claims + 1) && (d.status == DeliveryStatus.Pending || d.status == Retry)
        && d'.status == Processing && d'.attempts == d.attempts + 1)
    || (h' == h.(claims := h.claims + 1, timeouts := h.timeouts + 1) && d.status == Processing
        && d'.status == Processing && d'.attempts == d.attempts + 1)
    || (h' == h.(releases := h.releases + 1) && d.status == Processing && d'.status == Retry && d'.attempts == d.attempts - 1)
    || (h' == h && IsOpen(d.status) && IsFinal(d'.status) && d'.attempts == d.attempts)
    || (h' == h && d.status == Processing && d'.status == Retry && d'.attempts == d.attempts && d.attempts < maxAttempts)
  }

  lemma MovesAreAccounted(maxAttempts: int, d: Delivery, h: History, d': Delivery, h': History)
    requires Accounted(maxAttempts, d, h) && Moves(maxAttempts, d, h, d', h')
    ensures Accounted(maxAttempts, d', h')
    ensures IsFinal(d.status) ==> d' == d
  {
  }

  lemma StepMoves(maxAttempts: int, a: Sys, e: Event, id: nat)
    requires Enabled(a, e) && id in a.tables.deliveries
    ensures var b := Next(maxAttempts, a, e);
            id in b.tables.deliveries
            && b.tables.deliveries[id].endpoint == a.tables.deliveries[id].endpoint
            && Moves(maxAttempts, a.tables.deliveries[id], HistoryOf(a, id), b.tables.deliveries[id], HistoryOf(b, id))
  {
    match e
    case Claim(w, ids, now, cutoff) =>
      var d := a.tables.deliveries[id];
      if id in ids {
        assert IsDue(d, now, cutoff);
        assert TimedOut(d, cutoff) <==> d.status == Processing;
      }
    case Record(w, now, delay) =>
    case _ =>
  }

  lemma StepKeepsLedger(maxAttempts: int, a: Sys, e: Event)
    requires LedgerInv(maxAttempts, a) && Enabled(a, e)
    ensures LedgerInv(maxAttempts, Next(maxAttempts, a, e))
  {
    var b := Next(maxAttempts, a, e);
    forall id | id in b.tables.deliveries
      ensures Accounted(maxAttempts, b.tables.deliveries[id], HistoryOf(b, id))
    {
      if id in a.tables.deliveries {
        StepMoves(maxAttempts, a, e, id);
        MovesAreAccounted(maxAttempts, a.tables.deliveries[id], HistoryOf(a, id), b.tables.deliveries[id], HistoryOf(b, id));
      }
    }
  }

  lemma StepKeepsEndpoints(maxAttempts: int, a: Sys, e: Event)
    requires EndpointsKnown(a) && Enabled(a, e)
    ensures EndpointsKnown(Next(maxAttempts, a, e))
  {
    var b := Next(maxAttempts, a, e);
    forall id | id in b.tables.deliveries
      ensures b.tables.deliveries[id].endpoint in b.tables.endpoints
    {
      if id in a.tables.deliveries {
        StepMoves(maxAttempts, a, e, id);
      }
    }
  }

  // -------- Leases --------

  /** A step gives a delivery to its own worker by a claim, or takes it from whoever held it. */
  lemma StepLeases(maxAttempts: int, a: Sys, e: Event, id: nat, worker: nat)
    requires EndpointsKnown(a) && Enabled(a, e)
    requires var b := Next(maxAttempts, a, e); id in b.tables.deliveries && HeldBy(b.tables.deliveries[id], worker)
    ensures (e.Claim? && e.worker == worker && id in e.ids) || (id in a.tables.deliveries && HeldBy(a.tables.deliveries[id], worker))
  {
    if e.Record? {
      var p := PhaseOf(a, e.worker);
      if id in a.tables.deliveries && p.id in a.tables.deliveries {
        assert a.tables.deliveries[p.id].endpoint in a.tables.endpoints;
      }
    }
  }

  /** The delivery a worker puts behind itself is no longer held by it. */
  lemma StepLetsGo(maxAttempts: int, a: Sys, e: Event, id: nat, worker: nat)
    requires EndpointsKnown(a) && Enabled(a, e) && !e.Crash?
    requires id in Remaining(PhaseOf(a, worker)) && id !in Remaining(PhaseOf(Next(maxAttempts, a, e), worker))
    requires id in Next(maxAttempts, a, e).tables.deliveries
    ensures !HeldBy(Next(maxAttempts, a, e).tables.deliveries[id], worker)
  {
    if e.Begin? {
      BeginLetsGo(maxAttempts, a, e, id, worker);
    } else if e.Record? {
      RecordLetsGo(maxAttempts, a, e, id, worker);
    }
  }

  lemma BeginLetsGo(maxAttempts: int, a: Sys, e: Event, id: nat, worker: nat)
    requires Enabled(a, e) && e.Begin?
    requires id in Remaining(PhaseOf(a, worker)) && id !in Remaining(PhaseOf(Next(maxAttempts, a, e), worker))
    requires id in a.tables.deliveries
    ensures !HeldBy(a.tables.deliveries[id], worker) && e.worker == worker
  {
    var p := PhaseOf(a, e.worker);
    assert p.rest == [p.rest[0]] + p.rest[1..];
  }

  lemma RecordLetsGo(maxAttempts: int, a: Sys, e: Event, id: nat, worker: nat)
    requires EndpointsKnown(a) && Enabled(a, e) && e.Record?
    requires id in Remaining(PhaseOf(a, worker)) && id !in Remaining(PhaseOf(Next(maxAttempts, a, e), worker))
    requires id in Next(maxAttempts, a, e).tables.deliveries
    ensures !HeldBy(Next(maxAttempts, a, e).tables.deliveries[id], worker)
  {
    var p := PhaseOf(a, e.worker);
    assert p.id in a.tables.deliveries ==> a.tables.deliveries[p.id].endpoint in a.tables.endpoints;
  }

  lemma StepKeepsLeases(maxAttempts: int, a: Sys, e: Event, worker: nat)
    requires EndpointsKnown(a) && Enabled(a, e) && HoldsOnlyBatch(a, worker)
    ensures HoldsOnlyBatch(Next(maxAttempts, a, e), worker)
  {
    var b := Next(maxAttempts, a, e);
    if worker !in b.crashed {
      forall id | id in b.tables.deliveries && HeldBy(b.tables.deliveries[id], worker)
        ensures id in Remaining(PhaseOf(b, worker))
      {
        StepLeases(maxAttempts, a, e, id, worker);
        if !(e.Claim? && e.worker == worker && id in e.ids) && id !in Remaining(PhaseOf(b, worker)) {
          if !e.Crash? {
            StepLetsGo(maxAttempts, a, e, id, worker);
          }
        }
      }
    }
  }

  // -------- Runs --------

  lemma StepKeepsInv(maxAttempts: int, a: Sys, e: Event)
    requires Inv(maxAttempts, a) && Enabled(a, e)
    ensures Inv(maxAttempts, Next(maxAttempts, a, e))
  {
    StepKeepsLedger(maxAttempts, a, e);
    StepKeepsEndpoints(maxAttempts, a, e);
    forall w: nat
      ensures HoldsOnlyBatch(Next(maxAttempts, a, e), w)
    {
      StepKeepsLeases(maxAttempts, a, e, w);
    }
  }

  lemma {:induction false} RunKeepsInv(maxAttempts: int, a: Sys, events: seq<Event>, b: Sys)
    requires Inv(maxAttempts, a) && IsRun(maxAttempts, a, events, b)
    ensures Inv(maxAttempts, b)
    decreases |events|
  {
    if events != [] {
      StepKeepsInv(maxAttempts, a, events[0]);
      RunKeepsInv(maxAttempts, Next(maxAttempts, a, events[0]), events[1..], b);
    }
  }

  /** In every reachable state a delivery's attempts are its claims less its releases, never negative, and
      at most the configured maximum (but at least one) plus the claims of timed-out leases. */
  lemma AttemptsAreAccounted(maxAttempts: int, events: seq<Event>, a: Sys, id: nat)
    requires IsRun(maxAttempts, Start(), events, a) && id in a.tables.deliveries
    ensures var d, h := a.tables.deliveries[id], HistoryOf(a, id);
            && 0 <= d.attempts == h.claims - h.releases
            && d.attempts <= Cap(maxAttempts) + h.timeouts
            && (h.timeouts == 0 ==> h.claims - h.releases <= Cap(maxAttempts))
  {
    RunKeepsInv(maxAttempts, Start(), events, a);
    assert Accounted(maxAttempts, a.tables.deliveries[id], HistoryOf(a, id));
  }

  /** SENT, PERMANENTLY_FAILED and CANCELLED are final: whatever runs next, the row never changes again. */
  lemma {:induction false} FinalStaysFinal(maxAttempts: int, a: Sys, events: seq<Event>, b: Sys, id: nat)
    requires Inv(maxAttempts, a) && IsRun(maxAttempts, a, events, b)
    requires id in a.tables.deliveries && IsFinal(a.tables.deliveries[id].status)
    ensures id in b.tables.deliveries && b.tables.deliveries[id] == a.tables.deliveries[id]
    decreases |events|
  {
    if events != [] {
      var a' := Next(maxAttempts, a, events[0]);
      StepMoves(maxAttempts, a, events[0], id);
      assert Accounted(maxAttempts, a.tables.deliveries[id], HistoryOf(a, id));
      MovesAreAccounted(maxAttempts, a.tables.deliveries[id], HistoryOf(a, id), a'.tables.deliveries[id], HistoryOf(a', id));
      StepKeepsInv(maxAttempts, a, events[0]);
      FinalStaysFinal(maxAttempts, a', events[1..], b, id);
    }
  }

  /** A worker that has not crashed and is between batches holds nothing: whatever other workers do
      meanwhile, a batch that returned left none of its claims PROCESSING under its name. */
  lemma FinishedBatchHoldsNothing(maxAttempts: int, events: seq<Event>, a: Sys, worker: nat, id: nat)
    requires IsRun(maxAttempts, Start(), events, a) && worker !in a.crashed && PhaseOf(a, worker).Idle?
    requires id in a.tables.deliveries
    ensures !(a.tables.deliveries[id].status == Processing && a.tables.deliveries[id].claimedBy == Some(worker))
  {
    RunKeepsInv(maxAttempts, Start(), events, a);
    assert HoldsOnlyBatch(a, worker);
  }

  // -------- Timeouts --------

  lemma {:induction false} RunSnoc(maxAttempts: int, a: Sys, events: seq<Event>, b: Sys, e: Event)
    requires IsRun(maxAttempts, a, events, b) && Enabled(b, e)
    ensures IsRun(maxAttempts, a, events + [e], Next(maxAttempts, b, e))
    decreases |events|
  {
    if events == [] {
      assert (events + [e])[1..] == [];
      assert IsRun(maxAttempts, Next(maxAttempts, b, e), [], Next(maxAttempts, b, e));
    } else {
      RunSnoc(maxAttempts, Next(maxAttempts, a, events[0]), events[1..], b, e);
      assert (events + [e])[1..] == events[1..] + [e];
    }
  }

  function TimeOf(e: Event): Option<int> {
    match e
    case Claim(_, _, now, _) => Some(now)
    case Record(_, now, _) => Some(now)
    case Release(_, now) => Some(now)
    case _ => None
  }

  /** Everything happens one after another and before `end`, and every claim takes leases older than `timeout`. */
  ghost predicate Clocked(timeout: int, events: seq<Event>, end: int)
    decreases |events|
  {
    if events == [] then true
    else
      var init, e := events[..|events| - 1], events[|events| - 1];
      match TimeOf(e)
      case None => Clocked(timeout, init, end)
      case Some(now) => now < end && (e.Claim? ==> e.cutoff == now - timeout) && Clocked(timeout, init, now)
  }

  lemma {:induction false} ClockedLater(timeout: int, events: seq<Event>, end: int, later: int)
    requires Clocked(timeout, events, end) && end <= later
    ensures Clocked(timeout, events, later)
    decreases |events|
  {
    if events != [] && TimeOf(events[|events| - 1]).None? {
      ClockedLater(timeout, events[..|events| - 1], end, later);
    }
  }

  /** A run of a delivery queue whose clock has not passed `end`. */
  ghost predicate Timely(maxAttempts: int, timeout: int, events: seq<Event>, a: Sys, end: int) {
    IsRun(maxAttempts, Start(), events, a) && Clocked(timeout, events, end)
  }

  lemma TimelySnoc(maxAttempts: int, timeout: int, events: seq<Event>, a: Sys, end: int, e: Event, later: int)
    requires Timely(maxAttempts, timeout, events, a, end) && Enabled(a, e) && end <= later
    requires TimeOf(e).Some? ==> end <= TimeOf(e).value < later
    requires e.Claim? ==> e.cutoff == e.now - timeout
    ensures Timely(maxAttempts, timeout, events + [e], Next(maxAttempts, a, e), later)
  {
    RunSnoc(maxAttempts, Start(), events, a, e);
    assert (events + [e])[..|events|] == events;
    ClockedLater(timeout, events, end, if TimeOf(e).Some? then TimeOf(e).value else later);
  }

  /** A step at time `end`, or at no time, and then one that takes no time of its own. */
  lemma TwoSteps(maxAttempts: int, timeout: int, events: seq<Event>, a: Sys, end: int, e: Event, f: Event)
      returns (events': seq<Event>, b: Sys)
    requires Timely(maxAttempts, timeout, events, a, end) && Enabled(a, e) && Enabled(Next(maxAttempts, a, e), f)
    requires (TimeOf(e).Some? ==> TimeOf(e).value == end) && (e.Claim? ==> e.cutoff == e.now - timeout) && TimeOf(f).None?
    ensures Timely(maxAttempts, timeout, events', b, end + 1) && b == Next(maxAttempts, Next(maxAttempts, a, e), f)
  {
    TimelySnoc(maxAttempts, timeout, events, a, end, e, end + 1);
    events', b := events + [e], Next(maxAttempts, a, e);
    TimelySnoc(maxAttempts, timeout, events', b, end + 1, f, end + 1);
    events', b := events' + [f], Next(maxAttempts, b, f);
  }

  /** Delivery 0 is due by `now` after so many attempts, its endpoint takes messages, and worker 0 is idle. */
  predicate Waits(a: Sys, attempts: nat, now: int) {
    && 0 in a.tables.deliveries && 0 in a.tables.endpoints && a.tables.endpoints[0].active && PhaseOf(a, 0).Idle?
    && var d := a.tables.deliveries[0];
    && d.endpoint == 0 && (d.status == DeliveryStatus.Pending || d.status == Retry) && d.attempts == attempts
    && (d.nextAt.None? || d.nextAt.value <= now) && HistoryOf(a, 0).timeouts == 0
  }

  /** Delivery 0 is leased, was last attempted at time `at`, and its worker is gone. */
  predicate Abandoned(a: Sys, attempts: nat, timeouts: nat, at: int) {
    && 0 in a.tables.deliveries && PhaseOf(a, 0).Idle?
    && a.tables.deliveries[0].status == Processing && a.tables.deliveries[0].attempts == attempts
    && a.tables.deliveries[0].lastAt == Some(at) && HistoryOf(a, 0).timeouts == timeouts
  }

  const NO_ANSWER := SendResult(TransientFailure, None)

  function ClaimAt(now: int, timeout: int): Event {
    Claim(0, [0], now, now - timeout)
  }

  /** Delivery 0 is with the provider, which will not answer. */
  predicate IsSent(a: Sys, attempts: nat) {
    && 0 in a.tables.deliveries && 0 in a.tables.endpoints && a.tables.endpoints[0].active
    && PhaseOf(a, 0) == Sending(0, [], NO_ANSWER)
    && var d := a.tables.deliveries[0];
    && d.endpoint == 0 && d.status == Processing && d.attempts == attempts && HistoryOf(a, 0).timeouts == 0
  }

  lemma SendOnce(maxAttempts: int, timeout: int, a: Sys, attempts: nat, now: int)
    requires Waits(a, attempts, now)
    ensures Enabled(a, ClaimAt(now, timeout)) && Enabled(Next(maxAttempts, a, ClaimAt(now, timeout)), Begin(0, NO_ANSWER))
    ensures IsSent(Next(maxAttempts, Next(maxAttempts, a, ClaimAt(now, timeout)), Begin(0, NO_ANSWER)), attempts + 1)
  {
  }

  lemma RetryOnce(maxAttempts: int, a: Sys, attempts: nat, now: int)
    requires IsSent(a, attempts) && attempts < maxAttempts
    ensures Enabled(a, Record(0, now, 1)) && Enabled(Next(maxAttempts, a, Record(0, now, 1)), Finish(0))
    ensures Waits(Next(maxAttempts, Next(maxAttempts, a, Record(0, now, 1)), Finish(0)), attempts, now + 1)
  {
  }

  /** A transient failure below the maximum. */
  lemma FailOnce(maxAttempts: int, timeout: int, events: seq<Event>, a: Sys, attempts: nat, now: int)
      returns (events': seq<Event>, b: Sys)
    requires Timely(maxAttempts, timeout, events, a, now) && Waits(a, attempts, now) && attempts + 1 < maxAttempts
    ensures Timely(maxAttempts, timeout, events', b, now + 2) && Waits(b, attempts + 1, now + 2)
  {
    SendOnce(maxAttempts, timeout, a, attempts, now);
    events', b := TwoSteps(maxAttempts, timeout, events, a, now, ClaimAt(now, timeout), Begin(0, NO_ANSWER));
    RetryOnce(maxAttempts, b, attempts + 1, now + 1);
    events', b := TwoSteps(maxAttempts, timeout, events', b, now + 1, Record(0, now + 1, 1), Finish(0));
  }

  lemma FirstWaits(maxAttempts: int, timeout: int) returns (events: seq<Event>, a: Sys)
    ensures Timely(maxAttempts, timeout, events, a, 1) && Waits(a, 0, 1)
  {
    events, a := TwoSteps(maxAttempts, timeout, [], Start(), 0, Register(0), Create(0, 0, 0, 0));
  }

  lemma {:induction false} FailBelowMaximum(maxAttempts: int, timeout: int, attempts: nat) returns (events: seq<Event>, a: Sys, now: int)
    requires attempts < Cap(maxAttempts)
    ensures Timely(maxAttempts, timeout, events, a, now) && Waits(a, attempts, now)
  {
    if attempts == 0 {
      events, a := FirstWaits(maxAttempts, timeout);
      now := 1;
    } else {
      events, a, now := FailBelowMaximum(maxAttempts, timeout, attempts - 1);
      events, a := FailOnce(maxAttempts, timeout, events, a, attempts - 1, now);
      now := now + 2;
    }
  }

  lemma Abandon(maxAttempts: int, timeout: int, a: Sys, attempts: nat, now: int)
    requires Waits(a, attempts, now)
    ensures Enabled(a, ClaimAt(now, timeout))
    ensures Abandoned(Next(maxAttempts, Next(maxAttempts, a, ClaimAt(now, timeout)), Crash(0)), attempts + 1, 0, now)
  {
  }

  /** A lease that is exactly `timeout` old is taken again. */
  lemma AbandonAgain(maxAttempts: int, timeout: int, a: Sys, attempts: nat, timeouts: nat, at: int)
    requires Abandoned(a, attempts, timeouts, at)
    ensures Enabled(a, ClaimAt(at + timeout, timeout))
    ensures Abandoned(Next(maxAttempts, Next(maxAttempts, a, ClaimAt(at + timeout, timeout)), Crash(0)),
                      attempts + 1, timeouts + 1, at + timeout)
  {
  }

  /** The last attempt below the maximum is abandoned. */
  lemma AbandonFirst(maxAttempts: int, timeout: int) returns (events: seq<Event>, a: Sys, at: int)
    ensures Timely(maxAttempts, timeout, events, a, at + 1) && Abandoned(a, Cap(maxAttempts), 0, at)
  {
    events, a, at := FailBelowMaximum(maxAttempts, timeout, Cap(maxAttempts) - 1);
    Abandon(maxAttempts, timeout, a, Cap(maxAttempts) - 1, at);
    events, a := TwoSteps(maxAttempts, timeout, events, a, at, ClaimAt(at, timeout), Crash(0));
  }

  lemma TakeAgain(maxAttempts: int, timeout: int, events: seq<Event>, a: Sys, attempts: nat, timeouts: nat, at: int)
      returns (events': seq<Event>, b: Sys)
    requires Timely(maxAttempts, timeout, events, a, at + 1) && Abandoned(a, attempts, timeouts, at) && timeout > 0
    ensures Timely(maxAttempts, timeout, events', b, at + timeout + 1) && Abandoned(b, attempts + 1, timeouts + 1, at + timeout)
  {
    AbandonAgain(maxAttempts, timeout, a, attempts, timeouts, at);
    ClockedLater(timeout, events, at + 1, at + timeout);
    events', b := TwoSteps(maxAttempts, timeout, events, a, at + timeout, ClaimAt(at + timeout, timeout), Crash(0));
  }

  lemma {:induction false} ReachBound(maxAttempts: int, timeout: int, timeouts: nat) returns (events: seq<Event>, a: Sys, at: int)
    requires timeout > 0
    ensures Timely(maxAttempts, timeout, events, a, at + 1) && Abandoned(a, Cap(maxAttempts) + timeouts, timeouts, at)
  {
    if timeouts == 0 {
      events, a, at := AbandonFirst(maxAttempts, timeout);
    } else {
      events, a, at := ReachBound(maxAttempts, timeout, timeouts - 1);
      events, a := TakeAgain(maxAttempts, timeout, events, a, Cap(maxAttempts) + timeouts - 1, timeouts - 1, at);
      at := at + timeout;
    }
  }

  /** The bound on attempts is reached under a running clock: for every configured maximum, every positive claim timeout and
      every number of timed-out claims some run, in which time passes from each claim, record and release to the next, makes
      exactly that many attempts, the maximum (at least one) plus the timed-out claims. */
  lemma AttemptBoundIsTight(maxAttempts: int, timeout: int, timeouts: nat) returns (events: seq<Event>, a: Sys, end: int)
    requires timeout > 0
    ensures IsRun(maxAttempts, Start(), events, a) && Clocked(timeout, events, end) && 0 in a.tables.deliveries
    ensures HistoryOf(a, 0).timeouts == timeouts && a.tables.deliveries[0].attempts == Cap(maxAttempts) + timeouts
  {
    events, a, end := ReachBound(maxAttempts, timeout, timeouts);
    end := end + 1;
  }
}
