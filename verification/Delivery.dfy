/** The push delivery queue: what each statement of the worker does to deliveries and endpoints, and the
    step system of any number of workers claiming, sending, recording, releasing and crashing. */
module Delivery {
  import opened RecordDomain

  datatype DeliveryStatus = Pending | Processing | Retry | Sent | PermanentlyFailed | Cancelled

  datatype Delivery = Delivery(
    endpoint: nat, provider: nat, status: DeliveryStatus, attempts: int,
    nextAt: Option<int>, lastAt: Option<int>, claimedBy: Option<nat>, created: int)

  datatype Endpoint = Endpoint(active: bool, failures: nat)

  datatype SendOutcome = Success | PermanentEndpointFailure | TransientFailure
  /** What the provider answered; `retryAt` when it named a time. */
  datatype SendResult = SendResult(outcome: SendOutcome, retryAt: Option<int>)

  type Deliveries = map<nat, Delivery>
  type Endpoints = map<nat, Endpoint>
  datatype Tables = Tables(deliveries: Deliveries, endpoints: Endpoints)

  predicate IsFinal(status: DeliveryStatus) {
    status == Sent || status == PermanentlyFailed || status == Cancelled
  }

  predicate IsOpen(status: DeliveryStatus) {
    status == DeliveryStatus.Pending || status == Retry || status == Processing
  }

  // -------- Claiming --------

  predicate TimedOut(d: Delivery, cutoff: int) {
    d.status == Processing && d.lastAt.Some? && d.lastAt.value <= cutoff
  }

  predicate IsDue(d: Delivery, now: int, cutoff: int) {
    || ((d.status == DeliveryStatus.Pending || d.status == Retry) && (d.nextAt.None? || d.nextAt.value <= now))
    || TimedOut(d, cutoff)
  }

  function Leased(d: Delivery, worker: nat, now: int): Delivery {
    d.(status := Processing, attempts := d.attempts + 1, lastAt := Some(now), claimedBy := Some(worker))
  }

  function ClaimedAll(ds: Deliveries, ids: set<nat>, worker: nat, now: int): Deliveries {
    map id | id in ds :: if id in ids then Leased(ds[id], worker, now) else ds[id]
  }

  // -------- Recording a result --------

  /** `delay` is the scheduled back-off, any positive time. */
  function Rescheduled(d: Delivery, maxAttempts: int, result: SendResult, now: int, delay: int): Delivery {
    if d.attempts >= maxAttempts then d.(status := PermanentlyFailed, nextAt := None, claimedBy := None)
    else d.(status := Retry, nextAt := if result.retryAt.Some? then result.retryAt else Some(now + delay), claimedBy := None)
  }

  /** A dead endpoint fails everything still open for it. */
  function EndpointFailed(ds: Deliveries, endpoint: nat): Deliveries {
    map id | id in ds :: if ds[id].endpoint == endpoint && IsOpen(ds[id].status)
                         then ds[id].(status := PermanentlyFailed, nextAt := None, claimedBy := None) else ds[id]
  }

  function Recorded(t: Tables, id: nat, maxAttempts: int, result: SendResult, now: int, delay: int): Tables
    requires id in t.deliveries && t.deliveries[id].endpoint in t.endpoints
  {
    var d := t.deliveries[id];
    var e := t.endpoints[d.endpoint];
    if d.status != Processing then t
    else match result.outcome
      case Success =>
        Tables(t.deliveries[id := d.(status := Sent, nextAt := None, claimedBy := None)],
               t.endpoints[d.endpoint := e.(failures := 0)])
      case PermanentEndpointFailure =>
        Tables(EndpointFailed(t.deliveries, d.endpoint), t.endpoints[d.endpoint := Endpoint(false, e.failures + 1)])
      case TransientFailure =>
        Tables(t.deliveries[id := Rescheduled(d, maxAttempts, result, now, delay)],
               t.endpoints[d.endpoint := e.(failures := e.failures + 1)])
  }

  function CancelledIfClaimed(ds: Deliveries, id: nat): Deliveries {
    if id in ds && ds[id].status == Processing then ds[id := ds[id].(status := Cancelled, nextAt := None, claimedBy := None)] else ds
  }

  predicate Releasable(ds: Deliveries, id: nat, worker: nat) {
    id in ds && ds[id].status == Processing && ds[id].claimedBy == Some(worker)
  }

  function Released(ds: Deliveries, ids: seq<nat>, worker: nat, now: int): Deliveries {
    map id | id in ds :: if id in ids && Releasable(ds, id, worker)
                         then ds[id].(status := Retry, attempts := ds[id].attempts - 1, nextAt := Some(now), lastAt := None, claimedBy := None)
                         else ds[id]
  }

  // -------- The step system --------

  /** Where a worker stands in its batch. `rest` is what it has not begun. */
  datatype Phase =
    | Idle
    | Batch(rest: seq<nat>)
    | Cancelling(id: nat, rest: seq<nat>)
    | Sending(id: nat, rest: seq<nat>, result: SendResult)

  /** `claims`, `releases` and `timeouts` count what happened to each delivery; no step reads them. */
  datatype History = History(claims: nat, releases: nat, timeouts: nat)

  datatype Sys = Sys(tables: Tables, workers: map<nat, Phase>, history: map<nat, History>, crashed: set<nat>)

  datatype Event =
    | Create(id: nat, endpoint: nat, provider: nat, created: int)
    | Register(endpoint: nat)
    | SetActive(endpoint: nat, active: bool)
    | Claim(worker: nat, ids: seq<nat>, now: int, cutoff: int)
    | Begin(worker: nat, result: SendResult)
    | Cancel(worker: nat)
    | Record(worker: nat, now: int, delay: int)
    | Release(worker: nat, now: int)
    | Finish(worker: nat)
    | Crash(worker: nat)

  function PhaseOf(a: Sys, worker: nat): Phase {
    if worker in a.workers then a.workers[worker] else Idle
  }

  predicate NoRepeats(ids: seq<nat>) {
    forall i, j :: 0 <= i < j < |ids| ==> ids[i] != ids[j]
  }

  ghost predicate Enabled(a: Sys, e: Event) {
    match e
    case Create(id, endpoint, _, _) => id !in a.tables.deliveries && endpoint in a.tables.endpoints
    case Register(endpoint) => endpoint !in a.tables.endpoints
    case SetActive(endpoint, _) => endpoint in a.tables.endpoints
    case Claim(w, ids, now, cutoff) =>
      PhaseOf(a, w).Idle? && NoRepeats(ids) && forall id :: id in ids ==> id in a.tables.deliveries && IsDue(a.tables.deliveries[id], now, cutoff)
    case Begin(w, _) => PhaseOf(a, w).Batch? && PhaseOf(a, w).rest != []
    case Cancel(w) => PhaseOf(a, w).Cancelling?
    case Record(w, _, delay) => PhaseOf(a, w).Sending? && delay > 0
    case Release(w, _) => PhaseOf(a, w).Batch? && PhaseOf(a, w).rest != []
    case Finish(w) => PhaseOf(a, w) == Batch([])
    case Crash(_) => true
  }

  function At(a: Sys, worker: nat, phase: Phase): Sys {
    a.(workers := a.workers[worker := phase])
  }

  function WithDeliveries(a: Sys, ds: Deliveries): Sys {
    a.(tables := a.tables.(deliveries := ds))
  }

  function HistoryOf(a: Sys, id: nat): History {
    if id in a.history then a.history[id] else History(0, 0, 0)
  }

  function CountClaims(a: Sys, ids: seq<nat>, cutoff: int): map<nat, History> {
    map id | id in a.tables.deliveries ::
      var h := HistoryOf(a, id);
      if id in ids then h.(claims := h.claims + 1, timeouts := if TimedOut(a.tables.deliveries[id], cutoff) then h.timeouts + 1 else h.timeouts)
      else h
  }

  function CountReleases(a: Sys, ids: seq<nat>, worker: nat): map<nat, History> {
    map id | id in a.tables.deliveries ::
      var h := HistoryOf(a, id);
      if id in ids && Releasable(a.tables.deliveries, id, worker) then h.(releases := h.releases + 1) else h
  }

  /** Look the next delivery up: skip it, cancel it, or send it. */
  function Begun(a: Sys, worker: nat, id: nat, rest: seq<nat>, result: SendResult): Sys {
    if id !in a.tables.deliveries || a.tables.deliveries[id].status != Processing then At(a, worker, Batch(rest))
    else if a.tables.deliveries[id].endpoint in a.tables.endpoints && !a.tables.endpoints[a.tables.deliveries[id].endpoint].active then
      At(a, worker, Cancelling(id, rest))
    else At(a, worker, Sending(id, rest, result))
  }

  function RecordedSys(a: Sys, maxAttempts: int, worker: nat, id: nat, rest: seq<nat>, result: SendResult, now: int, delay: int): Sys {
    if id in a.tables.deliveries && a.tables.deliveries[id].endpoint in a.tables.endpoints then
      At(a, worker, Batch(rest)).(tables := Recorded(a.tables, id, maxAttempts, result, now, delay))
    else At(a, worker, Batch(rest))
  }

  ghost function Next(maxAttempts: int, a: Sys, e: Event): Sys
    requires Enabled(a, e)
  {
    match e
    case Create(id, endpoint, provider, created) =>
      WithDeliveries(a, a.tables.deliveries[id := Delivery(endpoint, provider, DeliveryStatus.Pending, 0, None, None, None, created)])
    case Register(endpoint) => a.(tables := a.tables.(endpoints := a.tables.endpoints[endpoint := Endpoint(true, 0)]))
    case SetActive(endpoint, active) =>
      a.(tables := a.tables.(endpoints := a.tables.endpoints[endpoint := a.tables.endpoints[endpoint].(active := active)]))
    case Claim(w, ids, now, cutoff) =>
      At(WithDeliveries(a, ClaimedAll(a.tables.deliveries, (set id | id in ids), w, now)), w, Batch(ids))
        .(history := CountClaims(a, ids, cutoff))
    case Begin(w, result) => Begun(a, w, PhaseOf(a, w).rest[0], PhaseOf(a, w).rest[1..], result)
    case Cancel(w) =>
      At(WithDeliveries(a, CancelledIfClaimed(a.tables.deliveries, PhaseOf(a, w).id)), w, Batch(PhaseOf(a, w).rest))
    case Record(w, now, delay) =>
      RecordedSys(a, maxAttempts, w, PhaseOf(a, w).id, PhaseOf(a, w).rest, PhaseOf(a, w).result, now, delay)
    case Release(w, now) =>
      At(WithDeliveries(a, Released(a.tables.deliveries, PhaseOf(a, w).rest, w, now)), w, Idle)
        .(history := CountReleases(a, PhaseOf(a, w).rest, w))
    case Finish(w) => At(a, w, Idle)
    case Crash(w) => At(a, w, Idle).(crashed := a.crashed + {w})
  }

  function Start(): Sys {
    Sys(Tables(map[], map[]), map[], map[], {})
  }

  ghost predicate IsRun(maxAttempts: int, a: Sys, events: seq<Event>, b: Sys)
    decreases |events|
  {
    if events == [] then a == b
    else Enabled(a, events[0]) && IsRun(maxAttempts, Next(maxAttempts, a, events[0]), events[1..], b)
  }
}
