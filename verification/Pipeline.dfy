/** The whole pipeline as a step system: revisions are appended with their work, and any number of
    workers claim, classify, settle, fail, crash or lose their leases in any interleaving. Each step is
    one transaction or one read of the original. */
module Pipeline {
  import opened RecordDomain
  import opened Classification
  import opened BaselineProofs
  import opened SettledProofs
  import opened WorkQueue

  /** Where a worker stands inside process_claimed_work. `headSeen` is the head revision number it
      loaded together with its claim, `saved` how many level rows of a stale or absorbed revision it has written. */
  datatype Phase =
    | Idle
    | Claimed(row: RowId)
    | Loaded(row: RowId, headSeen: nat)
    | Materialised(row: RowId, headSeen: nat)
    | Ready(row: RowId, repair: bool)
    | Historic(row: RowId, verdict: bool, saved: nat)
    | Returned(row: RowId, verdict: bool)

  /** A commit of `rev` that replayed its cells when `seen` revisions had arrived. */
  datatype Repair = Repair(rev: Revision, seen: nat)

  /** `applied` records which revisions have committed as current, `appended` the order in which they
      arrived, `repairs` the commits that replayed; no step reads any of them. */
  datatype Sys = Sys(store: Store, work: Queue, workers: map<nat, Phase>,
                     applied: set<Revision>, appended: seq<Revision>, repairs: set<Repair>)

  datatype Event =
    | Append(rev: Revision, created: int, pk: nat)
    | Claim(worker: nat, row: RowId, now: int, lease: int)
    | Load(worker: nat)
    | Materialise(worker: nat)
    | Decide(worker: nat)
    | SaveLevel(worker: nat)
    | Return(worker: nat)
    | Commit(worker: nat)
    | Settle(worker: nat)
    | Fail(worker: nat)
    | Crash(worker: nat)

  function PhaseOf(a: Sys, worker: nat): Phase {
    if worker in a.workers then a.workers[worker] else Idle
  }

  function HeadRevision(s: Store, result: nat): nat {
    if result in s.heads then s.heads[result].revision else 0
  }

  /** `rev` is the next revision of its result. */
  ghost predicate IsNext(s: Store, rev: Revision) {
    rev.revision == HeadRevision(s, rev.resultId) + 1
  }

  function RevisionOf(a: Sys, k: RowId): Revision
    requires k in a.store.log
  {
    a.store.log[k]
  }

  ghost predicate Enabled(a: Sys, e: Event) {
    match e
    case Append(rev, _, _) => IsNext(a.store, rev) && Id(rev) !in a.work
    case Claim(w, row, now, _) => PhaseOf(a, w).Idle? && Claimable(a.work, row, now)
    case Load(w) => PhaseOf(a, w).Claimed?
    case Materialise(w) => PhaseOf(a, w).Loaded? && PhaseOf(a, w).row in a.store.log
    case Decide(w) => PhaseOf(a, w).Materialised? && PhaseOf(a, w).row in a.store.log
    case SaveLevel(w) => PhaseOf(a, w).Historic? && PhaseOf(a, w).saved < |RECORD_LEVELS| && PhaseOf(a, w).row in a.store.log
    case Return(w) => PhaseOf(a, w).Historic? && PhaseOf(a, w).saved == |RECORD_LEVELS|
    case Commit(w) => PhaseOf(a, w).Ready? && PhaseOf(a, w).row in a.store.log
    case Settle(w) => PhaseOf(a, w).Returned? && PhaseOf(a, w).row in a.work
    case Fail(w) => !PhaseOf(a, w).Idle? && PhaseOf(a, w).row in a.work
    case Crash(w) => true
  }

  function At(a: Sys, worker: nat, phase: Phase): Sys {
    a.(workers := a.workers[worker := phase])
  }

  function Appended(s: Store, rev: Revision): Store {
    s.(log := s.log[Id(rev) := rev], heads := s.heads[rev.resultId := Head(rev.revision, rev.status)])
  }

  /** One level row of a stale or absorbed revision, saved on its own. */
  ghost function LevelSaved(env: Env, s: Store, rev: Revision, level: Level): Store {
    var l := LevelId(Id(rev), level);
    if l in s.levels then s.(levels := s.levels[l := HistoricalChild(env, s, rev, l)]) else s
  }

  /** A correction repairs; a first revision does when the out-of-order test, on the tables of this moment, says so. */
  ghost function Decided(env: Env, a: Sys, worker: nat, rev: Revision, headSeen: nat): Sys {
    if headSeen > rev.revision then At(a, worker, Historic(Id(rev), false, 0))
    else if IsAbsorbed(env, rev) then At(a, worker, Historic(Id(rev), true, 0)).(applied := a.applied + {rev})
    else At(a, worker, Ready(Id(rev), rev.revision > 1 || OutOfOrder(env, a.store, rev)))
  }

  /** The commit transaction: the timeline writes stand only if the head has not moved. */
  ghost function CommitAttempted(env: Env, a: Sys, worker: nat, rev: Revision, repair: bool): Sys {
    if IsHead(a.store, rev) then
      At(a, worker, Returned(Id(rev), true))
        .(store := Committed(env, a.store, rev, repair), applied := a.applied + {rev},
          repairs := if repair then a.repairs + {Repair(rev, |a.appended|)} else a.repairs)
    else At(a, worker, Historic(Id(rev), false, 0))
  }

  ghost function Next(env: Env, a: Sys, e: Event): Sys
    requires Enabled(a, e)
  {
    match e
    case Append(rev, created, pk) =>
      a.(store := Appended(a.store, rev), work := a.work[Id(rev) := Fresh(created, pk)], appended := a.appended + [rev])
    case Claim(w, row, now, lease) => At(a, w, Claimed(row)).(work := a.work[row := Leased(a.work[row], w, now, lease)])
    case Load(w) => At(a, w, Loaded(PhaseOf(a, w).row, HeadRevision(a.store, PhaseOf(a, w).row.result)))
    case Materialise(w) =>
      At(a, w, Materialised(PhaseOf(a, w).row, PhaseOf(a, w).headSeen))
        .(store := Materialized(env, a.store, RevisionOf(a, PhaseOf(a, w).row)))
    case Decide(w) => Decided(env, a, w, RevisionOf(a, PhaseOf(a, w).row), PhaseOf(a, w).headSeen)
    case SaveLevel(w) =>
      At(a, w, Historic(PhaseOf(a, w).row, PhaseOf(a, w).verdict, PhaseOf(a, w).saved + 1))
        .(store := LevelSaved(env, a.store, RevisionOf(a, PhaseOf(a, w).row), RECORD_LEVELS[PhaseOf(a, w).saved]))
    case Return(w) => At(a, w, Returned(PhaseOf(a, w).row, PhaseOf(a, w).verdict))
    case Commit(w) => CommitAttempted(env, a, w, RevisionOf(a, PhaseOf(a, w).row), PhaseOf(a, w).repair)
    case Settle(w) => At(a, w, Idle).(work := AfterSettle(a.work, PhaseOf(a, w).row, w, PhaseOf(a, w).verdict))
    case Fail(w) => At(a, w, Idle).(work := AfterFailure(a.work, PhaseOf(a, w).row, w))
    case Crash(w) => At(a, w, Idle)
  }

  function Start(env: Env): Sys {
    Sys(Store(map[], map[], map[], map[], env.baseline), map[], map[], {}, [], {})
  }

  ghost predicate IsRun(env: Env, a: Sys, events: seq<Event>, b: Sys)
    decreases |events|
  {
    if events == [] then a == b
    else
      && Enabled(a, events[0])
      && IsRun(env, Next(env, a, events[0]), events[1..], b)
  }

  /** A claim takes the first claimable item in queue order. A claim that skips rows locked by others may take a later one. */
  ghost predicate InTurn(a: Sys, e: Event) {
    e.Claim? ==> forall j :: Claimable(a.work, j, e.now) && j != e.row ==> e.row in a.work && ComesFirst(a.work, e.row, j)
  }

  /** A run in which every claim is in turn. */
  ghost predicate IsOrderlyRun(env: Env, a: Sys, events: seq<Event>, b: Sys)
    decreases |events|
  {
    if events == [] then a == b
    else
      && Enabled(a, events[0]) && InTurn(a, events[0])
      && IsOrderlyRun(env, Next(env, a, events[0]), events[1..], b)
  }

  // -------- Which appended revisions a repair can follow --------

  /** The cells a revision can have been folded into. */
  ghost function Footprint(env: Env, rev: Revision): set<Cell> {
    if IsAbsorbed(env, rev) then {} else CellsOf(env, rev)
  }

  /** The cells a correction repairs. */
  ghost function Touched(env: Env, s: Store, rev: Revision): set<Cell> {
    if IsAbsorbed(env, rev) then {} else Affected(env, s, rev)
  }

  /** `k` is a valid revision, overtaken by the head `h` of its result, that may have been folded into `c`. */
  ghost predicate Overtaken(env: Env, s: Store, c: Cell, h: Revision, k: Revision) {
    && Logged(s, h) && IsHead(s, h)
    && Logged(s, k) && k.resultId == h.resultId && k.revision < h.revision
    && RevisionIsValid(k) && c in Footprint(env, k)
  }

  /** `g` arrived no earlier than the revision that overtook `k`. */
  ghost predicate Follows(order: seq<Revision>, g: Revision, k: Revision) {
    exists i, j :: 0 <= i <= j < |order| && Id(order[i]) == RowId(k.resultId, k.revision + 1) && order[j] == g
  }

  /** `p` is a head past its first revision that counts somewhere and replays `c`. */
  ghost predicate Corrects(env: Env, s: Store, c: Cell, p: Revision) {
    Logged(s, p) && IsHead(s, p) && p.revision > 1 && RevisionIsValid(p) && c in Touched(env, s, p)
  }

  /** Some such head has a later key: once that one is projected, `g` is out of order. */
  ghost predicate Behind(env: Env, s: Store, c: Cell, g: Revision) {
    exists p :: Corrects(env, s, c, p) && Before(g, p)
  }

  /** `g` reaches `c` and arrived when `k` was no longer a head, and it is a correction or stands behind one. */
  ghost predicate Heals(env: Env, s: Store, order: seq<Revision>, c: Cell, g: Revision, k: Revision) {
    c in Touched(env, s, g) && Follows(order, g, k) && (g.revision > 1 || Behind(env, s, c, g))
  }

  /** The overtaken revisions that no head, of any result, repairs away. */
  ghost predicate Escapes(env: Env, s: Store, order: seq<Revision>, c: Cell, k: Revision) {
    && (exists h :: Overtaken(env, s, c, h, k))
    && forall g :: Logged(s, g) && IsHead(s, g) ==> !Heals(env, s, order, c, g, k)
  }

  ghost function Escaped(env: Env, s: Store, order: seq<Revision>, c: Cell): (rows: set<Revision>)
    ensures forall k :: k in rows <==> Escapes(env, s, order, c, k)
  {
    set i | i in s.log && Escapes(env, s, order, c, s.log[i]) :: s.log[i]
  }

  /** No item is waiting, leased or failed. */
  ghost predicate Quiescent(a: Sys) {
    forall k :: k in a.work ==> !Unsettled(a.work[k])
  }

  // -------- The log a run leaves --------

  ghost predicate SameLog(s: Store, t: Store) {
    s.heads == t.heads && s.log == t.log
  }

  function AppendAll(s: Store, revs: seq<Revision>): Store
    decreases |revs|
  {
    if revs == [] then s else AppendAll(Appended(s, revs[0]), revs[1..])
  }

  /** Each revision is the next of its result when its turn comes. */
  ghost predicate Chain(s: Store, revs: seq<Revision>)
    decreases |revs|
  {
    revs == [] || (IsNext(s, revs[0]) && Chain(Appended(s, revs[0]), revs[1..]))
  }

  function Appends(events: seq<Event>): seq<Revision> {
    if events == [] then []
    else (if events[0].Append? then [events[0].rev] else []) + Appends(events[1..])
  }
}
