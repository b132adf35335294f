/** Safety of the pipeline over every interleaving. */
module PipelineProofs {
  import opened RecordDomain
  import opened RecordOrder
  import opened Classification
  import opened TimelineProofs
  import opened SettledProofs
  import opened RunProofs
  import opened BaselineProofs
  import opened WorkQueue
  import opened Pipeline

  ghost predicate Numbered(s: Store) {
    LogKeysMatch(s) && NumberedToHead(s) && HeadsLogged(s)
  }

  lemma NumberedHeads(s: Store)
    requires Numbered(s)
    ensures HeadStatusLogged(s)
  {
    forall r | Logged(s, r)
      ensures HeadAgrees(s, r)
    {
    }
  }

  /** The projection of a head, once written, says what its revision says. */
  ghost predicate HeadsFaithful(s: Store) {
    forall r :: Logged(s, r) && IsHead(s, r) && Id(r) in s.processed ==> Projected(s, Id(r))
  }

  ghost predicate StoreInv(env: Env, s: Store) {
    Numbered(s) && ProjectionsMatchLog(env, s) && HeadsFaithful(s)
  }

  ghost predicate AppliedProjected(s: Store, applied: set<Revision>) {
    forall r :: r in applied ==> Logged(s, r) && Id(r) in s.processed
  }

  /** What has committed, in what order everything arrived, and which commits replayed. */
  datatype Past = Past(applied: set<Revision>, order: seq<Revision>, repairs: set<Repair>)

  function PastOf(a: Sys): Past {
    Past(a.applied, a.appended, a.repairs)
  }

  /** The revision that overtook `k` was among the first `n` to arrive. */
  ghost predicate OvertakenBefore(order: seq<Revision>, n: nat, k: Revision) {
    exists i :: 0 <= i < n && i < |order| && Id(order[i]) == RowId(k.resultId, k.revision + 1)
  }

  /** This commit replayed `c` when `k` was no longer a head. */
  ghost predicate Clears(env: Env, s: Store, order: seq<Revision>, c: Cell, x: Repair, k: Revision) {
    c in Touched(env, s, x.rev) && OvertakenBefore(order, x.seen, k)
  }

  /** `k` may still be folded into `c`: nothing has replayed `c` since it was overtaken. */
  ghost predicate Lingers(env: Env, s: Store, repairs: set<Repair>, order: seq<Revision>, c: Cell, k: Revision) {
    && (exists h :: Overtaken(env, s, c, h, k))
    && forall x :: x in repairs ==> !Clears(env, s, order, c, x, k)
  }

  /** The revisions in the order they arrived are the log. */
  ghost predicate Recorded(s: Store, order: seq<Revision>) {
    && (forall r :: r in order <==> Logged(s, r))
    && forall i, j :: 0 <= i < j < |order| && order[i].resultId == order[j].resultId ==> order[i].revision < order[j].revision
  }

  /** Every replaying commit was of a revision that had arrived by then. */
  ghost predicate RepairsKnown(s: Store, repairs: set<Repair>, order: seq<Revision>) {
    forall x :: x in repairs ==> Logged(s, x.rev) && x.seen <= |order| && x.rev in order[..x.seen]
  }

  ghost function Residue(env: Env, s: Store, repairs: set<Repair>, order: seq<Revision>, c: Cell): (rows: set<Revision>)
    ensures forall k :: k in rows <==> Lingers(env, s, repairs, order, c, k)
  {
    set i | i in s.log && Lingers(env, s, repairs, order, c, s.log[i]) :: s.log[i]
  }

  /** The live value is at least the best of everything that may be folded in, and at most the best
      of what has been applied. */
  ghost predicate Enclosed(env: Env, s: Store, past: Past, c: Cell) {
    && AtMost(Best(Floor(env, c), Rows(env, s, c) + Residue(env, s, past.repairs, past.order, c)), Get(s.live, c))
    && AtMost(Get(s.live, c), Best(Floor(env, c), past.applied * Rows(env, s, c)))
  }

  ghost predicate LiveInv(env: Env, s: Store, past: Past) {
    forall c: Cell {:trigger Enclosed(env, s, past, c)} :: c.scope != "" ==> Enclosed(env, s, past, c)
  }

  /** `x` committed before `g` arrived, and its row is current and later than `g`. */
  ghost predicate Precedes(env: Env, s: Store, order: seq<Revision>, x: Repair, g: Revision) {
    && IsHead(s, x.rev) && Eligible(env, x.rev) && x.rev.event == g.event && x.rev.kind == g.kind
    && Before(g, x.rev) && x.seen <= |order| && g !in order[..x.seen]
  }

  /** Whoever classifies `g` must find that it needs a repair. */
  ghost predicate Obliged(env: Env, s: Store, order: seq<Revision>, repairs: set<Repair>, g: Revision) {
    g.revision > 1 || exists x :: x in repairs && Precedes(env, s, order, x, g)
  }

  ghost predicate Repaired(repairs: set<Repair>, g: Revision) {
    exists n :: Repair(g, n) in repairs
  }

  /** Every revision that had to repair when it committed did, and every worker about to commit one will. */
  ghost predicate ObligationsMet(env: Env, a: Sys) {
    && (forall x :: x in a.repairs ==> x.rev in a.applied)
    && (forall g :: g in a.applied && !IsAbsorbed(env, g) && Obliged(env, a.store, a.appended, a.repairs, g) ==> Repaired(a.repairs, g))
    && (forall w :: w in a.workers ==> ReadyAsObliged(env, a, a.workers[w]))
  }

  ghost predicate ReadyAsObliged(env: Env, a: Sys, p: Phase) {
    p.Ready? && p.row in a.store.log && Obliged(env, a.store, a.appended, a.repairs, a.store.log[p.row]) ==> p.repair
  }

  ghost predicate Outdated(s: Store, k: RowId) {
    HeadRevision(s, k.result) > k.revision
  }

  ghost predicate AppliedRow(a: Sys, k: RowId) {
    k in a.store.log && a.store.log[k] in a.applied
  }

  ghost predicate PhaseInv(env: Env, a: Sys, p: Phase) {
    (!p.Idle? ==> p.row in a.store.log && p.row in a.work) &&
    match p
    case Idle => true
    case Claimed(_) => true
    case Loaded(k, headSeen) => headSeen <= HeadRevision(a.store, k.result)
    case Materialised(k, headSeen) => headSeen <= HeadRevision(a.store, k.result) && k in a.store.processed
    case Ready(k, repair) => k in a.store.processed && !IsAbsorbed(env, a.store.log[k]) && (k.revision > 1 ==> repair)
    case Historic(k, verdict, _) => k in a.store.processed && if verdict then AppliedRow(a, k) else Outdated(a.store, k)
    case Returned(k, verdict) => if verdict then AppliedRow(a, k) else Outdated(a.store, k)
  }

  ghost predicate WorkersInv(env: Env, a: Sys) {
    forall w :: w in a.workers ==> PhaseInv(env, a, a.workers[w])
  }

  /** Completed work has been applied; stale work has been overtaken. */
  ghost predicate VerdictsInv(a: Sys) {
    && a.work.Keys == a.store.log.Keys
    && (forall k :: k in a.work && a.work[k].status == Completed ==> AppliedRow(a, k))
    && (forall k :: k in a.work && a.work[k].status == Stale ==> Outdated(a.store, k))
  }

  ghost predicate QueueInv(env: Env, a: Sys) {
    && StoreInv(env, a.store)
    && AppliedProjected(a.store, a.applied)
    && WorkersInv(env, a)
    && VerdictsInv(a)
    && Disciplined(a.work)
  }

  ghost predicate Inv(env: Env, a: Sys) {
    && QueueInv(env, a)
    && Recorded(a.store, a.appended)
    && RepairsKnown(a.store, a.repairs, a.appended)
    && ObligationsMet(env, a)
    && LiveInv(env, a.store, PastOf(a))
  }

  // -------- Appending a revision --------

  lemma NextIsFresh(s: Store, rev: Revision)
    requires NumberedToHead(s) && IsNext(s, rev)
    ensures Id(rev) !in s.log
  {
    assert Id(rev).result == rev.resultId && Id(rev).revision == rev.revision;
  }

  lemma AppendKeepsNumbers(s: Store, rev: Revision)
    requires NumberedToHead(s) && HeadsLogged(s) && IsNext(s, rev)
    ensures NumberedToHead(Appended(s, rev))
  {
    var t := Appended(s, rev);
    forall id, n | id in t.heads && 1 <= n <= t.heads[id].revision
      ensures RowId(id, n) in t.log
    {
      if id == rev.resultId && n == rev.revision {
        assert RowId(id, n) == Id(rev);
      }
    }
    forall k | k in t.log
      ensures k.result in t.heads && 1 <= k.revision <= t.heads[k.result].revision
    {
      if k != Id(rev) {
        assert k in s.log;
      }
    }
  }

  lemma AppendKeepsHeads(s: Store, rev: Revision)
    requires HeadsLogged(s) && IsNext(s, rev)
    ensures HeadsLogged(Appended(s, rev))
  {
    var t := Appended(s, rev);
    forall id | id in t.heads
      ensures var k := RowId(id, t.heads[id].revision);
              t.heads[id].revision >= 1 && k in t.log && t.log[k].status == t.heads[id].status
    {
      if id != rev.resultId {
        assert id in s.heads;
        assert RowId(id, s.heads[id].revision) != Id(rev);
      }
    }
  }

  lemma AppendKeepsNumbered(s: Store, rev: Revision)
    requires Numbered(s) && IsNext(s, rev)
    ensures Numbered(Appended(s, rev))
  {
    NextIsFresh(s, rev);
    AppendKeepsNumbers(s, rev);
    AppendKeepsHeads(s, rev);
  }

  lemma AppendKeepsProjections(env: Env, s: Store, rev: Revision)
    requires ProjectionsMatchLog(env, s) && Id(rev) !in s.log
    ensures ProjectionsMatchLog(env, Appended(s, rev))
  {
  }

  lemma AppendKeepsStore(env: Env, s: Store, rev: Revision)
    requires StoreInv(env, s) && IsNext(s, rev)
    ensures StoreInv(env, Appended(s, rev))
    ensures Id(rev) !in s.log && Id(rev) !in s.processed
  {
    var t := Appended(s, rev);
    NextIsFresh(s, rev);
    AppendKeepsNumbered(s, rev);
    AppendKeepsProjections(env, s, rev);
    forall r | Logged(t, r) && IsHead(t, r) && Id(r) in t.processed
      ensures Projected(t, Id(r))
    {
      assert r.resultId != rev.resultId;
      assert Logged(s, r) && IsHead(s, r);
    }
  }

  lemma CountedIsLogged(env: Env, s: Store, r: Revision, c: Cell)
    requires ProjectionsMatchLog(env, s) && Counts(env, s, r, c) && c.scope != ""
    ensures Logged(s, r) && c in Footprint(env, r)
  {
  }

  /** Appending a head can only take its own result's row out of a timeline. */
  lemma AppendShrinksRows(env: Env, s: Store, rev: Revision, c: Cell, r: Revision)
    requires StoreInv(env, s) && IsNext(s, rev) && c.scope != ""
    ensures Counts(env, Appended(s, rev), r, c) ==> Counts(env, s, r, c)
    ensures Counts(env, s, r, c) && !Counts(env, Appended(s, rev), r, c) ==> r.resultId == rev.resultId
  {
    NextIsFresh(s, rev);
    assert Id(rev) !in s.processed;
  }

  lemma OtherOvertaken(env: Env, s: Store, rev: Revision, c: Cell, h: Revision, k: Revision)
    requires Id(rev) !in s.log && h.resultId != rev.resultId && Overtaken(env, s, c, h, k)
    ensures Overtaken(env, Appended(s, rev), c, h, k)
  {
  }

  /** No commit so far came after the revision arriving now. */
  lemma NothingClearsLast(s: Store, rev: Revision, repairs: set<Repair>, order: seq<Revision>, x: Repair, k: Revision)
    requires NumberedToHead(s) && IsNext(s, rev) && RepairsKnown(s, repairs, order) && x in repairs
    requires Recorded(s, order) && k.resultId == rev.resultId && k.revision + 1 == rev.revision
    ensures !OvertakenBefore(order + [rev], x.seen, k)
  {
    NextIsFresh(s, rev);
    forall i | 0 <= i < x.seen && i < |order + [rev]|
      ensures Id((order + [rev])[i]) != RowId(k.resultId, k.revision + 1)
    {
      assert order[i] in order && Id(order[i]) != Id(rev);
    }
  }

  lemma NewlyOvertaken(env: Env, s: Store, rev: Revision, repairs: set<Repair>, order: seq<Revision>, c: Cell, k: Revision)
    requires NumberedToHead(s) && IsNext(s, rev) && RepairsKnown(s, repairs, order) && Recorded(s, order)
    requires Logged(s, k) && IsHead(s, k) && k.resultId == rev.resultId && RevisionIsValid(k) && c in Footprint(env, k)
    ensures Lingers(env, Appended(s, rev), repairs, order + [rev], c, k)
  {
    LoggedBelowNext(s, rev, k);
    assert Overtaken(env, Appended(s, rev), c, rev, k);
    forall x | x in repairs
      ensures !Clears(env, Appended(s, rev), order + [rev], c, x, k)
    {
      NothingClearsLast(s, rev, repairs, order, x, k);
    }
  }

  lemma AppendKeepsOvertaken(env: Env, s: Store, rev: Revision, repairs: set<Repair>, order: seq<Revision>, c: Cell, k: Revision)
    requires Numbered(s) && IsNext(s, rev) && RepairsKnown(s, repairs, order)
    requires Lingers(env, s, repairs, order, c, k)
    ensures Lingers(env, Appended(s, rev), repairs, order + [rev], c, k)
  {
    NextIsFresh(s, rev);
    var h :| Overtaken(env, s, c, h, k);
    if h.resultId == rev.resultId {
      LoggedBelowNext(s, rev, k);
      assert Overtaken(env, Appended(s, rev), c, rev, k);
    } else {
      OtherOvertaken(env, s, rev, c, h, k);
    }
    forall x | x in repairs
      ensures !Clears(env, Appended(s, rev), order + [rev], c, x, k)
    {
      AppendClearsNothing(env, s, rev, order, c, x, k);
    }
  }

  lemma AppendClearsNothing(env: Env, s: Store, rev: Revision, order: seq<Revision>, c: Cell, x: Repair, k: Revision)
    requires Numbered(s) && IsNext(s, rev) && Logged(s, x.rev) && x.seen <= |order|
    requires !Clears(env, s, order, c, x, k)
    ensures !Clears(env, Appended(s, rev), order + [rev], c, x, k)
  {
    AppendKeepsTouched(env, s, rev, x.rev);
    if OvertakenBefore(order + [rev], x.seen, k) {
      var i :| 0 <= i < x.seen && i < |order + [rev]| && Id((order + [rev])[i]) == RowId(k.resultId, k.revision + 1);
      assert Id(order[i]) == RowId(k.resultId, k.revision + 1);
    }
  }

  lemma LoggedBelowNext(s: Store, rev: Revision, k: Revision)
    requires NumberedToHead(s) && IsNext(s, rev) && Logged(s, k) && k.resultId == rev.resultId
    ensures k.revision < rev.revision && Id(k) != Id(rev) && Logged(Appended(s, rev), k)
  {
    assert Id(k) in s.log;
  }

  lemma AppendKeepsTouched(env: Env, s: Store, rev: Revision, r: Revision)
    requires Numbered(s) && IsNext(s, rev) && Logged(s, r)
    ensures Touched(env, Appended(s, rev), r) == Touched(env, s, r)
  {
    NextIsFresh(s, rev);
    assert Previous(Appended(s, rev), r) == Previous(s, r) by {
      if r.revision > 1 {
        assert Id(r) in s.log;
        assert RowId(r.resultId, r.revision - 1) in s.log;
      }
    }
  }

  /** A row taken out of its timeline by a newer head lingers until something replays the cell. */
  lemma AppendKeepsLow(env: Env, s: Store, rev: Revision, repairs: set<Repair>, order: seq<Revision>, c: Cell)
    requires StoreInv(env, s) && IsNext(s, rev) && RepairsKnown(s, repairs, order) && Recorded(s, order) && c.scope != ""
    ensures var t := Appended(s, rev);
            Rows(env, s, c) + Residue(env, s, repairs, order, c) <= Rows(env, t, c) + Residue(env, t, repairs, order + [rev], c)
  {
    var t := Appended(s, rev);
    forall r | r in Rows(env, s, c) + Residue(env, s, repairs, order, c)
      ensures r in Rows(env, t, c) + Residue(env, t, repairs, order + [rev], c)
    {
      if r in Residue(env, s, repairs, order, c) {
        AppendKeepsOvertaken(env, s, rev, repairs, order, c, r);
      } else if r !in Rows(env, t, c) {
        AppendShrinksRows(env, s, rev, c, r);
        CountedIsLogged(env, s, r, c);
        NewlyOvertaken(env, s, rev, repairs, order, c, r);
      }
    }
  }

  lemma AppendKeepsLive(env: Env, s: Store, rev: Revision, past: Past)
    requires StoreInv(env, s) && IsNext(s, rev) && RepairsKnown(s, past.repairs, past.order) && Recorded(s, past.order)
    requires LiveInv(env, s, past)
    ensures LiveInv(env, Appended(s, rev), past.(order := past.order + [rev]))
  {
    var t, later := Appended(s, rev), past.(order := past.order + [rev]);
    forall c: Cell | c.scope != ""
      ensures Enclosed(env, t, later, c)
    {
      assert Enclosed(env, s, past, c);
      AppendKeepsLow(env, s, rev, past.repairs, past.order, c);
      assert Rows(env, t, c) <= Rows(env, s, c) by {
        forall r | r in Rows(env, t, c)
          ensures r in Rows(env, s, c)
        {
          AppendShrinksRows(env, s, rev, c, r);
        }
      }
      Widen(Floor(env, c), Rows(env, s, c) + Residue(env, s, past.repairs, past.order, c),
            Rows(env, t, c) + Residue(env, t, past.repairs, later.order, c),
            past.applied * Rows(env, s, c), past.applied * Rows(env, t, c), Get(s.live, c));
    }
  }

  /** More rows below and fewer above keep a value enclosed. */
  lemma Widen(floor: Option<int>, low: set<Revision>, low': set<Revision>, high: set<Revision>, high': set<Revision>,
              live: Option<int>)
    requires AtMost(Best(floor, low), live) && AtMost(live, Best(floor, high))
    requires low <= low' && high' <= high
    ensures AtMost(Best(floor, low'), live) && AtMost(live, Best(floor, high'))
  {
    BestIsMonotone(floor, low', floor, low);
    BestIsMonotone(floor, high, floor, high');
  }

  // -------- Classifier transactions --------

  lemma NumberedFrame(s: Store, t: Store)
    requires Numbered(s) && s.heads == t.heads && s.log == t.log
    ensures Numbered(t)
  {
  }

  lemma MaterialiseKeepsFaithful(env: Env, s: Store, rev: Revision, r: Revision)
    requires NumberedToHead(s) && HeadsFaithful(s) && Logged(s, rev)
    requires Logged(s, r) && IsHead(s, r) && Id(r) in Materialized(env, s, rev).processed
    ensures Projected(Materialized(env, s, rev), Id(r))
  {
    assert Materialized(env, s, rev).processed[Id(r)] == ProjectionAfter(s, rev, Id(r));
    assert Id(rev) in s.log;
    assert !IsSuperseded(s, rev, Id(r));
  }

  lemma MaterialiseKeepsStore(env: Env, s: Store, rev: Revision)
    requires StoreInv(env, s) && Logged(s, rev)
    ensures StoreInv(env, Materialized(env, s, rev))
  {
    var t := Materialized(env, s, rev);
    NumberedFrame(s, t);
    MaterializedKeepsProjections(env, s, rev);
    forall r | Logged(t, r) && IsHead(t, r) && Id(r) in t.processed
      ensures Projected(t, Id(r))
    {
      assert Logged(s, r) && IsHead(s, r);
      MaterialiseKeepsFaithful(env, s, rev, r);
    }
  }

  lemma ResidueFrame(env: Env, s: Store, t: Store, repairs: set<Repair>, order: seq<Revision>, c: Cell)
    requires s.heads == t.heads && s.log == t.log
    ensures Residue(env, s, repairs, order, c) == Residue(env, t, repairs, order, c)
  {
    forall h, k
      ensures Overtaken(env, s, c, h, k) == Overtaken(env, t, c, h, k)
      ensures Touched(env, s, h) == Touched(env, t, h)
    {
    }
    forall k
      ensures Lingers(env, s, repairs, order, c, k) == Lingers(env, t, repairs, order, c, k)
    {
    }
  }

  lemma MaterialiseKeepsCell(env: Env, s: Store, rev: Revision, past: Past, c: Cell)
    requires ProjectionsMatchLog(env, s) && HeadAgrees(s, rev) && Enclosed(env, s, past, c)
    requires rev in past.applied && Joins(env, s, rev, c) ==> rev in Rows(env, s, c)
    ensures Enclosed(env, Materialized(env, s, rev), past, c)
  {
    var t := Materialized(env, s, rev);
    ResidueFrame(env, s, t, past.repairs, past.order, c);
    MaterializedRows(env, s, rev, c);
    Widen(Floor(env, c), Rows(env, s, c) + Residue(env, s, past.repairs, past.order, c),
          Rows(env, t, c) + Residue(env, t, past.repairs, past.order, c),
          past.applied * Rows(env, s, c), past.applied * Rows(env, t, c), Get(s.live, c));
  }

  lemma MaterialiseKeepsLive(env: Env, s: Store, rev: Revision, past: Past)
    requires StoreInv(env, s) && Logged(s, rev) && AppliedProjected(s, past.applied) && LiveInv(env, s, past)
    ensures LiveInv(env, Materialized(env, s, rev), past)
  {
    NumberedHeads(s);
    assert HeadAgrees(s, rev);
    forall c: Cell | c.scope != ""
      ensures Enclosed(env, Materialized(env, s, rev), past, c)
    {
      assert Enclosed(env, s, past, c);
      if rev in past.applied && Joins(env, s, rev, c) {
        assert Projected(s, Id(rev));
        assert rev in Rows(env, s, c);
      }
      MaterialiseKeepsCell(env, s, rev, past, c);
    }
  }

  lemma FaithfulFrame(s: Store, t: Store)
    requires HeadsFaithful(s) && s.heads == t.heads && s.log == t.log && s.processed == t.processed
    ensures HeadsFaithful(t)
  {
    forall r | Logged(t, r) && IsHead(t, r) && Id(r) in t.processed
      ensures Projected(t, Id(r))
    {
      assert Logged(s, r) && IsHead(s, r);
      assert Projected(s, Id(r));
    }
  }

  lemma LevelSavedTables(env: Env, s: Store, rev: Revision, level: Level)
    ensures var t := LevelSaved(env, s, rev, level);
            && t.heads == s.heads && t.log == s.log && t.processed == s.processed && t.live == s.live && t.levels.Keys == s.levels.Keys
  {
  }

  /** The one row saved carries its revision's own scope. */
  lemma LevelSavedScope(env: Env, s: Store, rev: Revision, level: Level, l: LevelId)
    requires ProjectionsMatchLog(env, s) && Logged(s, rev) && l in s.levels
    ensures l in LevelSaved(env, s, rev, level).levels && LevelSaved(env, s, rev, level).levels[l].scope == s.levels[l].scope
  {
  }

  lemma ScopesFrame(env: Env, s: Store, t: Store)
    requires ProjectionsMatchLog(env, s) && t.log == s.log && t.processed == s.processed && t.levels.Keys == s.levels.Keys
    requires forall l {:trigger t.levels[l]} :: l in s.levels ==> t.levels[l].scope == s.levels[l].scope
    ensures ProjectionsMatchLog(env, t)
  {
  }

  lemma LevelSavedProjections(env: Env, s: Store, rev: Revision, level: Level)
    requires ProjectionsMatchLog(env, s) && Logged(s, rev)
    ensures ProjectionsMatchLog(env, LevelSaved(env, s, rev, level))
  {
    LevelSavedTables(env, s, rev, level);
    forall l | l in s.levels
      ensures LevelSaved(env, s, rev, level).levels[l].scope == s.levels[l].scope
    {
      LevelSavedScope(env, s, rev, level, l);
    }
    ScopesFrame(env, s, LevelSaved(env, s, rev, level));
  }

  lemma LevelSavedKeepsStore(env: Env, s: Store, rev: Revision, level: Level)
    requires StoreInv(env, s) && Logged(s, rev)
    ensures StoreInv(env, LevelSaved(env, s, rev, level))
  {
    LevelSavedTables(env, s, rev, level);
    LevelSavedProjections(env, s, rev, level);
    FramedStore(env, s, LevelSaved(env, s, rev, level));
  }

  lemma FramedStore(env: Env, s: Store, t: Store)
    requires StoreInv(env, s) && ProjectionsMatchLog(env, t)
    requires t.heads == s.heads && t.log == s.log && t.processed == s.processed
    ensures StoreInv(env, t)
  {
    NumberedFrame(s, t);
    FaithfulFrame(s, t);
  }

  /** Level rows are not part of any timeline, so saving one changes no bound. */
  lemma LiveFrame(env: Env, s: Store, t: Store, past: Past)
    requires LiveInv(env, s, past)
    requires t.heads == s.heads && t.log == s.log && t.processed == s.processed && t.live == s.live
    ensures LiveInv(env, t, past)
  {
    forall c: Cell | c.scope != ""
      ensures Enclosed(env, t, past, c)
    {
      ResidueFrame(env, s, t, past.repairs, past.order, c);
      RowsFrame(env, s, t, c);
      assert Enclosed(env, s, past, c);
    }
  }

  /** Applying an absorbed revision repairs nothing and adds no row. */
  lemma AbsorbedKeepsLive(env: Env, s: Store, past: Past, rev: Revision)
    requires IsAbsorbed(env, rev) && LiveInv(env, s, past)
    ensures LiveInv(env, s, past.(applied := past.applied + {rev}))
  {
    var after := past.(applied := past.applied + {rev});
    forall c: Cell | c.scope != ""
      ensures Enclosed(env, s, after, c)
    {
      assert Enclosed(env, s, past, c);
      assert rev !in Rows(env, s, c);
      assert after.applied * Rows(env, s, c) == past.applied * Rows(env, s, c);
    }
  }

  lemma CommitKeepsStore(env: Env, s: Store, rev: Revision, repair: bool)
    requires StoreInv(env, s) && Logged(s, rev)
    ensures StoreInv(env, Committed(env, s, rev, repair))
  {
    CommittedFrame(env, s, rev, repair);
    CommittedKeepsProjections(env, s, rev, repair);
    FramedStore(env, s, Committed(env, s, rev, repair));
  }

  /** What has happened once a commit has. */
  function PastCommit(past: Past, rev: Revision, repair: bool): Past {
    Past(past.applied + {rev}, past.order, if repair then past.repairs + {Repair(rev, |past.order|)} else past.repairs)
  }

  /** A commit only clears residue, and only where it repairs. */
  lemma CommitResidue(env: Env, s: Store, past: Past, rev: Revision, repair: bool, c: Cell)
    requires NumberedToHead(s) && Logged(s, rev) && IsHead(s, rev) && !IsAbsorbed(env, rev)
    ensures var residue := Residue(env, s, past.repairs, past.order, c);
            var residue' := Residue(env, s, PastCommit(past, rev, repair).repairs, past.order, c);
            residue' <= residue && (!repair || c !in Affected(env, s, rev) ==> residue' == residue)
  {
    var repairs' := PastCommit(past, rev, repair).repairs;
    forall k | Lingers(env, s, past.repairs, past.order, c, k) && (!repair || c !in Affected(env, s, rev))
      ensures Lingers(env, s, repairs', past.order, c, k)
    {
      assert c !in Affected(env, s, rev) ==> !Clears(env, s, past.order, c, Repair(rev, |past.order|), k);
    }
  }

  lemma CommitKeepsCell(env: Env, s: Store, past: Past, rev: Revision, repair: bool, c: Cell)
    requires NumberedToHead(s) && HeadProjection(s, rev) && !IsAbsorbed(env, rev) && c.scope != ""
    requires Enclosed(env, s, past, c)
    ensures Enclosed(env, Committed(env, s, rev, repair), PastCommit(past, rev, repair), c)
  {
    var t, after := Committed(env, s, rev, repair), PastCommit(past, rev, repair);
    var floor, rows, live := Floor(env, c), Rows(env, s, c), Get(s.live, c);
    var residue, residue' := Residue(env, s, past.repairs, past.order, c), Residue(env, s, after.repairs, past.order, c);
    CommittedFrame(env, s, rev, repair);
    ResidueFrame(env, s, t, after.repairs, past.order, c);
    CommitResidue(env, s, past, rev, repair, c);
    CommittedLive(env, s, rev, repair, c);
    HeadInItsRows(env, s, rev, c);
    if repair && c in Affected(env, s, rev) {
      BestIsMonotone(floor, rows + residue', floor, rows);
      BestIsMonotone(floor, rows, floor, after.applied * rows);
    } else {
      assert residue' == residue;
      FoldStaysAbove(floor, rows + residue, live, rev, rev in rows);
      FoldStaysBelow(floor, rows, past.applied, live, rev);
    }
  }

  function Folded(live: Option<int>, rev: Revision, counted: bool): Option<int> {
    if counted && Compare(rev.value, live) == Broken then Some(rev.value) else live
  }

  lemma FoldStaysAbove(floor: Option<int>, low: set<Revision>, live: Option<int>, rev: Revision, counted: bool)
    requires AtMost(Best(floor, low), live) && (counted ==> rev in low)
    ensures AtMost(Best(floor, low), Folded(live, rev, counted))
  {
    assert IsBest(floor, low, Best(floor, low));
  }

  lemma FoldStaysBelow(floor: Option<int>, rows: set<Revision>, applied: set<Revision>, live: Option<int>, rev: Revision)
    requires AtMost(live, Best(floor, applied * rows))
    ensures AtMost(Folded(live, rev, rev in rows), Best(floor, (applied + {rev}) * rows))
  {
    if rev in rows {
      assert (applied + {rev}) * rows == applied * rows + {rev};
      BestWith(floor, applied * rows, rev);
    } else {
      assert (applied + {rev}) * rows == applied * rows;
    }
  }

  lemma CommitKeepsLive(env: Env, s: Store, past: Past, rev: Revision, repair: bool)
    requires StoreInv(env, s) && LiveInv(env, s, past)
    requires Logged(s, rev) && IsHead(s, rev) && Id(rev) in s.processed && !IsAbsorbed(env, rev)
    ensures LiveInv(env, Committed(env, s, rev, repair), PastCommit(past, rev, repair))
  {
    NumberedHeads(s);
    assert HeadProjection(s, rev) by {
      assert Projected(s, Id(rev));
      assert HeadAgrees(s, rev);
    }
    forall c: Cell | c.scope != ""
      ensures Enclosed(env, Committed(env, s, rev, repair), PastCommit(past, rev, repair), c)
    {
      assert Enclosed(env, s, past, c);
      CommitKeepsCell(env, s, past, rev, repair, c);
    }
  }

  // -------- Steps --------

  /** What every step does to the tables other workers rely on. */
  ghost predicate Grows(a: Sys, b: Sys) {
    && a.store.log.Keys <= b.store.log.Keys
    && (forall k :: k in a.store.log ==> b.store.log[k] == a.store.log[k])
    && (forall id :: HeadRevision(a.store, id) <= HeadRevision(b.store, id))
    && a.store.processed.Keys <= b.store.processed.Keys
    && a.applied <= b.applied
    && a.work.Keys <= b.work.Keys
  }

  lemma PhaseStable(env: Env, a: Sys, b: Sys, p: Phase)
    requires Grows(a, b) && PhaseInv(env, a, p)
    ensures PhaseInv(env, b, p)
  {
  }

  lemma PhaseSound(env: Env, a: Sys, w: nat)
    requires WorkersInv(env, a)
    ensures PhaseInv(env, a, PhaseOf(a, w))
  {
  }

  lemma RowLogged(a: Sys, k: RowId)
    requires LogKeysMatch(a.store) && k in a.store.log
    ensures Logged(a.store, a.store.log[k]) && Id(a.store.log[k]) == k
  {
  }

  // What each step does to the tables.

  lemma StepKeepsStore(env: Env, a: Sys, e: Event)
    requires StoreInv(env, a.store) && Enabled(a, e)
    ensures StoreInv(env, Next(env, a, e).store)
  {
    if e.Append? {
      AppendKeepsStore(env, a.store, e.rev);
    } else if e.Materialise? || e.SaveLevel? {
      ProjectionStepKeepsStore(env, a, e);
    } else if e.Commit? {
      CommitStepKeepsStore(env, a, e);
    } else {
      TablesUntouched(env, a, e);
    }
  }

  lemma ProjectionStepKeepsStore(env: Env, a: Sys, e: Event)
    requires StoreInv(env, a.store) && Enabled(a, e) && (e.Materialise? || e.SaveLevel?)
    ensures StoreInv(env, Next(env, a, e).store)
  {
    var rev := RevisionOf(a, PhaseOf(a, e.worker).row);
    RowLogged(a, PhaseOf(a, e.worker).row);
    if e.Materialise? {
      MaterialiseKeepsStore(env, a.store, rev);
    } else {
      LevelSavedKeepsStore(env, a.store, rev, RECORD_LEVELS[PhaseOf(a, e.worker).saved]);
    }
  }

  lemma CommitStepKeepsStore(env: Env, a: Sys, e: Event)
    requires StoreInv(env, a.store) && Enabled(a, e) && e.Commit?
    ensures StoreInv(env, Next(env, a, e).store)
  {
    CommitStepWrites(env, a, e);
    RowLogged(a, PhaseOf(a, e.worker).row);
    CommitKeepsStore(env, a.store, RevisionOf(a, PhaseOf(a, e.worker).row), PhaseOf(a, e.worker).repair);
  }

  lemma CommitStepWrites(env: Env, a: Sys, e: Event)
    requires Enabled(a, e) && e.Commit?
    ensures var rev, repair := RevisionOf(a, PhaseOf(a, e.worker).row), PhaseOf(a, e.worker).repair;
            Next(env, a, e).store == if IsHead(a.store, rev) then Committed(env, a.store, rev, repair) else a.store
  {
  }

  lemma TablesUntouched(env: Env, a: Sys, e: Event)
    requires Enabled(a, e) && !e.Append? && !e.Materialise? && !e.SaveLevel? && !e.Commit?
    ensures Next(env, a, e).store == a.store
  {
  }

  lemma StepGrows(env: Env, a: Sys, e: Event)
    requires NumberedToHead(a.store) && Enabled(a, e)
    ensures Grows(a, Next(env, a, e))
  {
    if e.Append? {
      AppendGrows(env, a, e);
    } else if e.Commit? {
      CommittedFrame(env, a.store, RevisionOf(a, PhaseOf(a, e.worker).row), PhaseOf(a, e.worker).repair);
    } else if e.Materialise? || e.SaveLevel? {
      ProjectionGrows(env, a, e);
    } else {
      TablesUntouched(env, a, e);
    }
  }

  lemma ProjectionGrows(env: Env, a: Sys, e: Event)
    requires Enabled(a, e) && (e.Materialise? || e.SaveLevel?)
    ensures Grows(a, Next(env, a, e))
  {
  }

  lemma AppendGrows(env: Env, a: Sys, e: Event)
    requires NumberedToHead(a.store) && Enabled(a, e) && e.Append?
    ensures Grows(a, Next(env, a, e))
  {
    NextIsFresh(a.store, e.rev);
  }

  lemma StepKeepsApplied(env: Env, a: Sys, e: Event)
    requires LogKeysMatch(a.store) && NumberedToHead(a.store) && AppliedProjected(a.store, a.applied) && WorkersInv(env, a) && Enabled(a, e)
    ensures AppliedProjected(Next(env, a, e).store, Next(env, a, e).applied)
  {
    var b := Next(env, a, e);
    StepGrows(env, a, e);
    forall r | r in b.applied
      ensures Logged(b.store, r) && Id(r) in b.store.processed
    {
      if r !in a.applied {
        PhaseSound(env, a, e.worker);
        RowLogged(a, PhaseOf(a, e.worker).row);
      }
    }
  }

  lemma CommitKeepsOwnPhase(env: Env, a: Sys, e: Event)
    requires LogKeysMatch(a.store) && NumberedToHead(a.store) && a.work.Keys == a.store.log.Keys
    requires Enabled(a, e) && e.Commit? && PhaseInv(env, a, PhaseOf(a, e.worker))
    ensures PhaseInv(env, Next(env, a, e), PhaseOf(Next(env, a, e), e.worker))
  {
    var rev := RevisionOf(a, PhaseOf(a, e.worker).row);
    RowLogged(a, PhaseOf(a, e.worker).row);
    CommittedFrame(env, a.store, rev, PhaseOf(a, e.worker).repair);
    NotHeadIsOutdated(a.store, rev);
  }

  /** The phase a step leaves its own worker in is sound. */
  lemma StepKeepsOwnPhase(env: Env, a: Sys, e: Event)
    requires LogKeysMatch(a.store) && NumberedToHead(a.store) && a.work.Keys == a.store.log.Keys
    requires Enabled(a, e) && !e.Append? && PhaseInv(env, a, PhaseOf(a, e.worker))
    ensures PhaseInv(env, Next(env, a, e), PhaseOf(Next(env, a, e), e.worker))
  {
    if e.Commit? {
      CommitKeepsOwnPhase(env, a, e);
    } else if e.SaveLevel? {
      StepGrows(env, a, e);
      PhaseStable(env, a, Next(env, a, e), PhaseOf(a, e.worker));
    } else if e.Decide? {
      DecideKeepsOwnPhase(env, a, e);
    } else {
      OtherKeepsOwnPhase(env, a, e);
    }
  }

  lemma DecideKeepsOwnPhase(env: Env, a: Sys, e: Event)
    requires LogKeysMatch(a.store) && Enabled(a, e) && e.Decide? && PhaseInv(env, a, PhaseOf(a, e.worker))
    ensures PhaseInv(env, Next(env, a, e), PhaseOf(Next(env, a, e), e.worker))
  {
    RowLogged(a, PhaseOf(a, e.worker).row);
  }

  lemma OtherKeepsOwnPhase(env: Env, a: Sys, e: Event)
    requires !e.Append? && !e.Commit? && !e.SaveLevel? && !e.Decide? && LogKeysMatch(a.store)
    requires a.work.Keys == a.store.log.Keys && Enabled(a, e) && PhaseInv(env, a, PhaseOf(a, e.worker))
    ensures PhaseInv(env, Next(env, a, e), PhaseOf(Next(env, a, e), e.worker))
  {
  }

  lemma NotHeadIsOutdated(s: Store, rev: Revision)
    requires NumberedToHead(s) && Logged(s, rev)
    ensures IsHead(s, rev) || Outdated(s, Id(rev))
  {
    assert Id(rev) in s.log;
  }

  lemma StepMovesOneWorker(env: Env, a: Sys, e: Event)
    requires Enabled(a, e)
    ensures forall w :: (e.Append? || w != e.worker) ==> PhaseOf(Next(env, a, e), w) == PhaseOf(a, w)
  {
  }

  lemma StepKeepsWorkers(env: Env, a: Sys, e: Event)
    requires LogKeysMatch(a.store) && NumberedToHead(a.store) && WorkersInv(env, a) && VerdictsInv(a) && Enabled(a, e)
    ensures WorkersInv(env, Next(env, a, e))
  {
    var b := Next(env, a, e);
    StepGrows(env, a, e);
    StepMovesOneWorker(env, a, e);
    forall w | w in b.workers
      ensures PhaseInv(env, b, b.workers[w])
    {
      if e.Append? || w != e.worker {
        PhaseSound(env, a, w);
        PhaseStable(env, a, b, PhaseOf(a, w));
      } else {
        PhaseSound(env, a, w);
        StepKeepsOwnPhase(env, a, e);
      }
    }
  }

  /** A work item is written only by a claim, a settlement or a failure of its own. */
  lemma StepWork(env: Env, a: Sys, e: Event, k: RowId)
    requires Enabled(a, e) && k in a.work
    ensures k in Next(env, a, e).work
    ensures Next(env, a, e).work[k] != a.work[k] ==>
              && (e.Claim? || e.Settle? || e.Fail?)
              && k == (if e.Claim? then e.row else PhaseOf(a, e.worker).row)
              && (e.Claim? ==> Next(env, a, e).work[k].status == Processing)
              && (e.Fail? ==> Next(env, a, e).work[k].status == Failed)
              && (e.Settle? ==> Next(env, a, e).work[k].status == if PhaseOf(a, e.worker).verdict then Completed else Stale)
  {
  }

  lemma StepKeepsVerdict(env: Env, a: Sys, e: Event, k: RowId)
    requires WorkersInv(env, a) && VerdictsInv(a) && Enabled(a, e) && k in a.work && Grows(a, Next(env, a, e))
    ensures var b := Next(env, a, e);
            && k in b.work
            && (b.work[k].status == Completed ==> AppliedRow(b, k))
            && (b.work[k].status == Stale ==> Outdated(b.store, k))
  {
    StepWork(env, a, e, k);
    if Next(env, a, e).work[k] != a.work[k] && e.Settle? {
      PhaseSound(env, a, e.worker);
    }
  }

  lemma StepKeepsVerdicts(env: Env, a: Sys, e: Event)
    requires NumberedToHead(a.store) && WorkersInv(env, a) && VerdictsInv(a) && Enabled(a, e)
    ensures VerdictsInv(Next(env, a, e))
  {
    var b := Next(env, a, e);
    StepGrows(env, a, e);
    StepKeepsKeys(env, a, e);
    forall k | k in b.work
      ensures b.work[k].status == Completed ==> AppliedRow(b, k)
      ensures b.work[k].status == Stale ==> Outdated(b.store, k)
    {
      if k in a.work {
        StepKeepsVerdict(env, a, e, k);
      }
    }
  }

  lemma StepKeepsKeys(env: Env, a: Sys, e: Event)
    requires Enabled(a, e) && a.work.Keys == a.store.log.Keys
    requires WorkersInv(env, a)
    ensures Next(env, a, e).work.Keys == Next(env, a, e).store.log.Keys
    ensures forall k :: k in Next(env, a, e).work && k !in a.work ==> Next(env, a, e).work[k].status == WorkStatus.Pending
  {
    match e
    case Commit(w) =>
      CommittedFrame(env, a.store, RevisionOf(a, PhaseOf(a, w).row), PhaseOf(a, w).repair);
    case _ =>
  }

  lemma AppendKeepsDiscipline(s: Store, q: Queue, rev: Revision, created: int, pk: nat)
    requires NumberedToHead(s) && q.Keys == s.log.Keys && Disciplined(q) && IsNext(s, rev) && Id(rev) !in q
    ensures Disciplined(q[Id(rev) := Fresh(created, pk)])
  {
    forall j | j in q && j.result == rev.resultId
      ensures j.revision < rev.revision
    {
      assert j in s.log;
    }
    EnqueueKeepsOrder(q, Id(rev), Fresh(created, pk));
  }

  lemma StepKeepsDiscipline(env: Env, a: Sys, e: Event)
    requires NumberedToHead(a.store) && a.work.Keys == a.store.log.Keys && Disciplined(a.work) && Enabled(a, e)
    ensures Disciplined(Next(env, a, e).work)
  {
    match e
    case Append(rev, created, pk) => AppendKeepsDiscipline(a.store, a.work, rev, created, pk);
    case Claim(w, row, now, lease) => ClaimKeepsOrder(a.work, row, w, now, lease);
    case Settle(w) => SettleKeepsOrder(a.work, PhaseOf(a, w).row, w, PhaseOf(a, w).verdict);
    case Fail(w) => FailKeepsOrder(a.work, PhaseOf(a, w).row, w);
    case _ => QueueUntouched(env, a, e);
  }

  lemma QueueUntouched(env: Env, a: Sys, e: Event)
    requires Enabled(a, e) && !e.Append? && !e.Claim? && !e.Settle? && !e.Fail?
    ensures Next(env, a, e).work == a.work
  {
  }

  lemma StepKeepsQueue(env: Env, a: Sys, e: Event)
    requires QueueInv(env, a) && Enabled(a, e)
    ensures QueueInv(env, Next(env, a, e))
  {
    StepKeepsStore(env, a, e);
    StepKeepsApplied(env, a, e);
    StepKeepsWorkers(env, a, e);
    StepKeepsVerdicts(env, a, e);
    StepKeepsDiscipline(env, a, e);
  }

  // What each step does to the live cells.

  /** Every other step leaves the cells, the timelines and the applied heads alone. */
  lemma StepKeepsCells(env: Env, a: Sys, e: Event)
    requires Enabled(a, e)
    requires e.Claim? || e.Load? || e.SaveLevel? || e.Return? || e.Settle? || e.Fail? || e.Crash?
    ensures var b := Next(env, a, e);
            b.store.heads == a.store.heads && b.store.log == a.store.log && b.store.processed == a.store.processed
            && b.store.live == a.store.live && PastOf(b) == PastOf(a)
  {
  }

  lemma CommitStepKeepsLive(env: Env, a: Sys, e: Event)
    requires StoreInv(env, a.store) && LiveInv(env, a.store, PastOf(a))
    requires WorkersInv(env, a) && Enabled(a, e) && e.Commit?
    ensures LiveInv(env, Next(env, a, e).store, PastOf(Next(env, a, e)))
  {
    PhaseSound(env, a, e.worker);
    RowLogged(a, PhaseOf(a, e.worker).row);
    var rev, repair := RevisionOf(a, PhaseOf(a, e.worker).row), PhaseOf(a, e.worker).repair;
    if IsHead(a.store, rev) {
      CommitKeepsLive(env, a.store, PastOf(a), rev, repair);
      assert PastOf(Next(env, a, e)) == PastCommit(PastOf(a), rev, repair);
    }
  }

  lemma DecideStepKeepsLive(env: Env, a: Sys, e: Event)
    requires LiveInv(env, a.store, PastOf(a)) && LogKeysMatch(a.store)
    requires Enabled(a, e) && e.Decide?
    ensures LiveInv(env, Next(env, a, e).store, PastOf(Next(env, a, e)))
  {
    RowLogged(a, PhaseOf(a, e.worker).row);
    var rev := RevisionOf(a, PhaseOf(a, e.worker).row);
    if IsAbsorbed(env, rev) {
      AbsorbedKeepsLive(env, a.store, PastOf(a), rev);
    }
  }

  lemma StepKeepsLive(env: Env, a: Sys, e: Event)
    requires Inv(env, a) && Enabled(a, e)
    ensures LiveInv(env, Next(env, a, e).store, PastOf(Next(env, a, e)))
  {
    if e.Append? {
      AppendKeepsLive(env, a.store, e.rev, PastOf(a));
    } else if e.Materialise? {
      RowLogged(a, PhaseOf(a, e.worker).row);
      MaterialiseKeepsLive(env, a.store, RevisionOf(a, PhaseOf(a, e.worker).row), PastOf(a));
    } else if e.Decide? {
      DecideStepKeepsLive(env, a, e);
    } else if e.Commit? {
      CommitStepKeepsLive(env, a, e);
    } else {
      StepKeepsCells(env, a, e);
      LiveFrame(env, a.store, Next(env, a, e).store, PastOf(a));
    }
  }

  lemma AppendKeepsRecorded(s: Store, order: seq<Revision>, rev: Revision)
    requires NumberedToHead(s) && IsNext(s, rev) && Recorded(s, order)
    ensures Recorded(Appended(s, rev), order + [rev])
  {
    NextIsFresh(s, rev);
    var t, after := Appended(s, rev), order + [rev];
    forall r
      ensures r in after <==> Logged(t, r)
    {
      assert r in after <==> r in order || r == rev;
    }
    forall i, j | 0 <= i < j < |after| && after[i].resultId == after[j].resultId
      ensures after[i].revision < after[j].revision
    {
      assert order[i] in order;
      if j == |order| {
        LoggedBelowNext(s, rev, order[i]);
      }
    }
  }

  lemma StepKeepsRecorded(env: Env, a: Sys, e: Event)
    requires NumberedToHead(a.store) && Enabled(a, e) && Recorded(a.store, a.appended)
    ensures Recorded(Next(env, a, e).store, Next(env, a, e).appended)
  {
    if e.Append? {
      AppendKeepsRecorded(a.store, a.appended, e.rev);
    } else {
      StepKeepsLog(env, a, e);
      RecordedFrame(a.store, Next(env, a, e).store, a.appended);
    }
  }

  lemma RecordedFrame(s: Store, t: Store, order: seq<Revision>)
    requires SameLog(s, t) && Recorded(s, order)
    ensures Recorded(t, order)
  {
    forall r
      ensures Logged(t, r) == Logged(s, r)
    {
    }
  }

  lemma StepKeepsLog(env: Env, a: Sys, e: Event)
    requires Enabled(a, e)
    ensures SameLog(Next(env, a, e).store, if e.Append? then Appended(a.store, e.rev) else a.store)
    ensures Next(env, a, e).appended == if e.Append? then a.appended + [e.rev] else a.appended
  {
    if e.Commit? {
      CommittedFrame(env, a.store, RevisionOf(a, PhaseOf(a, e.worker).row), PhaseOf(a, e.worker).repair);
    }
  }

  // Which commits replay.

  lemma StepKeepsRepairs(env: Env, a: Sys, e: Event)
    requires LogKeysMatch(a.store) && NumberedToHead(a.store) && Recorded(a.store, a.appended) && Enabled(a, e)
    requires RepairsKnown(a.store, a.repairs, a.appended)
    ensures RepairsKnown(Next(env, a, e).store, Next(env, a, e).repairs, Next(env, a, e).appended)
  {
    var b := Next(env, a, e);
    StepKeepsLog(env, a, e);
    forall x | x in b.repairs
      ensures Logged(b.store, x.rev) && x.seen <= |b.appended| && x.rev in b.appended[..x.seen]
    {
      if x in a.repairs {
        RepairStaysKnown(env, a, e, x);
      } else {
        RowLogged(a, PhaseOf(a, e.worker).row);
        assert a.appended[..|a.appended|] == a.appended;
      }
    }
  }

  lemma RepairStaysKnown(env: Env, a: Sys, e: Event, x: Repair)
    requires NumberedToHead(a.store) && Enabled(a, e) && Logged(a.store, x.rev) && x.seen <= |a.appended| && x.rev in a.appended[..x.seen]
    ensures Logged(Next(env, a, e).store, x.rev)
    ensures x.seen <= |Next(env, a, e).appended| && Next(env, a, e).appended[..x.seen] == a.appended[..x.seen]
  {
    StepKeepsLog(env, a, e);
    if e.Append? {
      NextIsFresh(a.store, e.rev);
      assert (a.appended + [e.rev])[..x.seen] == a.appended[..x.seen];
    }
  }

  lemma AppendObligesNobody(env: Env, s: Store, order: seq<Revision>, rev: Revision, x: Repair, g: Revision)
    requires NumberedToHead(s) && IsNext(s, rev) && Logged(s, x.rev) && x.seen <= |order|
    requires Precedes(env, Appended(s, rev), order + [rev], x, g)
    ensures Precedes(env, s, order, x, g)
  {
    assert (order + [rev])[..x.seen] == order[..x.seen];
    assert Id(x.rev) in s.log;
  }

  /** A commit happening now precedes no revision that has arrived. */
  lemma NewRepairPrecedesNobody(env: Env, a: Sys, e: Event, x: Repair, g: Revision)
    requires Recorded(a.store, a.appended) && Enabled(a, e) && Logged(a.store, g)
    requires x in Next(env, a, e).repairs && x !in a.repairs
    ensures !Precedes(env, Next(env, a, e).store, Next(env, a, e).appended, x, g)
  {
    assert a.appended[..|a.appended|] == a.appended;
  }

  lemma PrecedesBefore(env: Env, a: Sys, e: Event, x: Repair, g: Revision)
    requires NumberedToHead(a.store) && RepairsKnown(a.store, a.repairs, a.appended) && Enabled(a, e) && x in a.repairs
    requires Precedes(env, Next(env, a, e).store, Next(env, a, e).appended, x, g)
    ensures Precedes(env, a.store, a.appended, x, g)
  {
    StepKeepsLog(env, a, e);
    if e.Append? {
      AppendObligesNobody(env, a.store, a.appended, e.rev, x, g);
    }
  }

  /** A revision already in the log is never obliged later than it is now. */
  lemma ObligedBefore(env: Env, a: Sys, e: Event, g: Revision)
    requires LogKeysMatch(a.store) && NumberedToHead(a.store) && Recorded(a.store, a.appended) && RepairsKnown(a.store, a.repairs, a.appended)
    requires Enabled(a, e) && Logged(a.store, g)
    requires var b := Next(env, a, e); Obliged(env, b.store, b.appended, b.repairs, g)
    ensures Obliged(env, a.store, a.appended, a.repairs, g)
  {
    var b := Next(env, a, e);
    if g.revision <= 1 {
      forall x | x in b.repairs && x !in a.repairs
        ensures !Precedes(env, b.store, b.appended, x, g)
      {
        NewRepairPrecedesNobody(env, a, e, x, g);
      }
      var x :| x in b.repairs && Precedes(env, b.store, b.appended, x, g);
      PrecedesBefore(env, a, e, x, g);
    }
  }

  /** Every current row of an event and kind is on its World timeline. */
  lemma OutOfOrderOnWorld(env: Env, s: Store, g: Revision)
    ensures OutOfOrder(env, s, g) <==> exists r :: r in Rows(env, s, CellOf(env, g, World)) && Id(r) != Id(g) && Before(g, r)
  {
  }

  /** The query of one level finds a later row. */
  ghost predicate FindsLater(env: Env, s: Store, g: Revision, level: Level) {
    var c := CellOf(env, g, level);
    c.scope != "" && exists r :: r in Rows(env, s, c) && Id(r) != Id(g) && Before(g, r)
  }

  /** Some query of the out-of-order test, each on the tables of its own moment, finds a later row. */
  ghost predicate SomeFindsLater(env: Env, moments: seq<Store>, g: Revision)
    requires |moments| == |RECORD_LEVELS|
  {
    exists i :: 0 <= i < |RECORD_LEVELS| && FindsLater(env, moments[i], g, RECORD_LEVELS[i])
  }

  /** Whatever happens between them, the queries answer together what the test on the tables of one of their moments does:
      of the first that finds a later row, or of the World query, the first of all, when none does. */
  lemma QueriesAnswerAsOne(env: Env, moments: seq<Store>, g: Revision) returns (moment: nat)
    requires |moments| == |RECORD_LEVELS|
    ensures moment < |moments| && (SomeFindsLater(env, moments, g) <==> OutOfOrder(env, moments[moment], g))
    ensures !SomeFindsLater(env, moments, g) ==> moment == 0
  {
    if SomeFindsLater(env, moments, g) {
      moment :| 0 <= moment < |RECORD_LEVELS| && FindsLater(env, moments[moment], g, RECORD_LEVELS[moment]);
      assert CellOf(env, g, RECORD_LEVELS[moment]) in CellsOf(env, g);
    } else {
      moment := 0;
      OutOfOrderOnWorld(env, moments[0], g);
      assert !FindsLater(env, moments[0], g, RECORD_LEVELS[0]);
    }
  }

  /** Whatever a commit had to wait for is a current row of the World timeline, so the test finds it. */
  lemma ObligedIsOutOfOrder(env: Env, s: Store, applied: set<Revision>, repairs: set<Repair>, order: seq<Revision>, g: Revision)
    requires ProjectionsMatchLog(env, s) && HeadsFaithful(s) && HeadStatusLogged(s) && AppliedProjected(s, applied) && Logged(s, g)
    requires forall x :: x in repairs ==> x.rev in applied
    requires Obliged(env, s, order, repairs, g)
    ensures g.revision > 1 || OutOfOrder(env, s, g)
  {
    if g.revision <= 1 {
      var x :| x in repairs && Precedes(env, s, order, x, g);
      assert Projected(s, Id(x.rev));
      assert HeadAgrees(s, x.rev);
      OutOfOrderOnWorld(env, s, g);
      assert x.rev in Rows(env, s, CellOf(env, g, World));
    }
  }

  lemma StepKeepsRepaired(env: Env, a: Sys, e: Event, g: Revision)
    requires Enabled(a, e) && Repaired(a.repairs, g)
    ensures Repaired(Next(env, a, e).repairs, g)
  {
    var n: nat :| Repair(g, n) in a.repairs;
    assert Repair(g, n) in Next(env, a, e).repairs;
  }

  ghost predicate Tracked(env: Env, a: Sys) {
    && StoreInv(env, a.store) && AppliedProjected(a.store, a.applied) && Recorded(a.store, a.appended)
    && RepairsKnown(a.store, a.repairs, a.appended) && ObligationsMet(env, a)
  }

  lemma AppliedAsObliged(env: Env, a: Sys, e: Event, g: Revision)
    requires Tracked(env, a) && Enabled(a, e) && g in Next(env, a, e).applied && !IsAbsorbed(env, g)
    requires var b := Next(env, a, e); Obliged(env, b.store, b.appended, b.repairs, g)
    ensures Repaired(Next(env, a, e).repairs, g)
  {
    if g in a.applied {
      ObligedBefore(env, a, e, g);
      StepKeepsRepaired(env, a, e, g);
    } else {
      CommittedAsObliged(env, a, e, g);
    }
  }

  /** An unabsorbed revision becomes applied only by the commit of a worker that was ready. */
  lemma AppliedByCommit(env: Env, a: Sys, e: Event, g: Revision)
    requires Enabled(a, e) && g in Next(env, a, e).applied && g !in a.applied && !IsAbsorbed(env, g)
    ensures e.Commit? && e.worker in a.workers && a.workers[e.worker].Ready? && a.workers[e.worker].row in a.store.log
    ensures a.store.log[a.workers[e.worker].row] == g
    ensures a.workers[e.worker].repair ==> Repair(g, |a.appended|) in Next(env, a, e).repairs
  {
  }

  lemma CommittedAsObliged(env: Env, a: Sys, e: Event, g: Revision)
    requires Tracked(env, a) && Enabled(a, e) && g in Next(env, a, e).applied && g !in a.applied && !IsAbsorbed(env, g)
    requires var b := Next(env, a, e); Obliged(env, b.store, b.appended, b.repairs, g)
    ensures Repaired(Next(env, a, e).repairs, g)
  {
    AppliedByCommit(env, a, e, g);
    RowLogged(a, a.workers[e.worker].row);
    ObligedBefore(env, a, e, g);
    assert ReadyAsObliged(env, a, a.workers[e.worker]);
  }

  lemma WorkerAsObliged(env: Env, a: Sys, e: Event, w: nat)
    requires Tracked(env, a) && Enabled(a, e) && w in Next(env, a, e).workers && PhaseOf(Next(env, a, e), w).Ready?
    requires PhaseOf(Next(env, a, e), w).row in a.store.log
    ensures ReadyAsObliged(env, Next(env, a, e), PhaseOf(Next(env, a, e), w))
  {
    var b := Next(env, a, e);
    var g := a.store.log[PhaseOf(b, w).row];
    RowLogged(a, PhaseOf(b, w).row);
    StepGrows(env, a, e);
    if Obliged(env, b.store, b.appended, b.repairs, g) {
      ObligedBefore(env, a, e, g);
      WorkerReadyToRepair(env, a, e, w, g);
    }
  }

  lemma WorkerReadyToRepair(env: Env, a: Sys, e: Event, w: nat, g: Revision)
    requires Tracked(env, a) && Enabled(a, e) && PhaseOf(Next(env, a, e), w).Ready?
    requires PhaseOf(Next(env, a, e), w).row in a.store.log && a.store.log[PhaseOf(Next(env, a, e), w).row] == g && Logged(a.store, g)
    requires Obliged(env, a.store, a.appended, a.repairs, g)
    ensures PhaseOf(Next(env, a, e), w).repair
  {
    StepMovesOneWorker(env, a, e);
    if PhaseOf(Next(env, a, e), w) == PhaseOf(a, w) {
      assert ReadyAsObliged(env, a, PhaseOf(a, w));
    } else {
      NumberedHeads(a.store);
      ObligedIsOutOfOrder(env, a.store, a.applied, a.repairs, a.appended, g);
      BecomesReady(env, a, e, w);
    }
  }

  /** A worker becomes ready to commit only by deciding. */
  lemma BecomesReady(env: Env, a: Sys, e: Event, w: nat)
    requires Enabled(a, e) && PhaseOf(Next(env, a, e), w).Ready? && PhaseOf(Next(env, a, e), w) != PhaseOf(a, w)
    requires LogKeysMatch(a.store)
    ensures e.Decide? && e.worker == w
    ensures var row := PhaseOf(a, w).row;
            && PhaseOf(Next(env, a, e), w).row == row
            && PhaseOf(Next(env, a, e), w).repair == (a.store.log[row].revision > 1 || OutOfOrder(env, a.store, a.store.log[row]))
  {
    RowLogged(a, PhaseOf(a, e.worker).row);
  }

  lemma StepKeepsObligations(env: Env, a: Sys, e: Event)
    requires Tracked(env, a) && WorkersInv(env, a) && Enabled(a, e)
    ensures ObligationsMet(env, Next(env, a, e))
  {
    var b := Next(env, a, e);
    forall g | g in b.applied && !IsAbsorbed(env, g) && Obliged(env, b.store, b.appended, b.repairs, g)
      ensures Repaired(b.repairs, g)
    {
      AppliedAsObliged(env, a, e, g);
    }
    forall w | w in b.workers
      ensures ReadyAsObliged(env, b, b.workers[w])
    {
      if b.workers[w].Ready? {
        ReadyRowKnown(env, a, e, w);
        WorkerAsObliged(env, a, e, w);
      }
    }
    RepairsAreCommits(env, a, e);
  }

  lemma ReadyRowKnown(env: Env, a: Sys, e: Event, w: nat)
    requires WorkersInv(env, a) && Enabled(a, e) && PhaseOf(Next(env, a, e), w).Ready? && LogKeysMatch(a.store)
    ensures PhaseOf(Next(env, a, e), w).row in a.store.log
  {
    StepMovesOneWorker(env, a, e);
    PhaseSound(env, a, w);
  }

  lemma RepairsAreCommits(env: Env, a: Sys, e: Event)
    requires Enabled(a, e) && forall x :: x in a.repairs ==> x.rev in a.applied
    ensures forall x :: x in Next(env, a, e).repairs ==> x.rev in Next(env, a, e).applied
  {
  }

  lemma StartIsEnclosed(env: Env, c: Cell)
    ensures Enclosed(env, Start(env).store, Past({}, [], {}), c)
  {
    var s := Start(env).store;
    assert Rows(env, s, c) == {} && Residue(env, s, {}, [], c) == {};
  }

  lemma StartInv(env: Env)
    ensures Inv(env, Start(env))
  {
    forall c: Cell
      ensures Enclosed(env, Start(env).store, Past({}, [], {}), c)
    {
      StartIsEnclosed(env, c);
    }
  }

  lemma {:induction false} RunKeepsQueue(env: Env, a: Sys, events: seq<Event>, b: Sys)
    requires QueueInv(env, a) && IsRun(env, a, events, b)
    ensures QueueInv(env, b)
    decreases |events|
  {
    if events != [] {
      StepKeepsQueue(env, a, events[0]);
      RunKeepsQueue(env, Next(env, a, events[0]), events[1..], b);
    }
  }

  lemma {:induction false} RunKeepsInv(env: Env, a: Sys, events: seq<Event>, b: Sys)
    requires Inv(env, a) && IsRun(env, a, events, b)
    ensures Inv(env, b)
    decreases |events|
  {
    if events != [] {
      StepKeepsQueue(env, a, events[0]);
      StepKeepsRecorded(env, a, events[0]);
      StepKeepsRepairs(env, a, events[0]);
      StepKeepsObligations(env, a, events[0]);
      StepKeepsLive(env, a, events[0]);
      RunKeepsInv(env, Next(env, a, events[0]), events[1..], b);
    }
  }

  lemma Reachable(env: Env, events: seq<Event>, a: Sys)
    requires IsRun(env, Start(env), events, a)
    ensures Inv(env, a)
  {
    StartInv(env);
    RunKeepsInv(env, Start(env), events, a);
  }

  // -------- Live cells when the queue is quiet --------

  /** With nothing unsettled, every head's work is COMPLETED and its revision has been applied. */
  lemma QuiescentHeadsCompleted(env: Env, a: Sys, r: Revision)
    requires QueueInv(env, a) && Quiescent(a) && Logged(a.store, r) && IsHead(a.store, r)
    ensures Id(r) in a.work && a.work[Id(r)].status == Completed && r in a.applied
  {
    assert Id(r) in a.work;
    assert !Unsettled(a.work[Id(r)]);
    assert !Outdated(a.store, Id(r));
  }

  lemma QuiescentRows(env: Env, a: Sys, c: Cell)
    requires QueueInv(env, a) && Quiescent(a)
    ensures Rows(env, a.store, c) == HeadRows(env, a.store, c) && Rows(env, a.store, c) <= a.applied
  {
    var s := a.store;
    NumberedHeads(s);
    forall id | id in s.heads
      ensures Projected(s, RowId(id, s.heads[id].revision))
    {
      var r := s.log[RowId(id, s.heads[id].revision)];
      assert Logged(s, r) && IsHead(s, r);
      QuiescentHeadsCompleted(env, a, r);
    }
    ProjectedRowsAreHeadRows(env, s, c);
    forall r | r in Rows(env, s, c)
      ensures r in a.applied
    {
      QuiescentHeadsCompleted(env, a, r);
    }
  }

  /** Two positions of the arrivals that hold the same revision are one. */
  lemma ArrivedOnce(s: Store, order: seq<Revision>, i: nat, j: nat)
    requires Recorded(s, order) && i < |order| && j < |order| && order[i] == order[j]
    ensures i == j
  {
  }

  /** Whatever committed after a follower of `k` arrived committed after `k` was overtaken. */
  lemma FollowerSeesOvertaking(s: Store, order: seq<Revision>, n: nat, g: Revision, k: Revision)
    requires Recorded(s, order) && Follows(order, g, k) && n <= |order| && g in order[..n]
    ensures OvertakenBefore(order, n, k)
  {
    var i, j :| 0 <= i <= j < |order| && Id(order[i]) == RowId(k.resultId, k.revision + 1) && order[j] == g;
    var m :| 0 <= m < n && order[m] == g;
    ArrivedOnce(s, order, j, m);
  }

  lemma RepairClears(env: Env, a: Sys, c: Cell, g: Revision, k: Revision)
    requires Inv(env, a) && Repaired(a.repairs, g) && Follows(a.appended, g, k) && c in Touched(env, a.store, g)
    ensures k !in Residue(env, a.store, a.repairs, a.appended, c)
  {
    var n: nat :| Repair(g, n) in a.repairs;
    FollowerSeesOvertaking(a.store, a.appended, n, g, k);
    assert Clears(env, a.store, a.appended, c, Repair(g, n), k);
  }

  /** Unless the correction `p` itself cleared `k`, it committed before `g` arrived and puts `g` out of order. */
  lemma CorrectionObliges(env: Env, a: Sys, c: Cell, p: Revision, g: Revision, k: Revision)
    requires Recorded(a.store, a.appended) && RepairsKnown(a.store, a.repairs, a.appended) && Repaired(a.repairs, p)
    requires Corrects(env, a.store, c, p) && Before(g, p) && c in Touched(env, a.store, g)
    requires Follows(a.appended, g, k) && k in Residue(env, a.store, a.repairs, a.appended, c)
    ensures Obliged(env, a.store, a.appended, a.repairs, g)
  {
    var n: nat :| Repair(p, n) in a.repairs;
    assert !Clears(env, a.store, a.appended, c, Repair(p, n), k);
    if g in a.appended[..n] {
      FollowerSeesOvertaking(a.store, a.appended, n, g, k);
    }
    TouchedShareEvent(env, a.store, c, p, g);
    assert Precedes(env, a.store, a.appended, Repair(p, n), g);
  }

  lemma TouchedShareEvent(env: Env, s: Store, c: Cell, p: Revision, g: Revision)
    requires c in Touched(env, s, p) && c in Touched(env, s, g)
    ensures p.event == g.event && p.kind == g.kind && !IsAbsorbed(env, p) && !IsAbsorbed(env, g)
  {
  }

  lemma HealedIsCleared(env: Env, a: Sys, c: Cell, g: Revision, k: Revision)
    requires Inv(env, a) && Quiescent(a) && Logged(a.store, g) && IsHead(a.store, g) && Heals(env, a.store, a.appended, c, g, k)
    ensures k !in Residue(env, a.store, a.repairs, a.appended, c)
  {
    QuiescentHeadsCompleted(env, a, g);
    if k in Residue(env, a.store, a.repairs, a.appended, c) {
      if g.revision <= 1 {
        var p :| Corrects(env, a.store, c, p) && Before(g, p);
        QuiescentHeadsCompleted(env, a, p);
        assert Obliged(env, a.store, a.appended, a.repairs, p);
        CorrectionObliges(env, a, c, p, g, k);
      }
      RepairClears(env, a, c, g, k);
    }
  }

  lemma LingeringEscapes(env: Env, a: Sys, c: Cell, k: Revision)
    requires Inv(env, a) && Quiescent(a) && k in Residue(env, a.store, a.repairs, a.appended, c)
    ensures Escapes(env, a.store, a.appended, c, k)
  {
    forall g | Logged(a.store, g) && IsHead(a.store, g)
      ensures !Heals(env, a.store, a.appended, c, g, k)
    {
      if Heals(env, a.store, a.appended, c, g, k) {
        HealedIsCleared(env, a, c, g, k);
      }
    }
  }

  /** Once every head is applied, only what escapes can linger. */
  lemma QuiescentResidue(env: Env, a: Sys, c: Cell)
    requires Inv(env, a) && Quiescent(a)
    ensures Residue(env, a.store, a.repairs, a.appended, c) <= Escaped(env, a.store, a.appended, c)
  {
    forall k | k in Residue(env, a.store, a.repairs, a.appended, c)
      ensures k in Escaped(env, a.store, a.appended, c)
    {
      LingeringEscapes(env, a, c, k);
    }
  }

  /** Over every interleaving of appended revisions with any number of workers claiming, classifying,
      settling, failing, crashing and losing leases: whenever no work is pending, processing or failed,
      a live cell is never worse than the best of its baseline and the current valid unabsorbed heads of
      its scope, and never better than that best together with the revisions that escaped repair. */
  lemma QuiescentLiveIsEnclosed(env: Env, events: seq<Event>, a: Sys, c: Cell)
    requires IsRun(env, Start(env), events, a) && Quiescent(a) && c.scope != ""
    ensures AtMost(Get(a.store.live, c), Best(Floor(env, c), HeadRows(env, a.store, c)))
    ensures AtMost(Best(Floor(env, c), HeadRows(env, a.store, c) + Escaped(env, a.store, a.appended, c)), Get(a.store.live, c))
  {
    Reachable(env, events, a);
    QuiescentRows(env, a, c);
    QuiescentResidue(env, a, c);
    EnclosedCell(env, a, c);
    BestIsMonotone(Floor(env, c), HeadRows(env, a.store, c) + Escaped(env, a.store, a.appended, c),
                   Floor(env, c), Rows(env, a.store, c) + Residue(env, a.store, a.repairs, a.appended, c));
  }

  lemma EnclosedCell(env: Env, a: Sys, c: Cell)
    requires LiveInv(env, a.store, PastOf(a)) && c.scope != "" && Rows(env, a.store, c) <= a.applied
    ensures var rows, residue := Rows(env, a.store, c), Residue(env, a.store, a.repairs, a.appended, c);
            && AtMost(Get(a.store.live, c), Best(Floor(env, c), rows))
            && AtMost(Best(Floor(env, c), rows + residue), Get(a.store.live, c))
  {
    assert Enclosed(env, a.store, PastOf(a), c);
    assert a.applied * Rows(env, a.store, c) == Rows(env, a.store, c);
  }

  /** No escaped revision is better than what the cell should show. */
  ghost predicate NothingEscapes(env: Env, s: Store, order: seq<Revision>, c: Cell) {
    forall k :: Escapes(env, s, order, c, k) ==> Compare(k.value, Best(Floor(env, c), HeadRows(env, s, c))) != Broken
  }

  /** Unless a better revision escaped repair, the quiet live cell is exactly the best of its baseline
      and the current valid unabsorbed heads of its scope. */
  lemma QuiescentLiveIsBestOfHeads(env: Env, events: seq<Event>, a: Sys, c: Cell)
    requires IsRun(env, Start(env), events, a) && Quiescent(a) && c.scope != ""
    requires NothingEscapes(env, a.store, a.appended, c)
    ensures Get(a.store.live, c) == Best(Floor(env, c), HeadRows(env, a.store, c))
  {
    QuiescentLiveIsEnclosed(env, events, a, c);
    Pinned(Floor(env, c), HeadRows(env, a.store, c), Escaped(env, a.store, a.appended, c), Get(a.store.live, c));
  }

  /** Rows no better than the best leave no room between the bounds. */
  lemma Pinned(floor: Option<int>, rows: set<Revision>, others: set<Revision>, live: Option<int>)
    requires AtMost(live, Best(floor, rows)) && AtMost(Best(floor, rows + others), live)
    requires forall k :: k in others ==> Compare(k.value, Best(floor, rows)) != Broken
    ensures live == Best(floor, rows)
  {
    assert IsBest(floor, rows + others, Best(floor, rows));
    BestIsUnique(floor, rows + others, Best(floor, rows));
  }

  /** All revisions of a result name the same cells and absorption: the ordinary case. */
  ghost predicate FixedScopes(env: Env, s: Store) {
    forall j, k :: Logged(s, j) && Logged(s, k) && j.resultId == k.resultId ==> Footprint(env, j) == Footprint(env, k)
  }

  /** A later revision of the same result arrived after the one that overtook `k`. */
  lemma LaterFollows(s: Store, order: seq<Revision>, h: Revision, k: Revision)
    requires NumberedToHead(s) && LogKeysMatch(s) && Recorded(s, order)
    requires Logged(s, h) && Logged(s, k) && h.resultId == k.resultId && k.revision < h.revision
    ensures Follows(order, h, k)
  {
    assert Id(h) in s.log;
    var next := s.log[RowId(k.resultId, k.revision + 1)];
    assert Logged(s, next) && Id(next) == RowId(k.resultId, k.revision + 1);
    var i :| 0 <= i < |order| && order[i] == next;
    var j :| 0 <= j < |order| && order[j] == h;
  }

  lemma FixedScopesHeal(env: Env, s: Store, order: seq<Revision>, c: Cell, h: Revision, k: Revision)
    requires FixedScopes(env, s) && NumberedToHead(s) && LogKeysMatch(s) && Recorded(s, order)
    requires Overtaken(env, s, c, h, k)
    ensures Heals(env, s, order, c, h, k)
  {
    LaterFollows(s, order, h, k);
    assert Id(k) in s.log;
    assert c in Footprint(env, h);
  }

  /** When corrections never move a result to other scopes nothing escapes. */
  lemma FixedScopesNeverEscape(env: Env, events: seq<Event>, a: Sys, c: Cell)
    requires IsRun(env, Start(env), events, a) && FixedScopes(env, a.store)
    ensures NothingEscapes(env, a.store, a.appended, c)
  {
    ReachableLog(env, events, a);
    forall k
      ensures !Escapes(env, a.store, a.appended, c, k)
    {
      if h :| Overtaken(env, a.store, c, h, k) {
        FixedScopesHeal(env, a.store, a.appended, c, h, k);
      }
    }
  }

  lemma ReachableLog(env: Env, events: seq<Event>, a: Sys)
    requires IsRun(env, Start(env), events, a)
    ensures Numbered(a.store) && Recorded(a.store, a.appended)
  {
    Reachable(env, events, a);
  }

  // -------- The queue over whole runs --------

  /** In every reachable state a result's items are a settled prefix, then at most one item ever
      attempted and not settled, then untouched pending ones. */
  lemma ItemsStayInOrder(env: Env, events: seq<Event>, a: Sys, result: nat) returns (settled: nat)
    requires IsRun(env, Start(env), events, a)
    ensures SettledPrefix(a.work, result, HeadRevision(a.store, result), settled)
  {
    Reachable(env, events, a);
    settled := ItemsAreSettledPrefix(a.work, result, HeadRevision(a.store, result));
  }

  /** Only the worker still holding the lease settles an item, and only with the verdict of its own
      classification of that revision. */
  lemma OnlyHolderSettles(env: Env, events: seq<Event>, a: Sys, e: Event, k: RowId)
    requires IsRun(env, Start(env), events, a) && Enabled(a, e)
    requires k in a.work && Unsettled(a.work[k]) && !Unsettled(Next(env, a, e).work[k])
    ensures e.Settle? && a.work[k].status == Processing && a.work[k].claimedBy == Some(e.worker)
    ensures PhaseOf(a, e.worker).Returned? && PhaseOf(a, e.worker).row == k
    ensures Next(env, a, e).work[k].status == if PhaseOf(a, e.worker).verdict then Completed else Stale
  {
    StepWork(env, a, e, k);
  }

  lemma StepKeepsSettled(env: Env, a: Sys, e: Event, k: RowId)
    requires LeasesMatch(a.work) && Enabled(a, e) && k in a.work && !Unsettled(a.work[k])
    ensures k in Next(env, a, e).work && Next(env, a, e).work[k] == a.work[k]
  {
  }

  /** A settled item never changes again, whatever runs afterwards. */
  lemma {:induction false} SettledIsFinal(env: Env, a: Sys, events: seq<Event>, b: Sys, k: RowId)
    requires QueueInv(env, a) && IsRun(env, a, events, b) && k in a.work && !Unsettled(a.work[k])
    ensures k in b.work && b.work[k] == a.work[k]
    decreases |events|
  {
    if events != [] {
      StepKeepsSettled(env, a, events[0], k);
      StepKeepsQueue(env, a, events[0]);
      SettledIsFinal(env, Next(env, a, events[0]), events[1..], b, k);
    }
  }

  /** STALE means a newer revision exists; with nothing unsettled every head's work is COMPLETED. */
  lemma VerdictsAreTrue(env: Env, events: seq<Event>, a: Sys, k: RowId)
    requires IsRun(env, Start(env), events, a) && k in a.work
    ensures a.work[k].status == Stale ==> k.revision < HeadRevision(a.store, k.result)
    ensures Quiescent(a) && k.revision == HeadRevision(a.store, k.result) ==> a.work[k].status == Completed
  {
    Reachable(env, events, a);
    assert VerdictsInv(a);
  }
}
