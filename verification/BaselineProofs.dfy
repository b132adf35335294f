/** What survives when revisions are classified again: live values always, outcomes not. */
module BaselineProofs {
  import opened RecordDomain
  import opened RecordOrder
  import opened Classification
  import opened TimelineProofs
  import opened SettledProofs
  import opened RunProofs

  /** The live value lies between the best of the whole timeline and the best of the rows already
      applied: nothing outside the timeline has been folded in, and nothing applied is missing. */
  ghost predicate Between(floor: Option<int>, rows: set<Revision>, applied: set<Revision>, live: Option<int>) {
    AtMost(Best(floor, rows), live) && AtMost(live, Best(floor, applied * rows))
  }

  ghost predicate Bounded(env: Env, s: Store, applied: set<Revision>, c: Cell) {
    Between(Floor(env, c), Rows(env, s, c), applied, Get(s.live, c))
  }

  lemma BetweenStart(floor: Option<int>, rows: set<Revision>)
    ensures Between(floor, rows, {}, floor)
  {
    assert {} * rows == {};
    BestIsMonotone(floor, rows, floor, {});
  }

  lemma BetweenReplay(floor: Option<int>, rows: set<Revision>, applied: set<Revision>)
    ensures Between(floor, rows, applied, Best(floor, rows))
  {
    BestIsMonotone(floor, rows, floor, applied * rows);
    BestIsMonotone(floor, rows, floor, rows);
  }

  lemma BetweenNewRow(floor: Option<int>, rows: set<Revision>, applied: set<Revision>, live: Option<int>, r: Revision)
    requires Between(floor, rows, applied, live) && (r in applied ==> r in rows)
    ensures Between(floor, rows + {r}, applied, live)
  {
    assert applied * (rows + {r}) == applied * rows;
    BestIsMonotone(floor, rows + {r}, floor, rows);
  }

  lemma BetweenFold(floor: Option<int>, rows: set<Revision>, applied: set<Revision>, live: Option<int>, r: Revision)
    requires Between(floor, rows, applied, live) && r in rows
    ensures Between(floor, rows, applied + {r}, if Compare(r.value, live) == Broken then Some(r.value) else live)
  {
    assert (applied + {r}) * rows == applied * rows + {r};
    BestWith(floor, applied * rows, r);
    assert IsBest(floor, rows, Best(floor, rows));
  }

  lemma BetweenSkip(floor: Option<int>, rows: set<Revision>, applied: set<Revision>, live: Option<int>, r: Revision)
    requires Between(floor, rows, applied, live) && r !in rows
    ensures Between(floor, rows, applied + {r}, live)
  {
    assert (applied + {r}) * rows == applied * rows;
  }

  lemma AtMostBothWays(a: Option<int>, b: Option<int>)
    requires AtMost(a, b) && AtMost(b, a)
    ensures a == b
  {
  }

  /** Once every row of the timeline is applied, the bounds meet. */
  lemma FullyAppliedIsBest(env: Env, s: Store, applied: set<Revision>, c: Cell)
    requires Bounded(env, s, applied, c) && Rows(env, s, c) <= applied
    ensures Get(s.live, c) == Best(Floor(env, c), Rows(env, s, c))
  {
    assert applied * Rows(env, s, c) == Rows(env, s, c);
    AtMostBothWays(Get(s.live, c), Best(Floor(env, c), Rows(env, s, c)));
  }

  lemma MaterializedBounds(env: Env, s: Store, rev: Revision, applied: set<Revision>, c: Cell)
    requires ProjectionsMatchLog(env, s) && HeadAgrees(s, rev)
    requires Bounded(env, s, applied, c) && (rev in applied && Joins(env, s, rev, c) ==> rev in Rows(env, s, c))
    ensures Bounded(env, Materialized(env, s, rev), applied, c)
  {
    MaterializedRows(env, s, rev, c);
    if Joins(env, s, rev, c) {
      BetweenNewRow(Floor(env, c), Rows(env, s, c), applied, Get(s.live, c), rev);
    }
  }

  /** Committing a projected head, by either path, applies it to each of its cells. */
  ghost function Committed(env: Env, s: Store, rev: Revision, repair: bool): Store {
    if repair then RepairCells(env, s, Affected(env, s, rev)) else Incremental(env, s, rev)
  }

  lemma CommittedFrame(env: Env, s: Store, rev: Revision, repair: bool)
    ensures var t := Committed(env, s, rev, repair);
            && t.heads == s.heads && t.log == s.log && t.processed == s.processed && t.levels.Keys == s.levels.Keys
            && forall c: Cell :: Rows(env, t, c) == Rows(env, s, c)
  {
    forall c: Cell
      ensures Rows(env, Committed(env, s, rev, repair), c) == Rows(env, s, c)
    {
      RowsFrame(env, s, Committed(env, s, rev, repair), c);
    }
  }

  /** The projection of the current head says what its revision says. */
  ghost predicate HeadProjection(s: Store, rev: Revision) {
    HeadAgrees(s, rev) && IsHead(s, rev) && Projected(s, Id(rev)) && s.processed[Id(rev)].row == rev
  }

  lemma CommittedLive(env: Env, s: Store, rev: Revision, repair: bool, c: Cell)
    requires HeadProjection(s, rev) && !IsAbsorbed(env, rev) && c.scope != ""
    ensures Get(Committed(env, s, rev, repair).live, c) ==
            if repair then LiveAfterRepair(env, s, Affected(env, s, rev), c)
            else if RevisionIsValid(rev) && Improves(env, s, rev, c) then Some(rev.value)
            else Get(s.live, c)
  {
  }

  lemma HeadInItsRows(env: Env, s: Store, rev: Revision, c: Cell)
    requires HeadProjection(s, rev) && !IsAbsorbed(env, rev) && c.scope != ""
    ensures rev in Rows(env, s, c) <==> RevisionIsValid(rev) && c in CellsOf(env, rev)
  {
  }

  lemma CommittedBounds(env: Env, s: Store, rev: Revision, repair: bool, applied: set<Revision>, c: Cell)
    requires HeadProjection(s, rev) && !IsAbsorbed(env, rev) && c.scope != ""
    requires Bounded(env, s, applied, c) || (repair && c in Affected(env, s, rev))
    ensures Bounded(env, Committed(env, s, rev, repair), applied + {rev}, c)
  {
    var t := Committed(env, s, rev, repair);
    var floor, rows, live := Floor(env, c), Rows(env, s, c), Get(s.live, c);
    CommittedFrame(env, s, rev, repair);
    assert Rows(env, t, c) == rows;
    CommittedLive(env, s, rev, repair, c);
    HeadInItsRows(env, s, rev, c);
    if repair && c in Affected(env, s, rev) {
      BetweenReplay(floor, rows, applied + {rev});
    } else if rev in rows {
      BetweenFold(floor, rows, applied, live, rev);
    } else {
      BetweenSkip(floor, rows, applied, live, rev);
    }
  }

  // -------- Baseline refresh --------

  /** The heads a refresh classifies again: not retracted, not absorbed by the new export. */
  ghost predicate Refreshes(env: Env, s: Store, rev: Revision) {
    Logged(s, rev) && IsHead(s, rev) && rev.status != Status.Retracted && !IsAbsorbed(env, rev)
  }

  ghost predicate EachRefreshedOnce(env: Env, s: Store, order: seq<Revision>) {
    forall r :: r in order <==> Refreshes(env, s, r)
  }

  ghost function Reseeded(env: Env, s: Store): Store {
    s.(live := env.baseline)
  }

  lemma ClassifyKeepsBounds(env: Env, s: Store, rev: Revision, applied: set<Revision>, c: Cell)
    requires ProjectionsMatchLog(env, s) && HeadAgrees(s, rev) && IsHead(s, rev) && !IsAbsorbed(env, rev)
    requires c.scope != "" && Bounded(env, s, applied, c)
    requires rev in applied && Joins(env, s, rev, c) ==> rev in Rows(env, s, c)
    ensures Bounded(env, Classified(env, s, rev), applied + {rev}, c)
  {
    var m := Materialized(env, s, rev);
    MaterializedBounds(env, s, rev, applied, c);
    assert m.processed[Id(rev)] == ProjectionAfter(s, rev, Id(rev));
    var repair := rev.revision > 1 || OutOfOrder(env, m, rev);
    CommittedBounds(env, m, rev, repair, applied, c);
  }

  lemma {:induction false} RefreshKeepsBounds(env: Env, s: Store, order: seq<Revision>, c: Cell)
    requires ProjectionsMatchLog(env, s) && HeadStatusLogged(s) && c.scope != ""
    requires forall r :: r in order ==> Refreshes(env, s, r)
    requires Bounded(env, s, {}, c)
    ensures var t := ClassifyAll(env, s, order);
            && ProjectionsMatchLog(env, t) && t.heads == s.heads && t.log == s.log
            && Bounded(env, t, Members(order), c)
            && (forall r :: r in order && Joins(env, s, r, c) ==> r in Rows(env, t, c))
            && Rows(env, s, c) <= Rows(env, t, c)
  {
    if order == [] {
      assert Members(order) == {};
    } else {
      var init, rev := order[..|order| - 1], order[|order| - 1];
      assert order == init + [rev];
      RefreshKeepsBounds(env, s, init, c);
      var t := ClassifyAll(env, s, init);
      assert Refreshes(env, s, rev);
      assert HeadAgrees(s, rev);
      assert HeadAgrees(t, rev);
      ClassifyKeepsBounds(env, t, rev, Members(init), c);
      ReclassifiedFrame(env, t, rev, c);
      MembersSnoc(init, rev);
    }
  }

  lemma ReclassifiedFrame(env: Env, s: Store, rev: Revision, c: Cell)
    requires ProjectionsMatchLog(env, s) && HeadAgrees(s, rev) && IsHead(s, rev) && !IsAbsorbed(env, rev)
    ensures var t := Classified(env, s, rev);
            && ProjectionsMatchLog(env, t) && t.heads == s.heads && t.log == s.log
            && Rows(env, t, c) == if Joins(env, s, rev, c) then Rows(env, s, c) + {rev} else Rows(env, s, c)
  {
    var m := Materialized(env, s, rev);
    ClassifiedFrame(env, s, rev);
    MaterializedKeepsProjections(env, s, rev);
    MaterializedRows(env, s, rev, c);
    RowsFrame(env, m, Classified(env, s, rev), c);
    var repair := rev.revision > 1 || OutOfOrder(env, m, rev);
    CommittedKeepsProjections(env, m, rev, repair);
  }

  lemma CommittedKeepsProjections(env: Env, s: Store, rev: Revision, repair: bool)
    requires ProjectionsMatchLog(env, s) && Logged(s, rev)
    ensures ProjectionsMatchLog(env, Committed(env, s, rev, repair))
  {
    if repair {
      RepairKeepsProjections(env, s, Affected(env, s, rev));
    } else {
      var m := Compared(env, s, rev);
      var t := Adjudicated(env, m, CellsOf(env, rev));
      forall l | l in t.levels
        ensures t.levels[l].scope == RecordScope(env.geography, t.processed[l.row].row, l.level)
      {
        assert t.levels[l] == JudgedChild(env, m, CellsOf(env, rev), l);
        assert m.levels[l] == ComparedChild(env, s, rev, l);
      }
    }
  }

  /** After a baseline refresh every live cell is the best of the new baseline and the current
      unabsorbed heads of its scope, whatever was live before and whichever heads had already
      been classified. */
  lemma RefreshIsBestOfHeads(env: Env, s: Store, order: seq<Revision>, c: Cell)
    requires LogIsContiguous(s) && ProjectionsMatchLog(env, s)
    requires EachRefreshedOnce(env, s, order) && c.scope != ""
    ensures Get(ClassifyAll(env, Reseeded(env, s), order).live, c) == Best(Floor(env, c), HeadRows(env, s, c))
  {
    var s0 := Reseeded(env, s);
    var t := ClassifyAll(env, s0, order);
    ContiguousHeads(s);
    HeadStatusFrame(s, s0);
    BetweenStart(Floor(env, c), Rows(env, s0, c));
    forall r | r in order
      ensures Refreshes(env, s0, r)
    {
      assert Refreshes(env, s, r);
    }
    RefreshKeepsBounds(env, s0, order, c);
    RefreshedRows(env, s, t, order, c);
    FullyAppliedIsBest(env, t, Members(order), c);
  }

  lemma RefreshedRows(env: Env, s: Store, t: Store, order: seq<Revision>, c: Cell)
    requires HeadStatusLogged(s) && EachRefreshedOnce(env, s, order)
    requires ProjectionsMatchLog(env, t) && t.heads == s.heads && t.log == s.log
    requires forall x :: x in order && Joins(env, s, x, c) ==> x in Rows(env, t, c)
    ensures Rows(env, t, c) == HeadRows(env, s, c) && Rows(env, t, c) <= Members(order)
  {
    forall r
      ensures r in Rows(env, t, c) <==> r in HeadRows(env, s, c)
      ensures r in Rows(env, t, c) ==> r in order
    {
      RefreshedRow(env, s, t, order, c, r);
    }
  }

  lemma RefreshedRow(env: Env, s: Store, t: Store, order: seq<Revision>, c: Cell, r: Revision)
    requires HeadStatusLogged(s) && EachRefreshedOnce(env, s, order)
    requires ProjectionsMatchLog(env, t) && t.heads == s.heads && t.log == s.log
    requires forall x :: x in order && Joins(env, s, x, c) ==> x in Rows(env, t, c)
    ensures r in Rows(env, t, c) <==> r in HeadRows(env, s, c)
    ensures r in Rows(env, t, c) ==> r in order
  {
    if Logged(s, r) && Joins(env, s, r, c) {
      assert Refreshes(env, s, r);
    }
    if r in Rows(env, t, c) {
      assert Logged(t, r) && Logged(s, r);
      assert HeadAgrees(s, r);
      assert Refreshes(env, s, r);
    }
  }
}
