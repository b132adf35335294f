/** What whole classifications preserve: consistency with a replay, and how the timelines
    follow the heads. */
module SettledProofs {
  import opened RecordDomain
  import opened RecordOrder
  import opened Replay
  import opened Classification
  import opened TimelineProofs

  /** The revision belongs in current timelines as soon as it is the projected head. */
  ghost predicate Eligible(env: Env, rev: Revision) {
    RevisionIsValid(rev) && !IsAbsorbed(env, rev)
  }

  ghost predicate Joins(env: Env, s: Store, rev: Revision, c: Cell) {
    IsHead(s, rev) && Eligible(env, rev) && c == CellOf(env, rev, c.level)
  }

  ghost predicate Logged(s: Store, rev: Revision) {
    Id(rev) in s.log && s.log[Id(rev)] == rev
  }

  ghost predicate HeadAgrees(s: Store, rev: Revision) {
    && Logged(s, rev)
    && rev.resultId in s.heads && rev.revision <= s.heads[rev.resultId].revision
    && (IsHead(s, rev) ==> s.heads[rev.resultId].status == rev.status)
  }

  lemma LoggedHeadAgrees(s: Store, rev: Revision)
    requires LogIsContiguous(s) && Logged(s, rev)
    ensures HeadAgrees(s, rev)
  {
  }

  lemma MaterializedCounts(env: Env, s: Store, rev: Revision, c: Cell, r: Revision)
    requires ProjectionsMatchLog(env, s) && HeadAgrees(s, rev)
    ensures Counts(env, Materialized(env, s, rev), r, c) <==>
            Counts(env, s, r, c) || (r == rev && Joins(env, s, rev, c))
  {
    if Id(r) == Id(rev) {
    } else if Id(r) in s.processed {
      assert Materialized(env, s, rev).processed[Id(r)] == ProjectionAfter(s, rev, Id(r));
    }
  }

  /** Materialising a revision adds it to the timelines it belongs to and removes nothing. */
  lemma MaterializedRows(env: Env, s: Store, rev: Revision, c: Cell)
    requires ProjectionsMatchLog(env, s) && HeadAgrees(s, rev)
    ensures Rows(env, Materialized(env, s, rev), c) ==
            if Joins(env, s, rev, c) then Rows(env, s, c) + {rev} else Rows(env, s, c)
  {
    forall r
      ensures r in Rows(env, Materialized(env, s, rev), c) <==> r in Rows(env, s, c) || (r == rev && Joins(env, s, rev, c))
    {
      MaterializedCounts(env, s, rev, c, r);
    }
  }

  /** The level rows of the other current rows are left alone. */
  lemma MaterializedLevels(env: Env, s: Store, rev: Revision, c: Cell, r: Revision)
    requires ProjectionsMatchLog(env, s) && HeadAgrees(s, rev)
    requires r in Rows(env, s, c) && r != rev
    ensures var l := LevelId(Id(r), c.level);
            l in s.levels && l in Materialized(env, s, rev).levels && Materialized(env, s, rev).levels[l] == s.levels[l]
  {
    var l := LevelId(Id(r), c.level);
    assert Id(r) in s.processed && l in s.levels;
    assert !IsSuperseded(s, rev, Id(r));
  }

  lemma MaterializedKeepsScopes(env: Env, s: Store, rev: Revision, l: LevelId)
    requires ProjectionsMatchLog(env, s) && Logged(s, rev)
    requires l in Materialized(env, s, rev).levels
    ensures l.row in Materialized(env, s, rev).processed
    ensures Materialized(env, s, rev).levels[l].scope ==
            RecordScope(env.geography, Materialized(env, s, rev).processed[l.row].row, l.level)
  {
    assert Materialized(env, s, rev).levels[l] == ChildAfter(env, s, rev, l);
    assert Materialized(env, s, rev).processed[l.row] == ProjectionAfter(s, rev, l.row);
  }

  lemma MaterializedKeepsProjections(env: Env, s: Store, rev: Revision)
    requires ProjectionsMatchLog(env, s) && Logged(s, rev)
    ensures ProjectionsMatchLog(env, Materialized(env, s, rev))
  {
    var m := Materialized(env, s, rev);
    forall l | l in m.levels
      ensures l.row in m.processed
      ensures m.levels[l].scope == RecordScope(env.geography, m.processed[l.row].row, l.level)
    {
      MaterializedKeepsScopes(env, s, rev, l);
    }
    forall k, level | k in m.processed
      ensures LevelId(k, level) in m.levels
    {
      if k == Id(rev) {
        assert LevelId(k, level) in OwnChildren(rev);
      }
    }
    forall k | k in m.processed
      ensures k in m.log && m.processed[k].row == m.log[k]
      ensures m.processed[k].valid ==> RevisionIsValid(m.processed[k].row)
    {
      assert m.processed[k] == ProjectionAfter(s, rev, k);
    }
  }

  /** A cell the revision does not join keeps its consistency through materialisation. */
  lemma MaterializedKeepsCell(env: Env, s: Store, rev: Revision, c: Cell)
    requires ProjectionsMatchLog(env, s) && HeadAgrees(s, rev)
    requires CellConsistent(env, s, c) && rev !in Rows(env, s, c) && !Joins(env, s, rev, c)
    ensures CellConsistent(env, Materialized(env, s, rev), c)
  {
    MaterializedRows(env, s, rev, c);
    forall r | r in Rows(env, s, c)
      ensures var l := LevelId(Id(r), c.level);
              l in Materialized(env, s, rev).levels && Materialized(env, s, rev).levels[l] == s.levels[l]
    {
      MaterializedLevels(env, s, rev, c, r);
    }
  }

  lemma HistoricalKeepsCell(env: Env, s: Store, rev: Revision, c: Cell)
    requires CellConsistent(env, s, c) && rev !in Rows(env, s, c)
    requires Id(rev) in s.processed && s.processed[Id(rev)].row == rev
    ensures CellConsistent(env, Historical(env, s, rev), c)
  {
    var t := Historical(env, s, rev);
    RowsFrame(env, s, t, c);
    forall r | r in Rows(env, s, c)
      ensures t.levels[LevelId(Id(r), c.level)] == s.levels[LevelId(Id(r), c.level)]
    {
      assert Id(r) != Id(rev);
    }
  }

  lemma HistoricalKeepsProjections(env: Env, s: Store, rev: Revision)
    requires ProjectionsMatchLog(env, s) && Id(rev) in s.processed && s.processed[Id(rev)].row == rev
    ensures ProjectionsMatchLog(env, Historical(env, s, rev))
  {
    var t := Historical(env, s, rev);
    forall l | l in t.levels
      ensures t.levels[l].scope == RecordScope(env.geography, t.processed[l.row].row, l.level)
    {
      assert t.levels[l] == HistoricalChild(env, s, rev, l);
    }
  }

  // -------- First classification of a logged revision --------

  lemma FreshRowJoins(env: Env, s: Store, rev: Revision, c: Cell)
    requires ProjectionsMatchLog(env, s) && HeadAgrees(s, rev)
    requires Id(rev) !in s.processed && IsHead(s, rev) && Eligible(env, rev) && c in CellsOf(env, rev)
    ensures rev in Rows(env, Materialized(env, s, rev), c) && rev !in Rows(env, s, c)
    ensures Rows(env, Materialized(env, s, rev), c) - {rev} == Rows(env, s, c)
  {
    MaterializedRows(env, s, rev, c);
  }

  lemma FreshCellEndsWithRow(env: Env, s: Store, rev: Revision, c: Cell)
    requires ProjectionsMatchLog(env, s) && HeadAgrees(s, rev) && CellConsistent(env, s, c)
    requires Id(rev) !in s.processed && IsHead(s, rev) && Eligible(env, rev) && c in CellsOf(env, rev)
    ensures var m := Materialized(env, s, rev);
            && rev in Rows(env, m, c) && Rows(env, m, c) - {rev} == Rows(env, s, c)
            && Get(m.live, c) == Best(Floor(env, c), Rows(env, m, c) - {rev})
            && forall r :: r in Rows(env, m, c) && r != rev ==>
                 && Id(r) != Id(rev)
                 && LevelId(Id(r), c.level) in m.levels
                 && m.levels[LevelId(Id(r), c.level)] == Replayed(Floor(env, c), Rows(env, m, c) - {rev}, c.scope, r)
  {
    var m := Materialized(env, s, rev);
    FreshRowJoins(env, s, rev, c);
    forall r | r in Rows(env, m, c) && r != rev
      ensures Id(r) != Id(rev) && LevelId(Id(r), c.level) in m.levels
      ensures m.levels[LevelId(Id(r), c.level)] == Replayed(Floor(env, c), Rows(env, s, c), c.scope, r)
    {
      MaterializedLevels(env, s, rev, c, r);
    }
  }

  lemma InOrderRowIsEarlier(env: Env, s: Store, rev: Revision, c: Cell, r: Revision)
    requires !OutOfOrder(env, s, rev)
    requires c in CellsOf(env, rev) && r in Rows(env, s, c) && Id(r) != Id(rev)
    ensures Before(r, rev)
  {
    assert !Before(rev, r);
  }

  /** A head classified for the first time is either out of order or the new last row. */
  lemma FreshRowIsLast(env: Env, s: Store, rev: Revision)
    requires ProjectionsMatchLog(env, s) && HeadAgrees(s, rev) && Consistent(env, s)
    requires Id(rev) !in s.processed && IsHead(s, rev) && Eligible(env, rev)
    requires !OutOfOrder(env, Materialized(env, s, rev), rev)
    ensures NewLastRow(env, Materialized(env, s, rev), rev)
  {
    forall c | c in CellsOf(env, rev)
      ensures EndsWith(env, Materialized(env, s, rev), c, rev)
    {
      assert CellConsistent(env, s, c);
      FreshCellIsLast(env, s, rev, c);
    }
  }

  lemma FreshCellIsLast(env: Env, s: Store, rev: Revision, c: Cell)
    requires ProjectionsMatchLog(env, s) && HeadAgrees(s, rev) && CellConsistent(env, s, c)
    requires Id(rev) !in s.processed && IsHead(s, rev) && Eligible(env, rev) && c in CellsOf(env, rev)
    requires !OutOfOrder(env, Materialized(env, s, rev), rev)
    ensures EndsWith(env, Materialized(env, s, rev), c, rev)
  {
    var m := Materialized(env, s, rev);
    FreshCellEndsWithRow(env, s, rev, c);
    forall r | r in Rows(env, m, c) && r != rev
      ensures Before(r, rev)
    {
      InOrderRowIsEarlier(env, m, rev, c, r);
    }
  }

  lemma FreshRowIsUntouched(env: Env, s: Store, rev: Revision)
    requires ProjectionsMatchLog(env, s) && Id(rev) !in s.processed
    ensures Untouched(env, Materialized(env, s, rev), rev)
  {
    forall level: Level
      ensures LevelId(Id(rev), level) in Materialized(env, s, rev).levels
      ensures Materialized(env, s, rev).levels[LevelId(Id(rev), level)] == DefaultChild(RecordScope(env.geography, rev, level))
    {
      var l := LevelId(Id(rev), level);
      assert l in OwnChildren(rev) && l !in s.levels;
    }
  }

  /** Whichever path is taken, the first classification of a head repairs exactly its affected cells. */
  lemma FirstClassificationIsRepair(env: Env, s: Store, rev: Revision)
    requires ProjectionsMatchLog(env, s) && HeadAgrees(s, rev) && Consistent(env, s)
    requires Id(rev) !in s.processed && IsHead(s, rev) && !IsAbsorbed(env, rev)
    ensures Classified(env, s, rev) ==
            RepairCells(env, Materialized(env, s, rev), Affected(env, Materialized(env, s, rev), rev))
  {
    var m := Materialized(env, s, rev);
    MaterializedKeepsProjections(env, s, rev);
    if rev.revision <= 1 && !OutOfOrder(env, m, rev) {
      assert Affected(env, m, rev) == CellsOf(env, rev);
      if RevisionIsValid(rev) {
        FreshRowIsLast(env, s, rev);
        FreshRowIsUntouched(env, s, rev);
        IncrementalIsRepair(env, m, rev);
      } else {
        forall c | c in CellsOf(env, rev)
          ensures CellConsistent(env, m, c)
        {
          MaterializedKeepsCell(env, s, rev, c);
        }
        RepairOfConsistentIsIdentity(env, m, CellsOf(env, rev));
      }
    }
  }

  lemma StaleKeepsCell(env: Env, s: Store, rev: Revision, c: Cell)
    requires ProjectionsMatchLog(env, s) && HeadAgrees(s, rev) && CellConsistent(env, s, c)
    requires Id(rev) !in s.processed && !Joins(env, s, rev, c)
    ensures CellConsistent(env, Historical(env, Materialized(env, s, rev), rev), c)
  {
    MaterializedRows(env, s, rev, c);
    MaterializedKeepsCell(env, s, rev, c);
    HistoricalKeepsCell(env, Materialized(env, s, rev), rev, c);
  }

  /** Classifying any logged revision for the first time, head or not, keeps every cell and every
      current level row equal to a replay over the extended timelines. */
  lemma ClassifyKeepsConsistent(env: Env, s: Store, rev: Revision)
    requires ProjectionsMatchLog(env, s) && HeadAgrees(s, rev) && Consistent(env, s)
    requires Id(rev) !in s.processed
    ensures ProjectionsMatchLog(env, Classified(env, s, rev)) && Consistent(env, Classified(env, s, rev))
  {
    var m := Materialized(env, s, rev);
    var t := Classified(env, s, rev);
    MaterializedKeepsProjections(env, s, rev);
    if !IsHead(s, rev) || IsAbsorbed(env, rev) {
      HistoricalKeepsProjections(env, m, rev);
      forall c: Cell | c.scope != ""
        ensures CellConsistent(env, t, c)
      {
        StaleKeepsCell(env, s, rev, c);
      }
    } else {
      var cells := Affected(env, m, rev);
      FirstClassificationIsRepair(env, s, rev);
      RepairKeepsProjections(env, m, cells);
      forall c: Cell | c.scope != ""
        ensures CellConsistent(env, t, c)
      {
        if c !in cells {
          MaterializedKeepsCell(env, s, rev, c);
        }
        RepairCell(env, m, cells, c);
      }
    }
  }
}
