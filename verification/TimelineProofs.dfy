/** The fast path, the repair path and their agreement, one transaction at a time. */
module TimelineProofs {
  import opened RecordDomain
  import opened RecordOrder
  import opened Adjudication
  import opened Replay
  import opened Classification

  /** Timelines depend only on heads and processed projections. */
  lemma RowsFrame(env: Env, s: Store, t: Store, c: Cell)
    requires s.heads == t.heads && s.processed == t.processed
    ensures Rows(env, s, c) == Rows(env, t, c)
  {
  }

  /** A repaired cell is consistent; every other cell keeps whatever consistency it had. */
  lemma RepairCell(env: Env, s: Store, cells: set<Cell>, c: Cell)
    requires ProjectionsMatchLog(env, s)
    requires c.scope != ""
    requires c in cells || CellConsistent(env, s, c)
    ensures CellConsistent(env, RepairCells(env, s, cells), c)
  {
    var t := RepairCells(env, s, cells);
    RowsFrame(env, s, t, c);
    forall r | r in Rows(env, t, c)
      ensures LevelId(Id(r), c.level) in t.levels
      ensures t.levels[LevelId(Id(r), c.level)] == Replayed(Floor(env, c), Rows(env, t, c), c.scope, r)
    {
      var l := LevelId(Id(r), c.level);
      assert l in s.levels;
      assert OnTimeline(env, s, l) && CellAt(env, s, l) == c;
    }
  }

  lemma RepairKeepsScopes(env: Env, s: Store, cells: set<Cell>, l: LevelId)
    requires ProjectionsMatchLog(env, s) && l in s.levels
    ensures ChildAfterRepair(env, s, cells, l).scope == s.levels[l].scope
  {
    var c := CellAt(env, s, l);
    if OnTimeline(env, s, l) && c in cells && c.scope != "" {
      ReplayedColumns(Floor(env, c), Rows(env, s, c), c.scope, s.processed[l.row].row);
    }
  }

  lemma RepairKeepsProjections(env: Env, s: Store, cells: set<Cell>)
    requires ProjectionsMatchLog(env, s)
    ensures ProjectionsMatchLog(env, RepairCells(env, s, cells))
  {
    var t := RepairCells(env, s, cells);
    forall l | l in t.levels
      ensures t.levels[l].scope == RecordScope(env.geography, t.processed[l.row].row, l.level)
    {
      RepairKeepsScopes(env, s, cells, l);
    }
  }

  /** Repairing cells that already are what a replay gives changes nothing. */
  lemma RepairOfConsistentIsIdentity(env: Env, s: Store, cells: set<Cell>)
    requires ProjectionsMatchLog(env, s)
    requires forall c :: c in cells && c.scope != "" ==> CellConsistent(env, s, c)
    ensures RepairCells(env, s, cells) == s
  {
    var t := RepairCells(env, s, cells);
    forall c: Cell ensures Get(t.live, c) == Get(s.live, c) {
    }
    assert t.live == s.live by {
      forall c: Cell ensures c in t.live <==> c in s.live {
        assert Get(t.live, c) == Get(s.live, c);
      }
    }
    forall l | l in s.levels ensures t.levels[l] == s.levels[l] {
      if OnTimeline(env, s, l) && CellAt(env, s, l) in cells && CellAt(env, s, l).scope != "" {
        assert l == LevelId(Id(s.processed[l.row].row), CellAt(env, s, l).level);
      }
    }
  }

  lemma SameStore(s: Store, t: Store)
    requires s.heads == t.heads && s.log == t.log && s.processed == t.processed
    requires forall c :: Get(s.live, c) == Get(t.live, c)
    requires s.levels.Keys == t.levels.Keys
    requires forall l :: l in s.levels ==> s.levels[l] == t.levels[l]
    ensures s == t
  {
    forall c ensures c in s.live <==> c in t.live
      ensures c in s.live ==> s.live[c] == t.live[c]
    {
      assert Get(s.live, c) == Get(t.live, c);
    }
    assert s.live == t.live;
  }

  // -------- A new last row --------

  /** The timeline of `c` ends with the revision, and without it is what a replay gives. */
  ghost predicate EndsWith(env: Env, s: Store, c: Cell, rev: Revision) {
    && rev in Rows(env, s, c)
    && Get(s.live, c) == Best(Floor(env, c), Rows(env, s, c) - {rev})
    && forall r :: r in Rows(env, s, c) && r != rev ==>
         && Before(r, rev)
         && LevelId(Id(r), c.level) in s.levels
         && s.levels[LevelId(Id(r), c.level)] == Replayed(Floor(env, c), Rows(env, s, c) - {rev}, c.scope, r)
  }

  ghost predicate NewLastRow(env: Env, s: Store, rev: Revision) {
    forall c :: c in CellsOf(env, rev) ==> EndsWith(env, s, c, rev)
  }

  /** Level rows of the revision as materialisation leaves them. */
  ghost predicate Untouched(env: Env, s: Store, rev: Revision) {
    forall level :: LevelId(Id(rev), level) in s.levels &&
      s.levels[LevelId(Id(rev), level)] == DefaultChild(RecordScope(env.geography, rev, level))
  }

  lemma LastRowSeesAllOthers(rows: set<Revision>, rev: Revision)
    requires rev in rows && forall r :: r in rows && r != rev ==> Before(r, rev)
    ensures Earlier(rows, rev) == rows - {rev}
    ensures forall r :: r in rows && r != rev ==> Earlier(rows, r) == Earlier(rows - {rev}, r)
  {
  }

  lemma ComparedOwnRow(env: Env, s: Store, rev: Revision, c: Cell)
    requires ProjectionsMatchLog(env, s) && NewLastRow(env, s, rev) && c in CellsOf(env, rev)
    ensures ShowsReplay(env, s, Compared(env, s, rev), c, rev)
  {
    LastRowSeesAllOthers(Rows(env, s, c), rev);
    assert LevelId(Id(rev), c.level) in s.levels;
  }

  lemma ComparedOlderRow(env: Env, s: Store, rev: Revision, c: Cell, r: Revision)
    requires ProjectionsMatchLog(env, s) && NewLastRow(env, s, rev) && c in CellsOf(env, rev)
    requires r in Rows(env, s, c) && r != rev
    ensures ShowsReplay(env, s, Compared(env, s, rev), c, r)
  {
    var rows := Rows(env, s, c);
    LastRowSeesAllOthers(rows, rev);
    ReplayedColumns(Floor(env, c), rows - {rev}, c.scope, r);
    assert Id(r) != Id(rev);
    assert ComparedChild(env, s, rev, LevelId(Id(r), c.level)) == s.levels[LevelId(Id(r), c.level)];
  }

  /** The mathematical columns of a row of cell `c` in `t` are those of a replay of `s`'s timeline. */
  ghost predicate ShowsReplay(env: Env, s: Store, t: Store, c: Cell, r: Revision) {
    var l := LevelId(Id(r), c.level);
    && l in s.levels && l in t.levels
    && t.levels[l].scope == c.scope
    && t.levels[l].outcome == ReplayOutcome(Floor(env, c), Rows(env, s, c), r)
    && t.levels[l].incumbent == Incumbent(Floor(env, c), Rows(env, s, c), r)
  }

  lemma ComparedShowsReplay(env: Env, s: Store, rev: Revision, c: Cell, r: Revision)
    requires ProjectionsMatchLog(env, s) && NewLastRow(env, s, rev)
    requires c in CellsOf(env, rev) && r in Rows(env, s, c)
    ensures ShowsReplay(env, s, Compared(env, s, rev), c, r)
  {
    if r == rev {
      ComparedOwnRow(env, s, rev, c);
    } else {
      ComparedOlderRow(env, s, rev, c, r);
    }
  }

  lemma ComparedCellLive(env: Env, s: Store, rev: Revision, c: Cell)
    requires NewLastRow(env, s, rev) && c in CellsOf(env, rev)
    ensures Get(Compared(env, s, rev).live, c) == Best(Floor(env, c), Rows(env, s, c))
  {
    BestWith(Floor(env, c), Rows(env, s, c) - {rev}, rev);
    assert Rows(env, s, c) - {rev} + {rev} == Rows(env, s, c);
  }

  lemma ShownQualifying(env: Env, s: Store, t: Store, c: Cell)
    requires s.heads == t.heads && s.processed == t.processed
    requires forall r :: r in Rows(env, s, c) ==> ShowsReplay(env, s, t, c, r)
    ensures StoredQualifying(env, t, c) == ReplayQualifying(Floor(env, c), Rows(env, s, c))
  {
    RowsFrame(env, s, t, c);
    forall r
      ensures r in StoredQualifying(env, t, c) <==> r in ReplayQualifying(Floor(env, c), Rows(env, s, c))
    {
      if r in Rows(env, s, c) {
        assert ShowsReplay(env, s, t, c, r);
      }
    }
  }

  lemma ComparedQualifying(env: Env, s: Store, rev: Revision, c: Cell)
    requires ProjectionsMatchLog(env, s) && NewLastRow(env, s, rev) && c in CellsOf(env, rev)
    ensures StoredQualifying(env, Compared(env, s, rev), c) == ReplayQualifying(Floor(env, c), Rows(env, s, c))
  {
    forall r | r in Rows(env, s, c)
      ensures ShowsReplay(env, s, Compared(env, s, rev), c, r)
    {
      ComparedShowsReplay(env, s, rev, c, r);
    }
    ShownQualifying(env, s, Compared(env, s, rev), c);
  }

  /** On a new last row the incremental path leaves exactly the tables the full repair of the
      extended timelines leaves, older rows' re-adjudication included. */
  lemma IncrementalIsRepair(env: Env, s: Store, rev: Revision)
    requires ProjectionsMatchLog(env, s)
    requires Id(rev) in s.processed && s.processed[Id(rev)] == Processed(rev, true) && !IsAbsorbed(env, rev)
    requires NewLastRow(env, s, rev) && Untouched(env, s, rev)
    ensures Incremental(env, s, rev) == RepairCells(env, s, CellsOf(env, rev))
  {
    var cells := CellsOf(env, rev);
    var m := Compared(env, s, rev);
    var t := Adjudicated(env, m, cells);
    var u := RepairCells(env, s, cells);
    forall c: Cell ensures Get(t.live, c) == Get(u.live, c) {
      if c in cells {
        ComparedCellLive(env, s, rev, c);
      }
    }
    forall l | l in s.levels ensures t.levels[l] == u.levels[l] {
      IncrementalChildIsRepaired(env, s, rev, l);
    }
    SameStore(t, u);
  }

  lemma JudgeOfReplayIsReplayed(child: LevelRow, baseline: Option<int>, rows: set<Revision>, scope: string, r: Revision)
    requires Distinct(rows)
    requires child.scope == scope && child.outcome == ReplayOutcome(baseline, rows, r)
    requires child.incumbent == Incumbent(baseline, rows, r)
    ensures Judge(child, ReplayQualifying(baseline, rows), Best(baseline, rows), scope, r) == Replayed(baseline, rows, scope, r)
  {
  }

  lemma IncrementalChildIsRepaired(env: Env, s: Store, rev: Revision, l: LevelId)
    requires ProjectionsMatchLog(env, s) && l in s.levels
    requires Id(rev) in s.processed && s.processed[Id(rev)] == Processed(rev, true)
    requires NewLastRow(env, s, rev) && Untouched(env, s, rev)
    ensures JudgedChild(env, Compared(env, s, rev), CellsOf(env, rev), l) ==
            ChildAfterRepair(env, s, CellsOf(env, rev), l)
  {
    var cells := CellsOf(env, rev);
    var m := Compared(env, s, rev);
    var c := CellAt(env, s, l);
    var row := s.processed[l.row].row;
    if OnTimeline(env, s, l) && c in cells {
      TimelineChildIsRepaired(env, s, rev, l);
    } else if l.row == Id(rev) {
      assert l == LevelId(Id(rev), l.level);
      assert c == CellOf(env, rev, l.level);
      assert c in cells ==> OnTimeline(env, s, l);
    }
  }

  lemma TimelineChildIsRepaired(env: Env, s: Store, rev: Revision, l: LevelId)
    requires ProjectionsMatchLog(env, s) && l in s.levels && NewLastRow(env, s, rev)
    requires OnTimeline(env, s, l) && CellAt(env, s, l) in CellsOf(env, rev)
    ensures JudgedChild(env, Compared(env, s, rev), CellsOf(env, rev), l) ==
            ChildAfterRepair(env, s, CellsOf(env, rev), l)
  {
    var m := Compared(env, s, rev);
    var c, row := CellAt(env, s, l), s.processed[l.row].row;
    assert l == LevelId(Id(row), c.level);
    ComparedShowsReplay(env, s, rev, c, row);
    ComparedQualifying(env, s, rev, c);
    ComparedCellLive(env, s, rev, c);
    JudgeOfReplayIsReplayed(m.levels[l], Floor(env, c), Rows(env, s, c), c.scope, row);
  }
}
