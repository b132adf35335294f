/** Running the incremental path again on a result its live cells already contain. */
module RerunProofs {
  import opened RecordDomain
  import opened RecordOrder
  import opened Replay
  import opened Classification
  import opened TimelineProofs

  /** The revision is the last row of each of its timelines and has already been folded into them. */
  ghost predicate FoldedLast(env: Env, s: Store, rev: Revision) {
    && Id(rev) in s.processed && s.processed[Id(rev)] == Processed(rev, true) && !IsAbsorbed(env, rev)
    && (forall c :: c in CellsOf(env, rev) ==> FoldedLastIn(env, s, c, rev))
    && (forall level: Level :: RecordScope(env.geography, rev, level) == "" ==>
          LevelId(Id(rev), level) in s.levels && s.levels[LevelId(Id(rev), level)] == DefaultChild(""))
  }

  ghost predicate FoldedLastIn(env: Env, s: Store, c: Cell, rev: Revision) {
    && CellConsistent(env, s, c) && rev in Rows(env, s, c)
    && forall r :: r in Rows(env, s, c) && r != rev ==> Before(r, rev)
  }

  /** Compared with a live value that already contains it, a break looks like a tie. */
  lemma SecondComparison(floor: Option<int>, rows: set<Revision>, r: Revision)
    requires r in rows && forall x :: x in rows && x != r ==> Before(x, r)
    ensures Compare(r.value, Best(floor, rows)) ==
            if ReplayOutcome(floor, rows, r) == Broken then Tied else ReplayOutcome(floor, rows, r)
    ensures ReplayOutcome(floor, rows, r) != Broken ==> Best(floor, rows) == Incumbent(floor, rows, r)
  {
    LastRowSeesAllOthers(rows, r);
    BestWith(floor, rows - {r}, r);
    assert rows - {r} + {r} == rows;
  }

  lemma RerunKeepsLiveCell(env: Env, s: Store, rev: Revision, c: Cell)
    requires c in CellsOf(env, rev) && FoldedLastIn(env, s, c, rev)
    ensures !Improves(env, s, rev, c)
  {
    SecondComparison(Floor(env, c), Rows(env, s, c), rev);
  }

  lemma RerunKeepsLive(env: Env, s: Store, rev: Revision)
    requires FoldedLast(env, s, rev)
    ensures forall c :: Get(Incremental(env, s, rev).live, c) == Get(s.live, c)
  {
    forall c
      ensures Get(Compared(env, s, rev).live, c) == Get(s.live, c)
    {
      if c in CellsOf(env, rev) {
        RerunKeepsLiveCell(env, s, rev, c);
      }
    }
  }

  ghost predicate BrokeNothing(env: Env, s: Store, rev: Revision) {
    forall c :: c in CellsOf(env, rev) ==> ReplayOutcome(Floor(env, c), Rows(env, s, c), rev) != Broken
  }

  lemma RerunShowsReplay(env: Env, s: Store, rev: Revision, c: Cell, r: Revision)
    requires ProjectionsMatchLog(env, s) && FoldedLast(env, s, rev) && BrokeNothing(env, s, rev)
    requires c in CellsOf(env, rev) && r in Rows(env, s, c)
    ensures ShowsReplay(env, s, Compared(env, s, rev), c, r)
  {
    assert FoldedLastIn(env, s, c, rev);
    var l := LevelId(Id(r), c.level);
    ReplayedColumns(Floor(env, c), Rows(env, s, c), c.scope, r);
    assert Compared(env, s, rev).levels[l] == ComparedChild(env, s, rev, l);
    if r == rev {
      SecondComparison(Floor(env, c), Rows(env, s, c), rev);
    } else {
      assert Id(r) != Id(rev);
    }
  }

  lemma RerunQualifying(env: Env, s: Store, rev: Revision, c: Cell)
    requires ProjectionsMatchLog(env, s) && FoldedLast(env, s, rev) && BrokeNothing(env, s, rev)
    requires c in CellsOf(env, rev)
    ensures StoredQualifying(env, Compared(env, s, rev), c) == ReplayQualifying(Floor(env, c), Rows(env, s, c))
  {
    forall r | r in Rows(env, s, c)
      ensures ShowsReplay(env, s, Compared(env, s, rev), c, r)
    {
      RerunShowsReplay(env, s, rev, c, r);
    }
    ShownQualifying(env, s, Compared(env, s, rev), c);
  }

  lemma RerunKeepsTimelineChild(env: Env, s: Store, rev: Revision, l: LevelId)
    requires ProjectionsMatchLog(env, s) && FoldedLast(env, s, rev) && BrokeNothing(env, s, rev)
    requires l in s.levels && OnTimeline(env, s, l) && CellAt(env, s, l) in CellsOf(env, rev)
    ensures Incremental(env, s, rev).levels[l] == s.levels[l]
  {
    var m := Compared(env, s, rev);
    var c := CellAt(env, s, l);
    var row := s.processed[l.row].row;
    assert Incremental(env, s, rev).levels[l] == JudgedChild(env, m, CellsOf(env, rev), l);
    assert l == LevelId(Id(row), c.level) && row in Rows(env, s, c);
    assert FoldedLastIn(env, s, c, rev);
    RerunShowsReplay(env, s, rev, c, row);
    RerunQualifying(env, s, rev, c);
    RerunKeepsLiveCell(env, s, rev, c);
    JudgeOfReplayIsReplayed(m.levels[l], Floor(env, c), Rows(env, s, c), c.scope, row);
  }

  lemma RerunKeepsChild(env: Env, s: Store, rev: Revision, l: LevelId)
    requires ProjectionsMatchLog(env, s) && FoldedLast(env, s, rev) && BrokeNothing(env, s, rev)
    requires l in s.levels
    ensures Incremental(env, s, rev).levels[l] == s.levels[l]
  {
    var m := Compared(env, s, rev);
    var c := CellAt(env, s, l);
    if OnTimeline(env, s, l) && c in CellsOf(env, rev) {
      RerunKeepsTimelineChild(env, s, rev, l);
    } else {
      assert Incremental(env, s, rev).levels[l] == JudgedChild(env, m, CellsOf(env, rev), l);
      assert m.levels[l] == ComparedChild(env, s, rev, l);
      if l.row == Id(rev) {
        assert l == LevelId(Id(rev), l.level) && c == CellOf(env, rev, l.level);
        assert c in CellsOf(env, rev) ==> FoldedLastIn(env, s, c, rev);
      }
    }
  }

  lemma RerunOwnOutcome(env: Env, s: Store, rev: Revision, l: LevelId)
    requires FoldedLast(env, s, rev) && l in s.levels && l.row == Id(rev) && RecordScope(env.geography, rev, l.level) != ""
    ensures Incremental(env, s, rev).levels[l].outcome == Compare(rev.value, Get(s.live, CellOf(env, rev, l.level)))
  {
    var m := Compared(env, s, rev);
    assert m.levels[l] == ComparedChild(env, s, rev, l);
    assert Incremental(env, s, rev).levels[l] == JudgedChild(env, m, CellsOf(env, rev), l);
  }

  lemma RerunDowngradesBreak(env: Env, s: Store, rev: Revision, c: Cell)
    requires FoldedLast(env, s, rev) && c in CellsOf(env, rev)
    requires ReplayOutcome(Floor(env, c), Rows(env, s, c), rev) == Broken
    ensures var l := LevelId(Id(rev), c.level);
            l in s.levels && s.levels[l].outcome == Broken && Incremental(env, s, rev).levels[l].outcome == Tied
  {
    assert FoldedLastIn(env, s, c, rev);
    SecondComparison(Floor(env, c), Rows(env, s, c), rev);
    ReplayedColumns(Floor(env, c), Rows(env, s, c), c.scope, rev);
    RerunOwnOutcome(env, s, rev, LevelId(Id(rev), c.level));
  }

  /** A second incremental classification of the last row changes nothing exactly when the row broke
      no record; otherwise its BROKEN outcome becomes TIED. Live values survive either way. */
  lemma RerunIsIdentityExactly(env: Env, s: Store, rev: Revision)
    requires ProjectionsMatchLog(env, s) && FoldedLast(env, s, rev)
    ensures Incremental(env, s, rev) == s <==> BrokeNothing(env, s, rev)
  {
    if BrokeNothing(env, s, rev) {
      forall l | l in s.levels
        ensures Incremental(env, s, rev).levels[l] == s.levels[l]
      {
        RerunKeepsChild(env, s, rev, l);
      }
      RerunKeepsLive(env, s, rev);
      SameStore(Incremental(env, s, rev), s);
    } else {
      var c :| c in CellsOf(env, rev) && ReplayOutcome(Floor(env, c), Rows(env, s, c), rev) == Broken;
      RerunDowngradesBreak(env, s, rev, c);
    }
  }
}
