/** The classifier as a service over mutable tables. Each method follows the statements of the
    original transaction and is proved to leave exactly the tables Classification describes. */
module ClassificationService {
  import opened RecordDomain
  import opened RecordOrder
  import opened Adjudication
  import opened Replay
  import opened Classification
  import opened TimelineProofs
  import opened SettledProofs
  import opened RunProofs
  import opened BaselineProofs


  // -------- Sorting by the classification key --------

  function InsertByKey(rows: seq<Revision>, r: Revision): seq<Revision> {
    if rows == [] then [r]
    else if Before(r, rows[0]) then [r] + rows
    else [rows[0]] + InsertByKey(rows[1..], r)
  }

  lemma {:induction false} InsertKeepsSorted(rows: seq<Revision>, r: Revision)
    requires SortedByKey(rows) && Distinct(Members(rows) + {r}) && r !in rows
    ensures SortedByKey(InsertByKey(rows, r))
    ensures Members(InsertByKey(rows, r)) == Members(rows) + {r}
  {
    if rows != [] && !Before(r, rows[0]) {
      assert rows[0] in Members(rows) + {r} && r in Members(rows) + {r};
      assert Before(rows[0], r);
      assert Members(rows[1..]) + {r} <= Members(rows) + {r};
      InsertKeepsSorted(rows[1..], r);
      var rest := InsertByKey(rows[1..], r);
      assert rows == [rows[0]] + rows[1..];
      forall x | x in rest
        ensures Before(rows[0], x)
      {
        assert x in Members(rest);
      }
    }
  }

  method SortRows(rows: set<Revision>) returns (sorted: seq<Revision>)
    requires Distinct(rows)
    ensures SortedByKey(sorted) && Members(sorted) == rows
  {
    sorted := [];
    var pending := rows;
    while pending != {}
      invariant pending <= rows && SortedByKey(sorted) && Members(sorted) == rows - pending
      decreases pending
    {
      var r :| r in pending;
      InsertKeepsSorted(sorted, r);
      sorted := InsertByKey(sorted, r);
      pending := pending - {r};
    }
  }

  // -------- Composition of whole-table descriptions --------

  lemma RepairInTurn(env: Env, s: Store, done: set<Cell>, c: Cell)
    ensures RepairCells(env, RepairCells(env, s, done), {c}) == RepairCells(env, s, done + {c})
  {
    var m := RepairCells(env, s, done);
    var t := RepairCells(env, m, {c});
    var u := RepairCells(env, s, done + {c});
    forall d: Cell
      ensures Get(t.live, d) == Get(u.live, d)
    {
      RowsFrame(env, s, m, d);
    }
    forall l | l in s.levels
      ensures t.levels[l] == u.levels[l]
    {
      if l.row in s.processed {
        RowsFrame(env, s, m, CellAt(env, s, l));
      }
    }
    SameStore(t, u);
  }

  lemma JudgedOutcome(env: Env, s: Store, cells: set<Cell>, l: LevelId)
    requires l in s.levels
    ensures JudgedChild(env, s, cells, l).scope == s.levels[l].scope
    ensures JudgedChild(env, s, cells, l).outcome == s.levels[l].outcome
    ensures JudgedChild(env, s, cells, l).incumbent == s.levels[l].incumbent
  {
  }

  lemma JudgedQualifying(env: Env, s: Store, cells: set<Cell>, d: Cell)
    ensures StoredQualifying(env, Adjudicated(env, s, cells), d) == StoredQualifying(env, s, d)
  {
    var m := Adjudicated(env, s, cells);
    RowsFrame(env, s, m, d);
    forall l | l in s.levels
      ensures m.levels[l].outcome == s.levels[l].outcome
    {
      JudgedOutcome(env, s, cells, l);
    }
  }

  lemma JudgeReadsColumnsOnly(a: LevelRow, b: LevelRow, q: set<Revision>, final: Option<int>, scope: string, r: Revision)
    requires Distinct(q) && a.scope == b.scope && a.outcome == b.outcome && a.incumbent == b.incumbent
    ensures Judge(a, q, final, scope, r) == Judge(b, q, final, scope, r)
  {
  }

  lemma AdjudicateInTurn(env: Env, s: Store, done: set<Cell>, c: Cell)
    ensures Adjudicated(env, Adjudicated(env, s, done), {c}) == Adjudicated(env, s, done + {c})
  {
    var m := Adjudicated(env, s, done);
    var t := Adjudicated(env, m, {c});
    var u := Adjudicated(env, s, done + {c});
    forall l | l in s.levels
      ensures t.levels[l] == u.levels[l]
    {
      if l.row in s.processed {
        var d := CellAt(env, s, l);
        JudgedQualifying(env, s, done, d);
        JudgedOutcome(env, s, done, l);
        JudgeReadsColumnsOnly(s.levels[l], m.levels[l], StoredQualifying(env, s, d), Get(s.live, d), d.scope, s.processed[l.row].row);
      }
    }
    MapsAgree(t.levels, u.levels);
  }

  lemma NoCellsNoChange(env: Env, s: Store)
    ensures RepairCells(env, s, {}) == s && Adjudicated(env, s, {}) == s
  {
    SameStore(RepairCells(env, s, {}), s);
    MapsAgree(Adjudicated(env, s, {}).levels, s.levels);
  }

  method LeastValue(floor: Option<int>, rows: seq<Revision>) returns (incumbent: Option<int>)
    ensures incumbent == Best(floor, Members(rows))
  {
    incumbent := floor;
    assert Members(rows[..0]) == {};
    for i := 0 to |rows|
      invariant incumbent == Best(floor, Members(rows[..i]))
    {
      assert rows[..i + 1] == rows[..i] + [rows[i]];
      MembersSnoc(rows[..i], rows[i]);
      BestWith(floor, Members(rows[..i]), rows[i]);
      if Compare(rows[i].value, incumbent) == Broken {
        incumbent := Some(rows[i].value);
      }
    }
    assert rows[..|rows|] == rows;
  }

  /** The row of one level after its comparison; the cell itself is written by the caller. */
  method CompareLevel(env: Env, rev: Revision, level: Level, child: LevelRow, live: map<Cell, int>)
    returns (outcome: Outcome, after: LevelRow)
    ensures var c := CellOf(env, rev, level);
            && outcome == (if c.scope == "" then NoRecord else Compare(rev.value, Get(live, c)))
            && after.scope == c.scope && after.outcome == outcome
            && after.incumbent == (if c.scope == "" then child.incumbent else Get(live, c))
            && after.recognition == (if outcome == NoRecord then NotApplicable else Recognized)
            && after == child.(scope := after.scope, outcome := after.outcome, incumbent := after.incumbent,
                               recognition := after.recognition)
  {
    var scope := RecordScope(env.geography, rev, level);
    if scope == "" {
      outcome := NoRecord;
      after := child.(scope := scope, outcome := NoRecord, recognition := NotApplicable);
      return;
    }
    var incumbent := Get(live, CellOf(env, rev, level));
    outcome := Compare(rev.value, incumbent);
    after := child.(scope := scope, incumbent := incumbent, outcome := outcome,
                    recognition := if outcome != NoRecord then Recognized else NotApplicable);
  }

  /** Compare one level: write its row, and advance its cell on a strict improvement. */
  method CompareNext(env: Env, ghost s: Store, rev: Revision, i: nat, levels: map<LevelId, LevelRow>, live: map<Cell, int>)
    returns (levels': map<LevelId, LevelRow>, live': map<Cell, int>)
    requires i < |RECORD_LEVELS| && LevelId(Id(rev), RECORD_LEVELS[i]) in s.levels
    requires ComparedUpTo(env, s, rev, i, levels, live)
    ensures ComparedUpTo(env, s, rev, i + 1, levels', live')
  {
    CompareStep(env, s, rev, i, levels, live);
    var level := RECORD_LEVELS[i];
    var c := CellOf(env, rev, level);
    var outcome, child := CompareLevel(env, rev, level, levels[LevelId(Id(rev), level)], live);
    levels' := levels[LevelId(Id(rev), level) := child];
    live' := if c.scope != "" && outcome == Broken then live[c := rev.value] else live;
  }

  predicate ProjectionKeysMatch(processed: map<RowId, Processed>) {
    forall k :: k in processed ==> Id(processed[k].row) == k
  }

  class Classifier {
    var env: Env
    var heads: map<nat, Head>
    var log: map<RowId, Revision>
    var processed: map<RowId, Processed>
    var levels: map<LevelId, LevelRow>
    var live: map<Cell, int>

    /** Empty tables over an installed export: live cells start as its exact copy. */
    constructor (env: Env)
      ensures this.env == env && State() == Store(map[], map[], map[], map[], env.baseline)
    {
      this.env := env;
      heads, log, processed, levels := map[], map[], map[], map[];
      live := env.baseline;
    }

    function State(): Store
      reads this
    {
      Store(heads, log, processed, levels, live)
    }

    /** The rows of a current timeline, in classification order. */
    method CurrentTimeline(c: Cell) returns (rows: seq<Revision>)
      ensures SortedByKey(rows) && Members(rows) == Rows(env, State(), c)
    {
      var matching := set k | k in processed && Counts(env, State(), processed[k].row, c) :: processed[k].row;
      assert matching == Rows(env, State(), c);
      rows := SortRows(matching);
    }

    /** The level rows of a timeline, by row. */
    method ReadChildren(c: Cell, results: seq<Revision>) returns (children: map<RowId, LevelRow>)
      requires ProjectionsMatchLog(env, State()) && Members(results) == Rows(env, State(), c)
      ensures ChildrenOf(State(), c, Members(results), children)
    {
      children := map[];
      for i := 0 to |results|
        invariant ChildrenOf(State(), c, Members(results[..i]), children)
      {
        var r := results[i];
        assert r in Members(results) && Id(r) in processed && LevelId(Id(r), c.level) in levels;
        assert results[..i + 1] == results[..i] + [r];
        children := children[Id(r) := levels[LevelId(Id(r), c.level)]];
      }
      assert results[..|results|] == results;
    }

    method AdjudicateTimeline(c: Cell)
      requires ProjectionsMatchLog(env, State())
      modifies this`levels
      ensures State() == Adjudicated(env, old(State()), {c})
    {
      ghost var s := State();
      var results := CurrentTimeline(c);
      var children := ReadChildren(c, results);
      var judged := Adjudicate(results, children, Get(live, c), c.scope);
      QualifyingChildren(env, s, c, results, children);
      levels := map l | l in levels :: if l.level == c.level && l.row in judged then judged[l.row] else levels[l];
      AdjudicatedByRows(env, s, c, results, children, judged, levels);
    }

    /** Replay one timeline from its baseline. */
    method RepairTimeline(c: Cell)
      requires ProjectionsMatchLog(env, State())
      modifies this`levels, this`live
      ensures State() == RepairCells(env, old(State()), {c})
    {
      ghost var s := State();
      if c.scope == "" {
        UnnamedCellUnrepaired(env, s, c);
        return;
      }
      var incumbent := ReplayRows(c);
      live := Put(live, c, incumbent);
      ghost var m := State();
      ReplayedProjections(env, s, c, m);
      AdjudicateTimeline(c);
      RepairBySteps(env, s, c, m);
    }

    /** Fold the timeline in key order, writing each row's outcome; the last incumbent is returned. */
    method ReplayRows(c: Cell) returns (incumbent: Option<int>)
      requires ProjectionsMatchLog(env, State())
      modifies this`levels
      ensures incumbent == Best(Floor(env, c), Rows(env, old(State()), c))
      ensures ReplayedSoFar(env, old(State()), c, Rows(env, old(State()), c), levels)
    {
      var timeline := CurrentTimeline(c);
      incumbent := Get(env.baseline, c);
      levels, incumbent := FoldTimeline(env, State(), c, timeline, levels, incumbent);
    }

    // -------- Materialisation --------

    /** First transaction: the projection, its missing level rows, and retirement of older projections. */
    method Materialize(rev: Revision)
      modifies this`processed, this`levels
      ensures State() == Materialized(env, old(State()), rev)
    {
      ghost var s := State();
      processed := processed[Id(rev) := Processed(rev, RevisionIsValid(rev))];
      CreateLevels(rev);
      ghost var created := levels;
      var older := InvalidateOlder(rev);
      OlderProjections(s, rev, s.processed[Id(rev) := Processed(rev, RevisionIsValid(rev))], older);
      MaterializedBySteps(env, s, rev, created, older);
      MapsAgree(processed, Materialized(env, s, rev).processed);
    }

    method CreateLevels(rev: Revision)
      modifies this`levels
      ensures ChildrenCreated(env, old(levels), rev, |RECORD_LEVELS|, levels)
    {
      ghost var before := levels;
      for i := 0 to |RECORD_LEVELS|
        invariant ChildrenCreated(env, before, rev, i, levels)
      {
        var l := LevelId(Id(rev), RECORD_LEVELS[i]);
        if l !in levels {
          levels := levels[l := DefaultChild(RecordScope(env.geography, rev, l.level))];
        }
      }
    }

    method InvalidateOlder(rev: Revision) returns (older: set<RowId>)
      modifies this`processed, this`levels
      ensures older == set k | k in old(processed) && k.result == rev.resultId && k.revision < rev.revision && old(processed)[k].valid
      ensures processed == map k | k in old(processed) :: if k in older then old(processed)[k].(valid := false) else old(processed)[k]
      ensures levels == map l | l in old(levels) :: if l.row in older then old(levels)[l].(holds := false) else old(levels)[l]
    {
      older := set k | k in processed && k.result == rev.resultId && k.revision < rev.revision && processed[k].valid;
      processed := map k | k in processed :: if k in older then processed[k].(valid := false) else processed[k];
      levels := map l | l in levels :: if l.row in older then levels[l].(holds := false) else levels[l];
    }

    // -------- The incremental path --------

    method IsOutOfOrder(rev: Revision) returns (late: bool)
      ensures late == OutOfOrder(env, State(), rev)
    {
      for i := 0 to |RECORD_LEVELS|
        invariant forall level: Level :: Rank(level) < i ==> !LaterRow(env, State(), rev, CellOf(env, rev, level))
      {
        var c := CellOf(env, rev, RECORD_LEVELS[i]);
        if c.scope != "" {
          var timeline := CurrentTimeline(c);
          assert forall r :: r in timeline <==> r in Members(timeline);
          if exists r :: r in timeline && Id(r) != Id(rev) && Before(rev, r) {
            assert c in CellsOf(env, rev);
            return true;
          }
        }
      }
      return false;
    }

    method ClassifyIncremental(rev: Revision)
      requires ProjectionsMatchLog(env, State()) && Id(rev) in processed && processed[Id(rev)].row == rev
      modifies this`levels, this`live
      ensures State() == Incremental(env, old(State()), rev)
    {
      ghost var s := State();
      if processed[Id(rev)].valid && !IsAbsorbed(env, rev) {
        OwnChildrenPresent(env, s, rev);
        ComparedKeepsProjections(env, s, rev);
        var affected := CompareLevels(rev);
        AdjudicateTimelines(affected);
      }
    }

    /** One comparison per level against the live cell, advancing strict improvements. */
    method CompareLevels(rev: Revision) returns (affected: seq<Cell>)
      requires forall level: Level :: LevelId(Id(rev), level) in levels
      modifies this`levels, this`live
      ensures State() == Compared(env, old(State()), rev)
      ensures CellSet(affected) == CellsOf(env, rev)
    {
      ghost var s := State();
      affected := [];
      for i := 0 to |RECORD_LEVELS|
        invariant ComparedUpTo(env, s, rev, i, levels, live) && CellsUpTo(env, rev, i, affected)
      {
        CellsStep(env, rev, i, affected);
        var c := CellOf(env, rev, RECORD_LEVELS[i]);
        levels, live := CompareNext(env, s, rev, i, levels, live);
        if c.scope != "" {
          affected := affected + [c];
        }
      }
      ComparedAll(env, s, rev, levels, live);
      AllCells(env, rev, affected);
    }

    method AdjudicateTimelines(cells: seq<Cell>)
      requires ProjectionsMatchLog(env, State())
      modifies this`levels
      ensures State() == Adjudicated(env, old(State()), CellSet(cells))
    {
      ghost var s := State();
      NoCellsNoChange(env, s);
      for i := 0 to |cells|
        invariant State() == Adjudicated(env, s, CellSet(cells[..i])) && ProjectionsMatchLog(env, State())
      {
        AdjudicateTimeline(cells[i]);
        AdjudicateInTurn(env, s, CellSet(cells[..i]), cells[i]);
        CellSetStep(cells, i);
        AdjudicatedKeepsProjections(env, s, CellSet(cells[..i + 1]));
      }
      assert cells[..|cells|] == cells;
    }

    // -------- Stale and absorbed revisions --------

    method ClassifyStaleHistorical(rev: Revision)
      requires LogKeysMatch(State()) && ProjectionsMatchLog(env, State())
      requires Id(rev) in processed && processed[Id(rev)].row == rev
      modifies this`levels
      ensures State() == Historical(env, old(State()), rev)
    {
      ghost var s := State();
      SaveHistorical(rev, |RECORD_LEVELS|);
      HistoricalAll(env, s, rev);
    }

    /** Save the first `count` level rows, each on its own. */
    method SaveHistorical(rev: Revision, count: nat)
      requires LogKeysMatch(State()) && ProjectionsMatchLog(env, State()) && count <= |RECORD_LEVELS|
      requires Id(rev) in processed && processed[Id(rev)].row == rev
      modifies this`levels
      ensures State() == PartlyHistorical(env, old(State()), rev, count)
    {
      ghost var s := State();
      assert ProjectionKeysMatch(processed);
      for i := 0 to count
        invariant HistoricalUpTo(env, s, rev, i, levels)
      {
        HistoricalNext(rev, i, s);
      }
      PartlySaved(env, s, rev, count, levels);
    }

    method HistoricalNext(rev: Revision, i: nat, ghost s: Store)
      requires i < |RECORD_LEVELS| && State() == s.(levels := levels) && HistoricalUpTo(env, s, rev, i, levels)
      requires ProjectionsMatchLog(env, s) && ProjectionKeysMatch(processed) && Id(rev) in processed && processed[Id(rev)].row == rev
      modifies this`levels
      ensures HistoricalUpTo(env, s, rev, i + 1, levels)
    {
      var level := RECORD_LEVELS[i];
      var l := LevelId(Id(rev), level);
      HistoricalStep(env, s, rev, i, levels);
      HistoricalFrame(env, s, State(), rev, l);
      var child := HistoricalLevel(rev, level, levels[l]);
      levels := levels[l := child];
    }

    method HistoricalLevel(rev: Revision, level: Level, child: LevelRow) returns (after: LevelRow)
      requires ProjectionKeysMatch(processed)
      requires Id(rev) in processed && processed[Id(rev)].row == rev
      requires LevelId(Id(rev), level) in levels && child == levels[LevelId(Id(rev), level)]
      ensures after == HistoricalChild(env, State(), rev, LevelId(Id(rev), level))
    {
      var scope := RecordScope(env.geography, rev, level);
      var incumbent := HistoricalIncumbent(rev, level);
      var outcome := if processed[Id(rev)].valid && scope != "" then Compare(rev.value, incumbent) else NoRecord;
      after := child.(scope := scope, incumbent := incumbent, outcome := outcome, holds := false,
                      recognition := if outcome != NoRecord then Recognized else NotApplicable);
    }

    /** The best of the baseline and of every earlier projection of the scope, valid or not. */
    method HistoricalIncumbent(rev: Revision, level: Level) returns (incumbent: Option<int>)
      requires ProjectionKeysMatch(processed)
      ensures var c := CellOf(env, rev, level);
              incumbent == Best(if c.scope != "" then Floor(env, c) else None, EarlierHistory(env, State(), rev, level))
    {
      var c := CellOf(env, rev, level);
      var rows := set k | k in processed && k != Id(rev) && CellOf(env, processed[k].row, level) == c
                          && Before(processed[k].row, rev) :: processed[k].row;
      assert rows == EarlierHistory(env, State(), rev, level);
      HistoryIsDistinct(env, State(), rev, level);
      var earlier := SortRows(rows);
      incumbent := LeastValue(if c.scope != "" then Get(env.baseline, c) else None, earlier);
    }

    // -------- Whole classifications --------

    /** The scopes of the revision and of the one just before it. */
    method AffectedScopes(rev: Revision) returns (cells: seq<Cell>)
      ensures CellSet(cells) == Affected(env, State(), rev)
    {
      cells := ScopesOf(rev);
      if rev.revision > 1 && RowId(rev.resultId, rev.revision - 1) in log {
        var before := ScopesOf(log[RowId(rev.resultId, rev.revision - 1)].(event := rev.event, kind := rev.kind));
        cells := cells + before;
      }
    }

    method ScopesOf(rev: Revision) returns (cells: seq<Cell>)
      ensures CellSet(cells) == CellsOf(env, rev)
    {
      cells := [];
      for i := 0 to |RECORD_LEVELS|
        invariant CellsUpTo(env, rev, i, cells)
      {
        CellsStep(env, rev, i, cells);
        var c := CellOf(env, rev, RECORD_LEVELS[i]);
        if c.scope != "" {
          cells := cells + [c];
        }
      }
      AllCells(env, rev, cells);
    }

    /** Classify one immutable revision with no other writer in between. */
    method ClassifyRevision(rev: Revision) returns (current: bool)
      requires LogKeysMatch(State()) && ProjectionsMatchLog(env, State()) && HeadAgrees(State(), rev)
      modifies this`processed, this`levels, this`live
      ensures State() == Classified(env, old(State()), rev)
      ensures current <==> IsHead(State(), rev)
      ensures ProjectionsMatchLog(env, State())
    {
      ProjectedIsReady(env, State(), rev);
      ClassifiedKeepsProjections(env, State(), rev);
      Materialize(rev);
      current := ClassifyProjected(rev);
    }

    /** What follows the projection: history for a stale or absorbed revision, repair or the fast path for a head. */
    method ClassifyProjected(rev: Revision) returns (current: bool)
      requires LogKeysMatch(State()) && ProjectionsMatchLog(env, State()) && HeadAgrees(State(), rev)
      requires Id(rev) in processed && processed[Id(rev)].row == rev
      modifies this`levels, this`live
      ensures State() == if !IsHead(old(State()), rev) || IsAbsorbed(env, rev) then Historical(env, old(State()), rev)
                         else Committed(env, old(State()), rev, rev.revision > 1 || OutOfOrder(env, old(State()), rev))
      ensures current <==> IsHead(State(), rev)
    {
      if heads[rev.resultId].revision > rev.revision {
        ClassifyStaleHistorical(rev);
        return false;
      }
      if IsAbsorbed(env, rev) {
        ClassifyStaleHistorical(rev);
        return true;
      }
      var late := IsOutOfOrder(rev);
      if rev.revision > 1 || late {
        var cells := AffectedScopes(rev);
        RepairTimelines(cells);
      } else {
        ClassifyIncremental(rev);
      }
      return true;
    }

    method RepairTimelines(cells: seq<Cell>)
      requires ProjectionsMatchLog(env, State())
      modifies this`levels, this`live
      ensures State() == RepairCells(env, old(State()), CellSet(cells))
    {
      ghost var s := State();
      NoCellsNoChange(env, s);
      for i := 0 to |cells|
        invariant State() == RepairCells(env, s, CellSet(cells[..i])) && ProjectionsMatchLog(env, State())
      {
        RepairTimeline(cells[i]);
        RepairInTurn(env, s, CellSet(cells[..i]), cells[i]);
        CellSetStep(cells, i);
        RepairKeepsProjections(env, s, CellSet(cells[..i + 1]));
      }
      assert cells[..|cells|] == cells;
    }

    // -------- Rebuilds --------

    /** Discard every projection and classify the whole log in key order. */
    method RebuildFromScratch() returns (order: seq<Revision>)
      requires LogIsContiguous(State())
      modifies this`processed, this`levels, this`live
      ensures SortedByKey(order) && EachLoggedOnce(old(State()), order)
      ensures State() == ClassifyAll(env, Discarded(env, old(State())), order)
      ensures forall c: Cell :: c.scope != "" ==> Get(live, c) == Best(Floor(env, c), HeadRows(env, old(State()), c))
    {
      ghost var s := State();
      levels := map[];
      processed := map[];
      live := env.baseline;
      ghost var s0 := State();
      ContiguousHeads(s);
      HeadStatusFrame(s, s0);
      order := SortRows(set k | k in log :: log[k]);
      SortedOnce(order);
      forall r
        ensures r in order <==> Logged(s, r)
      {
        assert r in order <==> r in Members(order);
      }
      ClassifyInOrder(order);
      forall c: Cell | c.scope != ""
        ensures Get(live, c) == Best(Floor(env, c), HeadRows(env, s, c))
      {
        RebuildIsReplayOfHeads(env, s, order, c);
      }
    }

    /** Reseed the live cells and classify the current unabsorbed heads again in key order. */
    method RebuildAfterBaselineRefresh() returns (order: seq<Revision>)
      requires LogIsContiguous(State()) && ProjectionsMatchLog(env, State())
      modifies this`processed, this`levels, this`live
      ensures SortedByKey(order) && EachRefreshedOnce(env, old(State()), order)
      ensures State() == ClassifyAll(env, Reseeded(env, old(State())), order)
      ensures forall c: Cell :: c.scope != "" ==> Get(live, c) == Best(Floor(env, c), HeadRows(env, old(State()), c))
    {
      ghost var s := State();
      live := env.baseline;
      ghost var s0 := State();
      ContiguousHeads(s);
      HeadStatusFrame(s, s0);
      order := HeadsToRefresh();
      ClassifyInOrder(order);
      forall c: Cell | c.scope != ""
        ensures Get(live, c) == Best(Floor(env, c), HeadRows(env, s, c))
      {
        RefreshIsBestOfHeads(env, s, order, c);
      }
    }

    /** The current unretracted heads outside absorbed competitions, in key order. */
    method HeadsToRefresh() returns (order: seq<Revision>)
      requires LogKeysMatch(State()) && HeadStatusLogged(State())
      ensures SortedByKey(order) && EachRefreshedOnce(env, State(), order)
    {
      var heads' := set k | k in log && k.result in heads && heads[k.result].revision == k.revision
                            && heads[k.result].status != Status.Retracted && !IsAbsorbed(env, log[k]) :: log[k];
      order := SortRows(heads');
      forall r
        ensures r in order <==> Refreshes(env, State(), r)
      {
        assert r in order <==> r in Members(order);
        if Logged(State(), r) {
          assert HeadAgrees(State(), r);
        }
      }
    }

    method ClassifyInOrder(order: seq<Revision>)
      requires LogKeysMatch(State()) && ProjectionsMatchLog(env, State()) && HeadStatusLogged(State())
      requires forall r :: r in order ==> Logged(State(), r)
      modifies this`processed, this`levels, this`live
      ensures State() == ClassifyAll(env, old(State()), order)
    {
      ghost var s := State();
      for i := 0 to |order|
        invariant State() == ClassifyAll(env, s, order[..i])
        invariant heads == s.heads && log == s.log && ProjectionsMatchLog(env, State())
      {
        assert order[i] in order && HeadAgrees(s, order[i]);
        var _ := ClassifyRevision(order[i]);
        assert order[..i + 1][..i] == order[..i];
      }
      assert order[..|order|] == order;
    }
  }

  // -------- Loop invariants --------

  function Rank(level: Level): nat {
    match level
    case World => 0
    case Continental => 1
    case National => 2
    case Personal => 3
  }

  ghost predicate ChildrenCreated(env: Env, before: map<LevelId, LevelRow>, rev: Revision, i: nat, levels: map<LevelId, LevelRow>) {
    && (forall l :: l in levels <==> l in before || (l.row == Id(rev) && Rank(l.level) < i))
    && (forall l :: l in levels ==>
          levels[l] == if l in before then before[l] else DefaultChild(RecordScope(env.geography, rev, l.level)))
  }

  lemma OlderProjections(s: Store, rev: Revision, processed: map<RowId, Processed>, older: set<RowId>)
    requires processed == s.processed[Id(rev) := Processed(rev, RevisionIsValid(rev))]
    requires older == set k | k in processed && k.result == rev.resultId && k.revision < rev.revision && processed[k].valid
    ensures forall k :: k in older <==> IsSuperseded(s, rev, k)
  {
    forall k
      ensures k in older <==> IsSuperseded(s, rev, k)
    {
      if k == Id(rev) {
      } else {
        assert k in processed <==> k in s.processed;
      }
    }
  }

  lemma MaterializedStep(env: Env, s: Store, rev: Revision, levels: map<LevelId, LevelRow>, older: set<RowId>, l: LevelId)
    requires ChildrenCreated(env, s.levels, rev, |RECORD_LEVELS|, levels)
    requires l.row in older <==> IsSuperseded(s, rev, l.row)
    ensures l in levels <==> l in s.levels || l.row == Id(rev)
    ensures l in levels ==> (if l.row in older then levels[l].(holds := false) else levels[l]) == ChildAfter(env, s, rev, l)
  {
  }

  lemma MaterializedBySteps(env: Env, s: Store, rev: Revision, levels: map<LevelId, LevelRow>, older: set<RowId>)
    requires ChildrenCreated(env, s.levels, rev, |RECORD_LEVELS|, levels)
    requires forall k :: k in older <==> IsSuperseded(s, rev, k)
    ensures (map l | l in levels :: if l.row in older then levels[l].(holds := false) else levels[l]) ==
            Materialized(env, s, rev).levels
  {
    var after := map l | l in levels :: if l.row in older then levels[l].(holds := false) else levels[l];
    var t := Materialized(env, s, rev);
    forall l
      ensures l in after <==> l in t.levels
      ensures l in after ==> after[l] == t.levels[l]
    {
      MaterializedStep(env, s, rev, levels, older, l);
    }
    MapsAgree(after, t.levels);
  }

  ghost predicate LaterRow(env: Env, s: Store, rev: Revision, c: Cell) {
    c.scope != "" && exists r :: r in Rows(env, s, c) && Id(r) != Id(rev) && Before(rev, r)
  }

  lemma OwnChildrenPresent(env: Env, s: Store, rev: Revision)
    requires ProjectionsMatchLog(env, s) && Id(rev) in s.processed
    ensures forall level :: LevelId(Id(rev), level) in s.levels
  {
  }

  ghost function HistoricalUpToChild(env: Env, s: Store, rev: Revision, i: nat, l: LevelId): LevelRow
    requires l in s.levels
  {
    if Rank(l.level) < i then HistoricalChild(env, s, rev, l) else s.levels[l]
  }

  ghost predicate HistoricalUpTo(env: Env, s: Store, rev: Revision, i: nat, levels: map<LevelId, LevelRow>) {
    && levels.Keys == s.levels.Keys
    && forall l :: l in levels ==> levels[l] == HistoricalUpToChild(env, s, rev, i, l)
  }

  /** The tables once the first `i` level rows of a historical revision are saved. */
  ghost function PartlyHistorical(env: Env, s: Store, rev: Revision, i: nat): Store {
    s.(levels := map l | l in s.levels :: HistoricalUpToChild(env, s, rev, i, l))
  }

  lemma PartlySaved(env: Env, s: Store, rev: Revision, i: nat, levels: map<LevelId, LevelRow>)
    requires HistoricalUpTo(env, s, rev, i, levels)
    ensures s.(levels := levels) == PartlyHistorical(env, s, rev, i)
  {
    MapsAgree(levels, PartlyHistorical(env, s, rev, i).levels);
  }

  lemma HistoricalStep(env: Env, s: Store, rev: Revision, i: nat, levels: map<LevelId, LevelRow>)
    requires ProjectionsMatchLog(env, s) && Id(rev) in s.processed && s.processed[Id(rev)].row == rev
    requires i < |RECORD_LEVELS| && HistoricalUpTo(env, s, rev, i, levels)
    ensures var l := LevelId(Id(rev), RECORD_LEVELS[i]);
            && l in levels && levels[l] == s.levels[l]
            && HistoricalUpTo(env, s, rev, i + 1, levels[l := HistoricalChild(env, s, rev, l)])
  {
    var l0 := LevelId(Id(rev), RECORD_LEVELS[i]);
    var levels' := levels[l0 := HistoricalChild(env, s, rev, l0)];
    assert levels[l0] == HistoricalUpToChild(env, s, rev, i, l0);
    forall l | l in levels'
      ensures levels'[l] == HistoricalUpToChild(env, s, rev, i + 1, l)
    {
      assert l.level == RECORD_LEVELS[i] <==> Rank(l.level) == i;
      assert levels[l] == HistoricalUpToChild(env, s, rev, i, l);
    }
  }

  /** What a level shows depends on its own row and on projections only. */
  lemma HistoricalFrame(env: Env, s: Store, t: Store, rev: Revision, l: LevelId)
    requires s.processed == t.processed && l in s.levels && l in t.levels && s.levels[l] == t.levels[l]
    ensures HistoricalChild(env, s, rev, l) == HistoricalChild(env, t, rev, l)
  {
  }

  lemma HistoricalAll(env: Env, s: Store, rev: Revision)
    ensures PartlyHistorical(env, s, rev, |RECORD_LEVELS|) == Historical(env, s, rev)
  {
    MapsAgree(PartlyHistorical(env, s, rev, |RECORD_LEVELS|).levels, Historical(env, s, rev).levels);
  }

  lemma HistoryIsDistinct(env: Env, s: Store, rev: Revision, level: Level)
    requires ProjectionKeysMatch(s.processed)
    ensures Distinct(EarlierHistory(env, s, rev, level))
  {
  }

  ghost function CellSet(cells: seq<Cell>): (members: set<Cell>)
    ensures forall c :: c in members <==> c in cells
  {
    set c | c in cells
  }

  lemma CellSetStep(cells: seq<Cell>, i: nat)
    requires i < |cells|
    ensures CellSet(cells[..i + 1]) == CellSet(cells[..i]) + {cells[i]}
  {
    assert cells[..i + 1] == cells[..i] + [cells[i]];
  }

  ghost predicate CellsUpTo(env: Env, rev: Revision, i: nat, cells: seq<Cell>) {
    forall c :: c in cells <==> c in CellsOf(env, rev) && Rank(c.level) < i
  }

  ghost function LevelUpTo(env: Env, s: Store, rev: Revision, i: nat, l: LevelId): LevelRow
    requires l in s.levels
  {
    if Rank(l.level) < i then ComparedChild(env, s, rev, l) else s.levels[l]
  }

  ghost function LiveUpTo(env: Env, s: Store, rev: Revision, i: nat, c: Cell): Option<int> {
    if Rank(c.level) < i && Improves(env, s, rev, c) then Some(rev.value) else Get(s.live, c)
  }

  /** The first `i` levels have been compared, the rest are untouched. */
  ghost predicate ComparedUpTo(env: Env, s: Store, rev: Revision, i: nat, levels: map<LevelId, LevelRow>, live: map<Cell, int>) {
    && levels.Keys == s.levels.Keys
    && (forall l :: l in levels ==> levels[l] == LevelUpTo(env, s, rev, i, l))
    && (forall c :: Get(live, c) == LiveUpTo(env, s, rev, i, c))
  }

  lemma LevelStep(env: Env, s: Store, rev: Revision, i: nat, l: LevelId)
    requires i < |RECORD_LEVELS| && l in s.levels
    ensures LevelUpTo(env, s, rev, i + 1, l) ==
            if l == LevelId(Id(rev), RECORD_LEVELS[i]) then ComparedChild(env, s, rev, l) else LevelUpTo(env, s, rev, i, l)
  {
    assert l.level == RECORD_LEVELS[i] <==> Rank(l.level) == i;
  }

  lemma LiveStep(env: Env, s: Store, rev: Revision, i: nat, c: Cell)
    requires i < |RECORD_LEVELS|
    ensures LiveUpTo(env, s, rev, i + 1, c) ==
            if c == CellOf(env, rev, RECORD_LEVELS[i]) && Improves(env, s, rev, c) then Some(rev.value)
            else LiveUpTo(env, s, rev, i, c)
  {
    assert c.level == RECORD_LEVELS[i] <==> Rank(c.level) == i;
  }

  /** Comparing the next level reads the original incumbent and writes that level's row and cell. */
  lemma CompareStep(env: Env, s: Store, rev: Revision, i: nat, levels: map<LevelId, LevelRow>, live: map<Cell, int>)
    requires i < |RECORD_LEVELS| && ComparedUpTo(env, s, rev, i, levels, live)
    requires LevelId(Id(rev), RECORD_LEVELS[i]) in s.levels
    ensures var l := LevelId(Id(rev), RECORD_LEVELS[i]);
            var c := CellOf(env, rev, RECORD_LEVELS[i]);
            && ComparedUpTo(env, s, rev, i + 1, levels[l := ComparedChild(env, s, rev, l)],
                            if Improves(env, s, rev, c) then live[c := rev.value] else live)
            && levels[l] == s.levels[l] && Get(live, c) == Get(s.live, c)
  {
    var l0, c0 := LevelId(Id(rev), RECORD_LEVELS[i]), CellOf(env, rev, RECORD_LEVELS[i]);
    assert levels[l0] == LevelUpTo(env, s, rev, i, l0);
    assert Get(live, c0) == LiveUpTo(env, s, rev, i, c0);
    var levels' := levels[l0 := ComparedChild(env, s, rev, l0)];
    var live' := if Improves(env, s, rev, c0) then live[c0 := rev.value] else live;
    forall l | l in levels'
      ensures levels'[l] == LevelUpTo(env, s, rev, i + 1, l)
    {
      LevelStep(env, s, rev, i, l);
    }
    forall c: Cell
      ensures Get(live', c) == LiveUpTo(env, s, rev, i + 1, c)
    {
      LiveStep(env, s, rev, i, c);
      assert Get(live, c) == LiveUpTo(env, s, rev, i, c);
    }
  }

  lemma CellsStep(env: Env, rev: Revision, i: nat, cells: seq<Cell>)
    requires i < |RECORD_LEVELS| && CellsUpTo(env, rev, i, cells)
    ensures var c := CellOf(env, rev, RECORD_LEVELS[i]);
            CellsUpTo(env, rev, i + 1, if c.scope != "" then cells + [c] else cells)
  {
    forall c: Cell
      ensures Rank(c.level) < i + 1 <==> Rank(c.level) < i || c.level == RECORD_LEVELS[i]
    {
    }
  }

  lemma ComparedAll(env: Env, s: Store, rev: Revision, levels: map<LevelId, LevelRow>, live: map<Cell, int>)
    requires ComparedUpTo(env, s, rev, |RECORD_LEVELS|, levels, live)
    ensures s.(levels := levels, live := live) == Compared(env, s, rev)
  {
    var t := Compared(env, s, rev);
    forall l | l in s.levels
      ensures levels[l] == t.levels[l]
    {
      assert levels[l] == LevelUpTo(env, s, rev, |RECORD_LEVELS|, l);
    }
    forall c: Cell
      ensures Get(live, c) == Get(t.live, c)
    {
      assert Get(live, c) == LiveUpTo(env, s, rev, |RECORD_LEVELS|, c);
    }
    SameStore(s.(levels := levels, live := live), t);
  }

  lemma AllCells(env: Env, rev: Revision, cells: seq<Cell>)
    requires CellsUpTo(env, rev, |RECORD_LEVELS|, cells)
    ensures CellSet(cells) == CellsOf(env, rev)
  {
  }

  lemma ComparedKeepsProjections(env: Env, s: Store, rev: Revision)
    requires ProjectionsMatchLog(env, s) && Id(rev) in s.processed && s.processed[Id(rev)].row == rev
    ensures ProjectionsMatchLog(env, Compared(env, s, rev))
  {
    var m := Compared(env, s, rev);
    forall l | l in m.levels
      ensures m.levels[l].scope == RecordScope(env.geography, m.processed[l.row].row, l.level)
    {
      assert m.levels[l] == ComparedChild(env, s, rev, l);
    }
  }

  lemma AdjudicatedKeepsProjections(env: Env, s: Store, cells: set<Cell>)
    requires ProjectionsMatchLog(env, s)
    ensures ProjectionsMatchLog(env, Adjudicated(env, s, cells))
  {
    var t := Adjudicated(env, s, cells);
    forall l | l in t.levels
      ensures t.levels[l].scope == RecordScope(env.geography, t.processed[l.row].row, l.level)
    {
      JudgedOutcome(env, s, cells, l);
    }
  }

  /** What the projection of a logged revision leaves can be classified further. */
  lemma ProjectedIsReady(env: Env, s: Store, rev: Revision)
    requires ProjectionsMatchLog(env, s) && HeadAgrees(s, rev)
    ensures var m := Materialized(env, s, rev);
            && ProjectionsMatchLog(env, m) && HeadAgrees(m, rev)
            && Id(rev) in m.processed && m.processed[Id(rev)].row == rev
  {
    MaterializedKeepsProjections(env, s, rev);
    assert Materialized(env, s, rev).processed[Id(rev)] == ProjectionAfter(s, rev, Id(rev));
  }

  lemma ClassifiedKeepsProjections(env: Env, s: Store, rev: Revision)
    requires ProjectionsMatchLog(env, s) && HeadAgrees(s, rev)
    ensures ProjectionsMatchLog(env, Classified(env, s, rev))
  {
    var m := Materialized(env, s, rev);
    MaterializedKeepsProjections(env, s, rev);
    assert m.processed[Id(rev)] == ProjectionAfter(s, rev, Id(rev));
    if !IsHead(s, rev) || IsAbsorbed(env, rev) {
      HistoricalKeepsProjections(env, m, rev);
    } else {
      CommittedKeepsProjections(env, m, rev, rev.revision > 1 || OutOfOrder(env, m, rev));
    }
  }

  lemma SortedOnce(order: seq<Revision>)
    requires SortedByKey(order)
    ensures NoRepeats(order)
  {
  }

  /** The dictionary holds the level rows of `rows`, by row identity. */
  ghost predicate ChildrenOf(s: Store, c: Cell, rows: set<Revision>, children: map<RowId, LevelRow>) {
    && (forall k :: k in children <==> HasRow(s, rows, k))
    && (forall k :: k in children ==> LevelId(k, c.level) in s.levels && children[k] == s.levels[LevelId(k, c.level)])
  }

  /** The projection at `k` is one of `rows`. */
  ghost predicate HasRow(s: Store, rows: set<Revision>, k: RowId) {
    k in s.processed && s.processed[k].row in rows && Id(s.processed[k].row) == k
  }

  lemma QualifyingChildren(env: Env, s: Store, c: Cell, results: seq<Revision>, children: map<RowId, LevelRow>)
    requires Members(results) == Rows(env, s, c) && ChildrenOf(s, c, Members(results), children)
    ensures Qualifying(Members(results), children) == StoredQualifying(env, s, c)
    ensures AllIn(Members(results), children)
  {
    forall r
      ensures r in Qualifying(Members(results), children) <==> r in StoredQualifying(env, s, c)
      ensures r in Members(results) ==> Id(r) in children
    {
      if r in Rows(env, s, c) {
        assert HasRow(s, Members(results), Id(r));
      }
    }
  }

  lemma AdjudicatedByRow(env: Env, s: Store, c: Cell, results: seq<Revision>, children: map<RowId, LevelRow>,
                         judged: map<RowId, LevelRow>, l: LevelId)
    requires ProjectionsMatchLog(env, s) && Members(results) == Rows(env, s, c) && l in s.levels
    requires ChildrenOf(s, c, Members(results), children)
    requires Mapped(children, judged, Members(results), JudgeOf(StoredQualifying(env, s, c), Get(s.live, c), c.scope))
    ensures JudgedChild(env, s, {c}, l) == if l.level == c.level && l.row in judged then judged[l.row] else s.levels[l]
  {
    var row := s.processed[l.row].row;
    assert OnTimeline(env, s, l) && CellAt(env, s, l) == c ==> HasRow(s, Members(results), l.row);
    if l.level == c.level && l.row in judged {
      assert HasRow(s, Members(results), l.row);
      assert row in Rows(env, s, c);
      assert judged[l.row] == JudgeOf(StoredQualifying(env, s, c), Get(s.live, c), c.scope)(row, children[l.row]);
    }
  }

  lemma AdjudicatedByRows(env: Env, s: Store, c: Cell, results: seq<Revision>, children: map<RowId, LevelRow>,
                          judged: map<RowId, LevelRow>, levels: map<LevelId, LevelRow>)
    requires ProjectionsMatchLog(env, s) && Members(results) == Rows(env, s, c)
    requires ChildrenOf(s, c, Members(results), children)
    requires Mapped(children, judged, Members(results), JudgeOf(StoredQualifying(env, s, c), Get(s.live, c), c.scope))
    requires levels.Keys == s.levels.Keys
    requires forall l :: l in levels ==> levels[l] == if l.level == c.level && l.row in judged then judged[l.row] else s.levels[l]
    ensures levels == Adjudicated(env, s, {c}).levels
  {
    forall l | l in levels
      ensures levels[l] == Adjudicated(env, s, {c}).levels[l]
    {
      AdjudicatedByRow(env, s, c, results, children, judged, l);
    }
    MapsAgree(levels, Adjudicated(env, s, {c}).levels);
  }

  /** The mathematical replay has reached the rows `seen` of the timeline of `c`. */
  ghost predicate ReplayedSoFar(env: Env, s: Store, c: Cell, seen: set<Revision>, levels: map<LevelId, LevelRow>) {
    && seen <= Rows(env, s, c) && levels.Keys == s.levels.Keys
    && forall l :: l in levels ==> levels[l] == ReplayedEntry(env, s, c, seen, l)
  }

  ghost function ReplayedEntry(env: Env, s: Store, c: Cell, seen: set<Revision>, l: LevelId): LevelRow
    requires l in s.levels
  {
    if l.level == c.level && HasRow(s, seen, l.row)
    then CompareRow(Floor(env, c), Rows(env, s, c), c.scope, s.processed[l.row].row)
    else s.levels[l]
  }

  ghost function CompareRow(floor: Option<int>, rows: set<Revision>, scope: string, r: Revision): LevelRow {
    Unjudged(floor, rows, scope, r).(
      recognition := if ReplayOutcome(floor, rows, r) != NoRecord then Recognized else NotApplicable)
  }

  lemma SortedStep(rows: seq<Revision>, i: nat)
    requires SortedByKey(rows) && i < |rows| && Distinct(Members(rows))
    ensures Earlier(Members(rows), rows[i]) == Members(rows[..i])
    ensures Members(rows[..i + 1]) == Members(rows[..i]) + {rows[i]}
    ensures rows[i] !in Members(rows[..i])
  {
    PrefixIsEarlier(rows, i);
    assert rows[..i + 1] == rows[..i] + [rows[i]];
  }

  lemma ReplayKeepsEntry(env: Env, s: Store, c: Cell, seen: set<Revision>, r: Revision, l: LevelId)
    requires ProjectionsMatchLog(env, s) && l in s.levels && r in Rows(env, s, c) && l != LevelId(Id(r), c.level)
    ensures ReplayedEntry(env, s, c, seen + {r}, l) == ReplayedEntry(env, s, c, seen, l)
  {
    if l.level == c.level {
      assert l.row != Id(r);
      assert HasRow(s, seen + {r}, l.row) <==> HasRow(s, seen, l.row);
    }
  }

  lemma ReplayOneMore(env: Env, s: Store, c: Cell, seen: set<Revision>, levels: map<LevelId, LevelRow>, r: Revision)
    requires ProjectionsMatchLog(env, s) && ReplayedSoFar(env, s, c, seen, levels)
    requires r in Rows(env, s, c) && r !in seen
    ensures LevelId(Id(r), c.level) in levels
    ensures ReplayedSoFar(env, s, c, seen + {r}, levels[LevelId(Id(r), c.level) := CompareRow(Floor(env, c), Rows(env, s, c), c.scope, r)])
  {
    var l0 := LevelId(Id(r), c.level);
    assert Id(r) in s.processed && HasRow(s, seen + {r}, Id(r));
    forall l | l in levels && l != l0
      ensures ReplayedEntry(env, s, c, seen + {r}, l) == ReplayedEntry(env, s, c, seen, l)
    {
      ReplayKeepsEntry(env, s, c, seen, r, l);
    }
  }

  lemma NothingReplayed(env: Env, s: Store, c: Cell)
    ensures ReplayedSoFar(env, s, c, {}, s.levels)
    ensures Best(Floor(env, c), {}) == Floor(env, c)
  {
  }

  /** The fold has passed the first `i` rows of the timeline. */
  ghost predicate Reached(env: Env, s: Store, c: Cell, timeline: seq<Revision>, i: nat,
                          levels: map<LevelId, LevelRow>, incumbent: Option<int>)
    requires i <= |timeline|
  {
    && ReplayedSoFar(env, s, c, Members(timeline[..i]), levels)
    && incumbent == Best(Floor(env, c), Members(timeline[..i]))
  }

  function ReplayRow(scope: string, value: int, incumbent: Option<int>): LevelRow {
    var outcome := Compare(value, incumbent);
    LevelRow(scope, outcome, incumbent, if outcome != NoRecord then Recognized else NotApplicable,
             false, false, NotCeased, None, None)
  }

  method FoldTimeline(env: Env, ghost s: Store, c: Cell, timeline: seq<Revision>, stored: map<LevelId, LevelRow>,
                      floor: Option<int>)
    returns (levels: map<LevelId, LevelRow>, incumbent: Option<int>)
    requires ProjectionsMatchLog(env, s) && SortedByKey(timeline) && Members(timeline) == Rows(env, s, c)
    requires stored == s.levels && floor == Floor(env, c)
    ensures incumbent == Best(Floor(env, c), Rows(env, s, c))
    ensures ReplayedSoFar(env, s, c, Rows(env, s, c), levels)
  {
    levels, incumbent := stored, floor;
    NothingReplayed(env, s, c);
    assert Members(timeline[..0]) == {};
    for i := 0 to |timeline|
      invariant Reached(env, s, c, timeline, i, levels, incumbent)
    {
      var r := timeline[i];
      ReplayStep(env, s, c, timeline, i, levels, incumbent);
      levels := levels[LevelId(Id(r), c.level) := ReplayRow(c.scope, r.value, incumbent)];
      if Compare(r.value, incumbent) == Broken {
        incumbent := Some(r.value);
      }
    }
    assert timeline[..|timeline|] == timeline;
  }

  lemma UnnamedCellUnrepaired(env: Env, s: Store, c: Cell)
    requires c.scope == ""
    ensures RepairCells(env, s, {c}) == s
  {
    SameStore(RepairCells(env, s, {c}), s);
  }

  /** What the next row of the timeline must show, and what it does to the incumbent. */
  lemma ReplayStep(env: Env, s: Store, c: Cell, timeline: seq<Revision>, i: nat, levels: map<LevelId, LevelRow>,
                   incumbent: Option<int>)
    requires ProjectionsMatchLog(env, s) && SortedByKey(timeline) && Members(timeline) == Rows(env, s, c)
    requires i < |timeline| && Reached(env, s, c, timeline, i, levels, incumbent)
    ensures var r := timeline[i];
            && LevelId(Id(r), c.level) in levels
            && Reached(env, s, c, timeline, i + 1, levels[LevelId(Id(r), c.level) := ReplayRow(c.scope, r.value, incumbent)],
                       if Compare(r.value, incumbent) == Broken then Some(r.value) else incumbent)
  {
    var r := timeline[i];
    assert r in Members(timeline);
    SortedStep(timeline, i);
    ReplayOneMore(env, s, c, Members(timeline[..i]), levels, r);
    BestWith(Floor(env, c), Members(timeline[..i]), r);
  }

  lemma ReplayedProjections(env: Env, s: Store, c: Cell, m: Store)
    requires ProjectionsMatchLog(env, s) && m.processed == s.processed && m.heads == s.heads && m.log == s.log
    requires ReplayedSoFar(env, s, c, Rows(env, s, c), m.levels)
    ensures ProjectionsMatchLog(env, m)
  {
    forall l | l in m.levels
      ensures m.levels[l].scope == RecordScope(env.geography, m.processed[l.row].row, l.level)
    {
      assert m.levels[l] == ReplayedEntry(env, s, c, Rows(env, s, c), l);
      if HasRow(s, Rows(env, s, c), l.row) {
        assert Counts(env, s, s.processed[l.row].row, c);
      }
    }
  }

  lemma ReplayedQualifying(env: Env, s: Store, c: Cell, m: Store)
    requires ProjectionsMatchLog(env, s) && m.heads == s.heads && m.processed == s.processed
    requires ReplayedSoFar(env, s, c, Rows(env, s, c), m.levels)
    ensures StoredQualifying(env, m, c) == ReplayQualifying(Floor(env, c), Rows(env, s, c))
  {
    forall r | r in Rows(env, s, c)
      ensures ShowsReplay(env, s, m, c, r)
    {
      var l := LevelId(Id(r), c.level);
      assert Id(r) in s.processed && l in s.levels && HasRow(s, Rows(env, s, c), Id(r));
      assert m.levels[l] == ReplayedEntry(env, s, c, Rows(env, s, c), l);
    }
    ShownQualifying(env, s, m, c);
  }

  lemma RepairBySteps(env: Env, s: Store, c: Cell, m: Store)
    requires ProjectionsMatchLog(env, s) && c.scope != ""
    requires m.heads == s.heads && m.log == s.log && m.processed == s.processed
    requires m.live == Put(s.live, c, Best(Floor(env, c), Rows(env, s, c)))
    requires ReplayedSoFar(env, s, c, Rows(env, s, c), m.levels)
    ensures Adjudicated(env, m, {c}) == RepairCells(env, s, {c})
  {
    var t := Adjudicated(env, m, {c});
    var u := RepairCells(env, s, {c});
    ReplayedQualifying(env, s, c, m);
    forall l | l in s.levels
      ensures t.levels[l] == u.levels[l]
    {
      RepairChildBySteps(env, s, c, m, l);
    }
    forall d: Cell
      ensures Get(t.live, d) == Get(u.live, d)
    {
      assert Get(u.live, d) == LiveAfterRepair(env, s, {c}, d);
    }
    SameStore(t, u);
  }

  lemma RepairChildBySteps(env: Env, s: Store, c: Cell, m: Store, l: LevelId)
    requires c.scope != "" && l in s.levels
    requires m.heads == s.heads && m.log == s.log && m.processed == s.processed
    requires m.live == Put(s.live, c, Best(Floor(env, c), Rows(env, s, c)))
    requires ReplayedSoFar(env, s, c, Rows(env, s, c), m.levels)
    requires StoredQualifying(env, m, c) == ReplayQualifying(Floor(env, c), Rows(env, s, c))
    ensures JudgedChild(env, m, {c}, l) == ChildAfterRepair(env, s, {c}, l)
  {
    var rows := Rows(env, s, c);
    assert m.levels[l] == ReplayedEntry(env, s, c, rows, l);
    if OnTimeline(env, s, l) && CellAt(env, s, l) == c {
      var row := s.processed[l.row].row;
      assert row in rows && HasRow(s, rows, l.row);
      JudgeReadsColumnsOnly(m.levels[l], Unjudged(Floor(env, c), rows, c.scope, row),
                            ReplayQualifying(Floor(env, c), rows), Best(Floor(env, c), rows), c.scope, row);
    } else {
      assert l.level == c.level ==> !HasRow(s, rows, l.row);
    }
  }
}
