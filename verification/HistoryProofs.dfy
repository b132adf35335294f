/** Histories of corrections, retractions and reinstatements, each classified before the next
    arrives: the tables always are one replay of the current heads, so a retraction undoes its
    result completely. */
module HistoryProofs {
  import opened RecordDomain
  import opened RecordOrder
  import opened Replay
  import opened Classification
  import opened TimelineProofs
  import opened SettledProofs
  import opened RunProofs

  /** Append a revision to the log and make it the head of its result. */
  ghost function Advanced(s: Store, rev: Revision): Store {
    s.(heads := s.heads[rev.resultId := Head(rev.revision, rev.status)], log := s.log[Id(rev) := rev])
  }

  ghost function Observed(env: Env, s: Store, rev: Revision): Store {
    Classified(env, Advanced(s, rev), rev)
  }

  ghost function NextRevision(s: Store, id: nat): nat {
    if id in s.heads then s.heads[id].revision + 1 else 1
  }

  /** The next revision of its result, in the same event. A correction into a competition the
      export has absorbed is excluded: absorbed revisions return before any repair. */
  ghost predicate Admissible(env: Env, s: Store, rev: Revision) {
    && rev.revision == NextRevision(s, rev.resultId)
    && var prev := Get(s.log, RowId(rev.resultId, rev.revision - 1));
       (rev.revision > 1 ==>
          prev.Some? && prev.value.event == rev.event && prev.value.kind == rev.kind
          && (IsAbsorbed(env, rev) ==> IsAbsorbed(env, prev.value)))
  }

  ghost predicate Settled(env: Env, s: Store) {
    && LogIsContiguous(s) && ProjectionsMatchLog(env, s)
    && Consistent(env, s) && HeadsProjected(s)
  }

  lemma AdvancedNumbering(s: Store, rev: Revision)
    requires NumberedToHead(s) && rev.revision == NextRevision(s, rev.resultId)
    ensures NumberedToHead(Advanced(s, rev)) && Id(rev) !in s.log
  {
    var t := Advanced(s, rev);
    forall id, n | id in t.heads && 1 <= n <= t.heads[id].revision
      ensures RowId(id, n) in t.log
    {
      if RowId(id, n) != Id(rev) {
        assert RowId(id, n) in s.log;
      }
    }
  }

  lemma AdvancedHeads(s: Store, rev: Revision)
    requires HeadsLogged(s) && rev.revision == NextRevision(s, rev.resultId) && Id(rev) !in s.log
    ensures HeadsLogged(Advanced(s, rev))
  {
    var t := Advanced(s, rev);
    forall id | id in t.heads
      ensures t.heads[id].revision >= 1
      ensures RowId(id, t.heads[id].revision) in t.log
      ensures t.log[RowId(id, t.heads[id].revision)].status == t.heads[id].status
    {
      if id != rev.resultId {
        assert RowId(id, s.heads[id].revision) in s.log;
      }
    }
  }

  lemma AdvancedEvents(env: Env, s: Store, rev: Revision)
    requires NumberedToHead(s) && OneEventPerResult(s) && Admissible(env, s, rev)
    ensures OneEventPerResult(Advanced(s, rev))
  {
    var t := Advanced(s, rev);
    forall k | k in s.log && k.result == rev.resultId
      ensures s.log[k].event == rev.event && s.log[k].kind == rev.kind
    {
      var p := RowId(rev.resultId, rev.revision - 1);
      assert p in s.log && s.log[k].event == s.log[p].event && s.log[k].kind == s.log[p].kind;
    }
  }

  /** The log stays a contiguous history. */
  lemma AdvancedLog(env: Env, s: Store, rev: Revision)
    requires LogIsContiguous(s) && Admissible(env, s, rev)
    ensures LogIsContiguous(Advanced(s, rev)) && Id(rev) !in s.log
  {
    AdvancedNumbering(s, rev);
    AdvancedHeads(s, rev);
    AdvancedEvents(env, s, rev);
  }

  ghost function PreviousRow(s: Store, rev: Revision): set<Revision> {
    if rev.revision > 1 && RowId(rev.resultId, rev.revision - 1) in s.log
    then {s.log[RowId(rev.resultId, rev.revision - 1)]} else {}
  }

  /** The revision is the next of its result and not logged yet. */
  ghost predicate IsNext(s: Store, rev: Revision) {
    && LogKeysMatch(s) && Id(rev) !in s.log && rev.revision == NextRevision(s, rev.resultId)
    && (rev.resultId in s.heads ==> s.heads[rev.resultId].revision >= 1)
  }

  lemma AdvancedCounts(env: Env, s: Store, rev: Revision, c: Cell, r: Revision)
    requires ProjectionsMatchLog(env, s) && IsNext(s, rev)
    ensures Counts(env, Advanced(s, rev), r, c) <==> Counts(env, s, r, c) && r !in PreviousRow(s, rev)
  {
    assert Id(r) in s.processed ==> Id(r) in s.log && s.processed[Id(r)].row == s.log[Id(r)];
    if r.resultId == rev.resultId {
      assert Counts(env, Advanced(s, rev), r, c) ==> Id(r) == Id(rev);
      assert Counts(env, s, r, c) ==> Id(r) == RowId(rev.resultId, rev.revision - 1);
    }
  }

  /** Moving the head drops exactly the previous revision from the timelines. */
  lemma AdvancedRows(env: Env, s: Store, rev: Revision, c: Cell)
    requires ProjectionsMatchLog(env, s) && IsNext(s, rev)
    ensures Rows(env, Advanced(s, rev), c) == Rows(env, s, c) - PreviousRow(s, rev)
  {
    forall r
      ensures Counts(env, Advanced(s, rev), r, c) <==> Counts(env, s, r, c) && r !in PreviousRow(s, rev)
    {
      AdvancedCounts(env, s, rev, c, r);
    }
  }

  lemma AdvancedKeepsCell(env: Env, s: Store, rev: Revision, c: Cell)
    requires ProjectionsMatchLog(env, s) && IsNext(s, rev)
    requires CellConsistent(env, s, c) && Rows(env, s, c) !! PreviousRow(s, rev)
    ensures CellConsistent(env, Advanced(s, rev), c)
  {
    AdvancedRows(env, s, rev, c);
    assert Rows(env, Advanced(s, rev), c) == Rows(env, s, c);
  }

  lemma AdvancedKeepsProjections(env: Env, s: Store, rev: Revision)
    requires ProjectionsMatchLog(env, s) && Id(rev) !in s.log
    ensures ProjectionsMatchLog(env, Advanced(s, rev))
  {
  }

  lemma PreviousRowAffected(env: Env, s: Store, rev: Revision, c: Cell)
    requires Admissible(env, s, rev) && c.scope != ""
    requires c !in Affected(env, Materialized(env, Advanced(s, rev), rev), rev) || IsAbsorbed(env, rev)
    ensures Rows(env, s, c) !! PreviousRow(s, rev)
  {
    var a := Advanced(s, rev);
    var m := Materialized(env, a, rev);
    if rev.revision > 1 {
      var prev := s.log[RowId(rev.resultId, rev.revision - 1)];
      assert m.log[RowId(rev.resultId, rev.revision - 1)] == prev;
      assert Previous(m, rev) == Some(prev);
      assert prev.(event := rev.event, kind := rev.kind) == prev;
      assert CellsOf(env, prev) <= Affected(env, m, rev);
      assert prev in Rows(env, s, c) ==> c in CellsOf(env, prev) && !IsAbsorbed(env, prev);
    }
  }

  /** Classifying each new revision before the next arrives keeps the tables settled. */
  lemma ObserveKeepsSettled(env: Env, s: Store, rev: Revision)
    requires Settled(env, s) && Admissible(env, s, rev)
    ensures Settled(env, Observed(env, s, rev))
  {
    AdvancedLog(env, s, rev);
    ObservedLog(env, s, rev);
    ObservedHeads(env, s, rev);
    ObserveKeepsConsistent(env, s, rev);
  }

  /** Before it is classified, a first revision or one for an absorbed competition has moved no timeline. */
  lemma AdvancedStaysConsistent(env: Env, s: Store, rev: Revision)
    requires LogIsContiguous(s) && ProjectionsMatchLog(env, s) && Consistent(env, s) && Admissible(env, s, rev)
    requires rev.revision == 1 || IsAbsorbed(env, rev)
    ensures Consistent(env, Advanced(s, rev))
  {
    forall c: Cell | c.scope != ""
      ensures CellConsistent(env, Advanced(s, rev), c)
    {
      assert CellConsistent(env, s, c);
      if rev.revision > 1 {
        PreviousRowAffected(env, s, rev, c);
      }
      AdvancedKeepsCell(env, s, rev, c);
    }
  }

  lemma ObserveKeepsConsistent(env: Env, s: Store, rev: Revision)
    requires LogIsContiguous(s) && ProjectionsMatchLog(env, s) && Consistent(env, s) && Admissible(env, s, rev)
    ensures ProjectionsMatchLog(env, Observed(env, s, rev)) && Consistent(env, Observed(env, s, rev))
  {
    var a := Advanced(s, rev);
    AdvancedLog(env, s, rev);
    AdvancedKeepsProjections(env, s, rev);
    LoggedHeadAgrees(a, rev);
    ClassifiedFrame(env, a, rev);
    if rev.revision == 1 || IsAbsorbed(env, rev) {
      AdvancedStaysConsistent(env, s, rev);
      ClassifyKeepsConsistent(env, a, rev);
    } else {
      CorrectionRepairs(env, s, rev);
    }
  }

  lemma ObservedLog(env: Env, s: Store, rev: Revision)
    requires LogIsContiguous(Advanced(s, rev))
    ensures LogIsContiguous(Observed(env, s, rev))
  {
    ClassifiedFrame(env, Advanced(s, rev), rev);
    LogFrame(Advanced(s, rev), Observed(env, s, rev));
  }

  lemma LogFrame(s: Store, t: Store)
    requires s.heads == t.heads && s.log == t.log && LogIsContiguous(s)
    ensures LogIsContiguous(t)
  {
  }

  lemma ObservedHeads(env: Env, s: Store, rev: Revision)
    requires HeadsProjected(s) && Id(rev) !in s.log && ProjectionsMatchLog(env, s)
    ensures HeadsProjected(Observed(env, s, rev))
  {
    var a := Advanced(s, rev);
    var t := Observed(env, s, rev);
    ClassifiedFrame(env, a, rev);
    forall id | id in t.heads
      ensures Projected(t, RowId(id, t.heads[id].revision))
    {
      var k := RowId(id, t.heads[id].revision);
      if id != rev.resultId {
        assert Projected(s, k);
      }
      assert t.processed[k] == ProjectionAfter(a, rev, k);
    }
  }

  lemma CorrectionRepairs(env: Env, s: Store, rev: Revision)
    requires ProjectionsMatchLog(env, s) && Consistent(env, s) && Admissible(env, s, rev)
    requires IsNext(s, rev) && HeadAgrees(Advanced(s, rev), rev)
    requires rev.revision > 1 && !IsAbsorbed(env, rev)
    ensures ProjectionsMatchLog(env, Observed(env, s, rev)) && Consistent(env, Observed(env, s, rev))
  {
    var a := Advanced(s, rev);
    var m := Materialized(env, a, rev);
    var cells := Affected(env, m, rev);
    var t := Observed(env, s, rev);
    assert t == RepairCells(env, m, cells);
    AdvancedKeepsProjections(env, s, rev);
    MaterializedKeepsProjections(env, a, rev);
    RepairKeepsProjections(env, m, cells);
    forall c: Cell | c.scope != ""
      ensures CellConsistent(env, t, c)
    {
      if c !in cells {
        assert CellConsistent(env, s, c);
        PreviousRowAffected(env, s, rev, c);
        AdvancedKeepsCell(env, s, rev, c);
        MaterializedKeepsCell(env, a, rev, c);
      }
      RepairCell(env, m, cells, c);
    }
  }

  // -------- Whole histories --------

  ghost function ObserveAll(env: Env, s: Store, run: seq<Revision>): Store {
    if run == [] then s
    else Observed(env, ObserveAll(env, s, run[..|run| - 1]), run[|run| - 1])
  }

  ghost predicate AdmissibleRun(env: Env, s: Store, run: seq<Revision>) {
    run != [] ==>
      && AdmissibleRun(env, s, run[..|run| - 1])
      && Admissible(env, ObserveAll(env, s, run[..|run| - 1]), run[|run| - 1])
  }

  lemma {:induction false} HistoryStaysSettled(env: Env, s: Store, run: seq<Revision>)
    requires Settled(env, s) && AdmissibleRun(env, s, run)
    ensures Settled(env, ObserveAll(env, s, run))
  {
    if run != [] {
      HistoryStaysSettled(env, s, run[..|run| - 1]);
      ObserveKeepsSettled(env, ObserveAll(env, s, run[..|run| - 1]), run[|run| - 1]);
    }
  }

  /** After any history, every live cell and current level row is one replay of the current heads. */
  lemma HistoryIsReplayOfHeads(env: Env, s: Store, run: seq<Revision>, c: Cell)
    requires Settled(env, s) && AdmissibleRun(env, s, run) && c.scope != ""
    ensures var t := ObserveAll(env, s, run);
            var rows := HeadRows(env, t, c);
            && Get(t.live, c) == Best(Floor(env, c), rows)
            && Rows(env, t, c) == rows
            && forall r :: r in rows ==>
                 && LevelId(Id(r), c.level) in t.levels
                 && t.levels[LevelId(Id(r), c.level)] == Replayed(Floor(env, c), rows, c.scope, r)
  {
    var t := ObserveAll(env, s, run);
    HistoryStaysSettled(env, s, run);
    ContiguousHeads(t);
    ProjectedRowsAreHeadRows(env, t, c);
    assert CellConsistent(env, t, c);
  }

  // -------- Retraction --------

  ghost function Without(run: seq<Revision>, id: nat): seq<Revision> {
    if run == [] then []
    else
      var init, rev := run[..|run| - 1], run[|run| - 1];
      if rev.resultId == id then Without(init, id) else Without(init, id) + [rev]
  }

  /** Same heads and log apart from one result. */
  ghost predicate AgreeApartFrom(s: Store, t: Store, id: nat) {
    && (forall j :: j != id ==> (j in s.heads <==> j in t.heads))
    && (forall j :: j != id && j in s.heads && j in t.heads ==> s.heads[j] == t.heads[j])
    && (forall k: RowId {:trigger k in s.log} {:trigger k in t.log} :: k.result != id ==> (k in s.log <==> k in t.log))
    && (forall k: RowId {:trigger s.log[k]} {:trigger t.log[k]} :: k.result != id && k in s.log && k in t.log ==> s.log[k] == t.log[k])
  }

  lemma ObservedFrame(env: Env, s: Store, rev: Revision)
    ensures Observed(env, s, rev).heads == Advanced(s, rev).heads && Observed(env, s, rev).log == Advanced(s, rev).log
  {
    ClassifiedFrame(env, Advanced(s, rev), rev);
  }

  lemma AgreeingAdmits(env: Env, t: Store, u: Store, id: nat, rev: Revision)
    requires AgreeApartFrom(t, u, id) && rev.resultId != id && Admissible(env, t, rev)
    ensures Admissible(env, u, rev)
    ensures AgreeApartFrom(Advanced(t, rev), Advanced(u, rev), id)
  {
    if rev.revision > 1 {
      var p := RowId(rev.resultId, rev.revision - 1);
      assert p in t.log && p in u.log;
    }
  }

  lemma OwnObservationAgrees(env: Env, t: Store, u: Store, id: nat, rev: Revision)
    requires AgreeApartFrom(t, u, id) && rev.resultId == id
    ensures AgreeApartFrom(Observed(env, t, rev), u, id)
  {
    ObservedFrame(env, t, rev);
  }

  lemma OtherObservationAgrees(env: Env, t: Store, u: Store, id: nat, rev: Revision)
    requires AgreeApartFrom(t, u, id) && rev.resultId != id && Admissible(env, t, rev) && id !in u.heads
    ensures Admissible(env, u, rev) && AgreeApartFrom(Observed(env, t, rev), Observed(env, u, rev), id)
    ensures id !in Observed(env, u, rev).heads
  {
    AgreeingAdmits(env, t, u, id, rev);
    ObservedFrame(env, t, rev);
    ObservedFrame(env, u, rev);
  }

  lemma {:induction false} WithoutAgrees(env: Env, s: Store, run: seq<Revision>, id: nat)
    requires AdmissibleRun(env, s, run) && id !in s.heads
    ensures AdmissibleRun(env, s, Without(run, id))
    ensures AgreeApartFrom(ObserveAll(env, s, run), ObserveAll(env, s, Without(run, id)), id)
    ensures id !in ObserveAll(env, s, Without(run, id)).heads
  {
    if run != [] {
      var init, rev := run[..|run| - 1], run[|run| - 1];
      WithoutAgrees(env, s, init, id);
      var t, u := ObserveAll(env, s, init), ObserveAll(env, s, Without(init, id));
      if rev.resultId == id {
        OwnObservationAgrees(env, t, u, id, rev);
      } else {
        var rest := Without(init, id) + [rev];
        assert rest[..|rest| - 1] == Without(init, id);
        OtherObservationAgrees(env, t, u, id, rev);
      }
    }
  }

  lemma RetractedHeadRows(env: Env, t: Store, u: Store, id: nat, c: Cell)
    requires AgreeApartFrom(t, u, id) && id !in u.heads
    requires HeadStatusLogged(t) && HeadStatusLogged(u)
    requires id in t.heads && t.heads[id].status == Status.Retracted
    ensures HeadRows(env, t, c) == HeadRows(env, u, c)
  {
    forall r
      ensures Logged(t, r) && Joins(env, t, r, c) <==> Logged(u, r) && Joins(env, u, r, c)
    {
      if r.resultId == id {
        assert Logged(t, r) ==> HeadAgrees(t, r);
      } else {
        assert Id(r).result != id;
      }
    }
  }

  /** Retracting a result and settling restores every live cell, every timeline and every other
      result's current level rows to what they would be had the result never been observed. */
  lemma RetractionRestores(env: Env, s: Store, run: seq<Revision>, retraction: Revision, c: Cell)
    requires Settled(env, s) && retraction.resultId !in s.heads && c.scope != ""
    requires retraction.action == Action.Retracted && retraction.status == Status.Retracted
    requires AdmissibleRun(env, s, run + [retraction])
    ensures var t := ObserveAll(env, s, run + [retraction]);
            var u := ObserveAll(env, s, Without(run, retraction.resultId));
            && AdmissibleRun(env, s, Without(run, retraction.resultId))
            && Get(t.live, c) == Get(u.live, c)
            && Rows(env, t, c) == Rows(env, u, c)
            && forall r :: r in Rows(env, u, c) ==>
                 && LevelId(Id(r), c.level) in t.levels && LevelId(Id(r), c.level) in u.levels
                 && t.levels[LevelId(Id(r), c.level)] == u.levels[LevelId(Id(r), c.level)]
  {
    var id := retraction.resultId;
    var whole := run + [retraction];
    assert whole[..|whole| - 1] == run;
    assert Without(whole, id) == Without(run, id);
    WithoutAgrees(env, s, whole, id);
    HistoryStaysSettled(env, s, whole);
    HistoryStaysSettled(env, s, Without(run, id));
    HistoryIsReplayOfHeads(env, s, whole, c);
    HistoryIsReplayOfHeads(env, s, Without(run, id), c);
    var t, u := ObserveAll(env, s, whole), ObserveAll(env, s, Without(run, id));
    ClassifiedFrame(env, Advanced(ObserveAll(env, s, run), retraction), retraction);
    ContiguousHeads(t);
    ContiguousHeads(u);
    RetractedHeadRows(env, t, u, id, c);
  }

  // -------- The excluded correction --------

  lemma CorrectedHeadRows(env: Env, s: Store, rev: Revision, prev: Revision, c: Cell, r: Revision)
    requires IsNext(s, rev) && rev.revision > 1 && IsAbsorbed(env, rev)
    requires Logged(s, prev) && Id(prev) == RowId(rev.resultId, rev.revision - 1)
    ensures Logged(Advanced(s, rev), r) && Joins(env, Advanced(s, rev), r, c) <==>
            Logged(s, r) && Joins(env, s, r, c) && r != prev
  {
  }

  lemma AbsorbedKeepsLive(env: Env, s: Store, rev: Revision)
    requires IsAbsorbed(env, rev)
    ensures Observed(env, s, rev).live == s.live
  {
  }

  lemma AbsorbedCorrectionRows(env: Env, s: Store, rev: Revision, prev: Revision, c: Cell)
    requires IsNext(s, rev) && rev.revision > 1 && IsAbsorbed(env, rev)
    requires Logged(s, prev) && Id(prev) == RowId(rev.resultId, rev.revision - 1)
    ensures HeadRows(env, Observed(env, s, rev), c) == HeadRows(env, s, c) - {prev}
  {
    var a := Advanced(s, rev);
    ObservedFrame(env, s, rev);
    HeadRowsFrame(env, a, Observed(env, s, rev), c);
    forall r
      ensures r in HeadRows(env, a, c) <==> r in HeadRows(env, s, c) - {prev}
    {
      CorrectedHeadRows(env, s, rev, prev, c, r);
    }
  }

  /** A correction that moves a counted result into an absorbed competition repairs nothing. The live
      cell is then wrong exactly when the old revision alone held it: strictly better than the
      baseline and than every other row. */
  lemma AbsorbedCorrectionExactly(env: Env, s: Store, rev: Revision, prev: Revision, c: Cell)
    requires Settled(env, s) && IsNext(s, rev) && rev.revision > 1
    requires Logged(s, prev) && Id(prev) == RowId(rev.resultId, rev.revision - 1)
    requires IsAbsorbed(env, rev) && c.scope != "" && prev in Rows(env, s, c)
    ensures var t := Observed(env, s, rev);
            var others := HeadRows(env, s, c) - {prev};
            && HeadRows(env, t, c) == others
            && Get(t.live, c) == Get(s.live, c)
            && (Get(t.live, c) != Best(Floor(env, c), others) <==>
                Compare(prev.value, Best(Floor(env, c), others)) == Broken)
  {
    SettledLive(env, s, c);
    AbsorbedCorrectionRows(env, s, rev, prev, c);
    AbsorbedKeepsLive(env, s, rev);
    RemovalMatters(Floor(env, c), HeadRows(env, s, c), prev);
  }

  lemma SettledLive(env: Env, s: Store, c: Cell)
    requires Settled(env, s) && c.scope != ""
    ensures Rows(env, s, c) == HeadRows(env, s, c)
    ensures Get(s.live, c) == Best(Floor(env, c), HeadRows(env, s, c))
  {
    ContiguousHeads(s);
    ProjectedRowsAreHeadRows(env, s, c);
    assert CellConsistent(env, s, c);
  }

  lemma RemovalMatters(floor: Option<int>, rows: set<Revision>, r: Revision)
    requires r in rows
    ensures Best(floor, rows) != Best(floor, rows - {r}) <==> Compare(r.value, Best(floor, rows - {r})) == Broken
  {
    BestWith(floor, rows - {r}, r);
    assert rows - {r} + {r} == rows;
  }
}
