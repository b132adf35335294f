/** Whole runs of the classifier with no writer in between: the rebuild oracle, arrival order,
    retraction, and the baseline refresh. */
module RunProofs {
  import opened RecordDomain
  import opened RecordOrder
  import opened Replay
  import opened Classification
  import opened SettledProofs

  ghost function ClassifyAll(env: Env, s: Store, order: seq<Revision>): Store {
    if order == [] then s
    else Classified(env, ClassifyAll(env, s, order[..|order| - 1]), order[|order| - 1])
  }

  lemma ClassifiedFrame(env: Env, s: Store, rev: Revision)
    ensures var t := Classified(env, s, rev);
            t.heads == s.heads && t.log == s.log && t.processed == Materialized(env, s, rev).processed
  {
  }

  // -------- Timelines read off the heads alone --------

  /** The current, valid, unabsorbed head revisions of a cell, straight from heads and log. */
  ghost function HeadRows(env: Env, s: Store, c: Cell): (rows: set<Revision>)
    ensures forall r :: r in rows <==> Logged(s, r) && Joins(env, s, r, c)
    ensures Distinct(rows)
  {
    set k | k in s.log && Id(s.log[k]) == k && Joins(env, s, s.log[k], c) :: s.log[k]
  }

  ghost predicate Projected(s: Store, k: RowId) {
    k in s.processed && k in s.log && s.processed[k].valid == RevisionIsValid(s.log[k])
  }

  /** Every head revision has its projection. */
  ghost predicate HeadsProjected(s: Store) {
    forall id :: id in s.heads ==> Projected(s, RowId(id, s.heads[id].revision))
  }

  ghost predicate HeadStatusLogged(s: Store) {
    forall r :: Logged(s, r) ==> HeadAgrees(s, r)
  }

  lemma ContiguousHeads(s: Store)
    requires LogIsContiguous(s)
    ensures HeadStatusLogged(s)
  {
    forall r | Logged(s, r)
      ensures HeadAgrees(s, r)
    {
      LoggedHeadAgrees(s, r);
    }
  }

  lemma ProjectedRowsAreHeadRows(env: Env, s: Store, c: Cell)
    requires ProjectionsMatchLog(env, s) && HeadsProjected(s) && HeadStatusLogged(s)
    ensures Rows(env, s, c) == HeadRows(env, s, c)
  {
    forall r
      ensures Counts(env, s, r, c) <==> Logged(s, r) && Joins(env, s, r, c)
    {
      if Counts(env, s, r, c) {
        assert Id(r) in s.log && s.log[Id(r)] == r;
      }
      if Logged(s, r) && Joins(env, s, r, c) {
        assert HeadAgrees(s, r);
        assert Projected(s, RowId(r.resultId, s.heads[r.resultId].revision));
        assert s.processed[Id(r)].row == r;
      }
    }
  }

  // -------- The rebuild oracle --------

  ghost predicate EachLoggedOnce(s: Store, order: seq<Revision>) {
    NoRepeats(order) && forall r :: r in order <==> Logged(s, r)
  }

  /** Derived rows discarded, live cells reseeded from the baseline. */
  ghost function Discarded(env: Env, s: Store): Store {
    s.(processed := map[], levels := map[], live := env.baseline)
  }

  lemma DiscardedIsConsistent(env: Env, s: Store)
    ensures ProjectionsMatchLog(env, Discarded(env, s)) && Consistent(env, Discarded(env, s))
  {
    var t := Discarded(env, s);
    forall c: Cell | c.scope != ""
      ensures CellConsistent(env, t, c)
    {
      assert Rows(env, t, c) == {};
    }
  }

  /** Projections present after a prefix of a run, and no others. */
  ghost predicate ProjectedUpTo(s: Store, before: Store, order: seq<Revision>) {
    && s.heads == before.heads && s.log == before.log
    && (forall k :: k in s.processed <==> k in before.processed || exists r :: r in order && Id(r) == k)
    && (forall r :: r in order && IsHead(s, r) ==> Projected(s, Id(r)))
  }

  /** Projecting one revision leaves every other head's projection alone. */
  lemma StepProjects(s: Store, t: Store, rev: Revision, r: Revision)
    requires HeadAgrees(s, rev) && t.heads == s.heads && t.log == s.log && IsHead(s, r) && Logged(s, r)
    requires Id(r) in t.processed && (Id(r) in s.processed || Id(r) == Id(rev)) && t.processed[Id(r)] == ProjectionAfter(s, rev, Id(r))
    requires r == rev || Projected(s, Id(r))
    ensures Projected(t, Id(r))
  {
  }

  lemma StepProjectsKeys(s: Store, t: Store, before: Store, order: seq<Revision>, rev: Revision)
    requires forall k :: k in s.processed <==> k in before.processed || exists r :: r in order && Id(r) == k
    requires t.processed.Keys == s.processed.Keys + {Id(rev)}
    ensures forall k :: k in t.processed <==> k in before.processed || exists r :: r in order + [rev] && Id(r) == k
  {
    forall k
      ensures k in t.processed <==> k in before.processed || exists r :: r in order + [rev] && Id(r) == k
    {
      assert rev in order + [rev];
      if r :| r in order && Id(r) == k {
        assert r in order + [rev];
      }
    }
  }

  lemma ClassifyStepProjects(env: Env, before: Store, s: Store, order: seq<Revision>, rev: Revision)
    requires ProjectedUpTo(s, before, order) && HeadAgrees(s, rev)
    requires forall r :: r in order ==> Logged(s, r)
    ensures ProjectedUpTo(Classified(env, s, rev), before, order + [rev])
  {
    ClassifiedFrame(env, s, rev);
    var t := Classified(env, s, rev);
    StepProjectsKeys(s, t, before, order, rev);
    forall r | r in order + [rev] && IsHead(t, r)
      ensures Projected(t, Id(r))
    {
      StepProjects(s, t, rev, r);
    }
  }

  /** Classifying logged revisions once each, in any order whatever, keeps the tables a replay of
      what has been projected so far. */
  lemma {:induction false} RunKeepsConsistent(env: Env, s: Store, order: seq<Revision>)
    requires ProjectionsMatchLog(env, s) && Consistent(env, s) && HeadStatusLogged(s)
    requires NoRepeats(order)
    requires forall r :: r in order ==> Logged(s, r) && Id(r) !in s.processed
    ensures var t := ClassifyAll(env, s, order);
            ProjectionsMatchLog(env, t) && Consistent(env, t) && ProjectedUpTo(t, s, order)
  {
    if order != [] {
      var init, rev := order[..|order| - 1], order[|order| - 1];
      assert order == init + [rev];
      RunKeepsConsistent(env, s, init);
      var t := ClassifyAll(env, s, init);
      assert Id(rev) !in t.processed by {
        forall r | r in init
          ensures Id(r) != Id(rev)
        {
          assert Logged(s, r) && Logged(s, rev);
        }
      }
      assert HeadAgrees(s, rev);
      assert HeadAgrees(t, rev);
      ClassifyKeepsConsistent(env, t, rev);
      ClassifyStepProjects(env, s, t, init, rev);
    }
  }

  /** The rebuild leaves every live cell and every current level row exactly as one replay of the
      head revisions over the baseline, whatever else the log holds. */
  lemma RebuildIsReplayOfHeads(env: Env, s: Store, order: seq<Revision>, c: Cell)
    requires LogIsContiguous(s) && EachLoggedOnce(s, order) && c.scope != ""
    ensures var t := ClassifyAll(env, Discarded(env, s), order);
            var rows := HeadRows(env, s, c);
            && Get(t.live, c) == Best(Floor(env, c), rows)
            && Rows(env, t, c) == rows
            && forall r :: r in rows ==>
                 && LevelId(Id(r), c.level) in t.levels
                 && t.levels[LevelId(Id(r), c.level)] == Replayed(Floor(env, c), rows, c.scope, r)
  {
    var s0 := Discarded(env, s);
    var t := ClassifyAll(env, s0, order);
    DiscardedIsConsistent(env, s);
    ContiguousHeads(s);
    HeadStatusFrame(s, s0);
    forall r | r in order
      ensures Logged(s0, r)
    {
      assert Logged(s, r);
    }
    RunKeepsConsistent(env, s0, order);
    forall id | id in t.heads
      ensures Projected(t, RowId(id, t.heads[id].revision))
    {
      var r := s.log[RowId(id, s.heads[id].revision)];
      assert Logged(s, r);
      assert r in order && IsHead(t, r);
    }
    HeadStatusFrame(s, t);
    ProjectedRowsAreHeadRows(env, t, c);
    HeadRowsFrame(env, s, t, c);
    assert CellConsistent(env, t, c);
  }

  lemma HeadStatusFrame(s: Store, t: Store)
    requires s.heads == t.heads && s.log == t.log && HeadStatusLogged(s)
    ensures HeadStatusLogged(t)
  {
    forall r | Logged(t, r)
      ensures HeadAgrees(t, r)
    {
      assert Logged(s, r);
      assert HeadAgrees(s, r);
    }
  }

  lemma HeadRowsFrame(env: Env, s: Store, t: Store, c: Cell)
    requires s.heads == t.heads && s.log == t.log
    ensures HeadRows(env, s, c) == HeadRows(env, t, c)
  {
  }
}
