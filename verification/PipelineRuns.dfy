/** The logs and the runs of the pipeline: appending one revision after another, and putting runs together. */
module PipelineRuns {
  import opened RecordDomain
  import opened Classification
  import opened Pipeline
  import opened PipelineProofs

  // -------- Logs and runs --------

  lemma {:induction false} AppendAllFrame(s: Store, t: Store, revs: seq<Revision>)
    requires SameLog(s, t)
    ensures SameLog(AppendAll(s, revs), AppendAll(t, revs))
    decreases |revs|
  {
    if revs != [] {
      AppendAllFrame(Appended(s, revs[0]), Appended(t, revs[0]), revs[1..]);
    }
  }

  lemma {:induction false} ChainFrame(s: Store, t: Store, revs: seq<Revision>)
    requires SameLog(s, t) && Chain(s, revs)
    ensures Chain(t, revs)
    decreases |revs|
  {
    if revs != [] {
      ChainFrame(Appended(s, revs[0]), Appended(t, revs[0]), revs[1..]);
    }
  }

  lemma {:induction false} AppendAllConcat(s: Store, first: seq<Revision>, second: seq<Revision>)
    ensures AppendAll(s, first + second) == AppendAll(AppendAll(s, first), second)
    ensures Chain(s, first + second) <==> Chain(s, first) && Chain(AppendAll(s, first), second)
    decreases |first|
  {
    if first == [] {
      assert first + second == second;
    } else {
      AppendAllConcat(Appended(s, first[0]), first[1..], second);
      assert (first + second)[0] == first[0] && (first + second)[1..] == first[1..] + second;
    }
  }

  lemma MoveFirst(order: seq<Revision>, revs: seq<Revision>)
    requires revs != []
    ensures order + [revs[0]] + revs[1..] == order + revs
  {
  }

  lemma AppendKeepsNumbering(s: Store, order: seq<Revision>, rev: Revision)
    requires Numbered(s) && Recorded(s, order) && IsNext(s, rev)
    ensures Numbered(Appended(s, rev)) && Recorded(Appended(s, rev), order + [rev])
  {
    AppendKeepsNumbered(s, rev);
    AppendKeepsRecorded(s, order, rev);
  }

  /** A chain of revisions is recorded in the order it was appended. */
  lemma {:induction false} ChainRecorded(s: Store, order: seq<Revision>, revs: seq<Revision>)
    requires Numbered(s) && Recorded(s, order) && Chain(s, revs)
    ensures Numbered(AppendAll(s, revs)) && Recorded(AppendAll(s, revs), order + revs)
    decreases |revs|
  {
    if revs == [] {
      assert order + revs == order;
    } else {
      AppendKeepsNumbering(s, order, revs[0]);
      ChainRecorded(Appended(s, revs[0]), order + [revs[0]], revs[1..]);
      MoveFirst(order, revs);
    }
  }

  /** The heads and the log after a run are those of its appended revisions. */
  lemma {:induction false} RunLog(env: Env, a: Sys, events: seq<Event>, b: Sys)
    requires IsRun(env, a, events, b)
    ensures SameLog(b.store, AppendAll(a.store, Appends(events))) && b.appended == a.appended + Appends(events)
    decreases |events|
  {
    if events != [] {
      var a', e := Next(env, a, events[0]), events[0];
      RunLog(env, a', events[1..], b);
      StepKeepsLog(env, a, e);
      if e.Append? {
        assert Appends(events)[0] == e.rev && Appends(events)[1..] == Appends(events[1..]);
        AppendAllFrame(a'.store, Appended(a.store, e.rev), Appends(events[1..]));
      } else {
        assert Appends(events) == Appends(events[1..]);
        AppendAllFrame(a'.store, a.store, Appends(events[1..]));
      }
    }
  }

  lemma {:induction false} RunSnoc(env: Env, a: Sys, events: seq<Event>, b: Sys, e: Event)
    requires IsRun(env, a, events, b) && Enabled(b, e)
    ensures IsRun(env, a, events + [e], Next(env, b, e))
    ensures Appends(events + [e]) == Appends(events) + if e.Append? then [e.rev] else []
    decreases |events|
  {
    if events == [] {
      assert (events + [e])[1..] == [];
      assert IsRun(env, Next(env, b, e), [], Next(env, b, e));
    } else {
      RunSnoc(env, Next(env, a, events[0]), events[1..], b, e);
      assert (events + [e])[1..] == events[1..] + [e];
    }
  }

  lemma {:induction false} RunConcat(env: Env, a: Sys, first: seq<Event>, b: Sys, second: seq<Event>, c: Sys)
    requires IsRun(env, a, first, b) && IsRun(env, b, second, c)
    ensures IsRun(env, a, first + second, c)
    decreases |first|
  {
    if first == [] {
      assert first + second == second;
    } else {
      RunConcat(env, Next(env, a, first[0]), first[1..], b, second, c);
      assert (first + second)[1..] == first[1..] + second;
    }
  }

  lemma OneStep(env: Env, a: Sys, e: Event)
    requires Enabled(a, e)
    ensures IsRun(env, a, [e], Next(env, a, e))
  {
    assert [e][1..] == [];
    assert IsRun(env, Next(env, a, e), [], Next(env, a, e));
  }

  lemma TouchedFrame(env: Env, s: Store, t: Store, rev: Revision)
    requires SameLog(s, t)
    ensures Touched(env, s, rev) == Touched(env, t, rev)
  {
  }

  // -------- Orderly runs --------

  lemma {:induction false} OrderlySnoc(env: Env, a: Sys, events: seq<Event>, b: Sys, e: Event)
    requires IsOrderlyRun(env, a, events, b) && Enabled(b, e) && InTurn(b, e)
    ensures IsOrderlyRun(env, a, events + [e], Next(env, b, e))
    decreases |events|
  {
    if events == [] {
      assert (events + [e])[1..] == [];
      assert IsOrderlyRun(env, Next(env, b, e), [], Next(env, b, e));
    } else {
      OrderlySnoc(env, Next(env, a, events[0]), events[1..], b, e);
      assert (events + [e])[1..] == events[1..] + [e];
    }
  }

  lemma {:induction false} OrderlyIsRun(env: Env, a: Sys, events: seq<Event>, b: Sys)
    requires IsOrderlyRun(env, a, events, b)
    ensures IsRun(env, a, events, b)
    decreases |events|
  {
    if events != [] {
      OrderlyIsRun(env, Next(env, a, events[0]), events[1..], b);
    }
  }

  /** An orderly run from empty tables. */
  ghost predicate Scheduled(env: Env, events: seq<Event>, a: Sys) {
    IsOrderlyRun(env, Start(env), events, a)
  }

  lemma Extend(env: Env, events: seq<Event>, a: Sys, e: Event)
    requires Scheduled(env, events, a) && Enabled(a, e) && InTurn(a, e)
    ensures Scheduled(env, events + [e], Next(env, a, e))
    ensures Appends(events + [e]) == Appends(events) + if e.Append? then [e.rev] else []
  {
    OrderlySnoc(env, Start(env), events, a, e);
    OrderlyIsRun(env, Start(env), events, a);
    RunSnoc(env, Start(env), events, a, e);
  }

  lemma ScheduledReachable(env: Env, events: seq<Event>, a: Sys)
    requires Scheduled(env, events, a)
    ensures Inv(env, a)
  {
    OrderlyIsRun(env, Start(env), events, a);
    Reachable(env, events, a);
  }

  lemma ScheduledLog(env: Env, events: seq<Event>, a: Sys)
    requires Scheduled(env, events, a)
    ensures Numbered(a.store) && Recorded(a.store, a.appended)
  {
    ScheduledReachable(env, events, a);
  }
}
