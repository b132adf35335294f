/** The evidence ledger and the classification workers together: transactions on the evidence and worker steps in any
    interleaving, and what the live cells of a quiet queue say about the evidence. */
module JointRuns {
  import opened RecordDomain
  import opened RecordOrder
  import opened Evidence
  import opened Reconciliation
  import opened LedgerProofs
  import opened LedgerRuns
  import opened PublishedLog
  import C = Classification
  import S = SettledProofs
  import H = RunProofs
  import P = Pipeline
  import Safety = PipelineProofs
  import Runs = PipelineRuns

  /** One ledger and one classification system over the same result log. */
  datatype Joint = Joint(ledger: Ledger, sys: P.Sys)

  /** One evidence transaction with the revisions it appends, in the same transaction, and their work items; or one step of a
      worker. A refresh that commits batch by batch is one transaction per batch. */
  datatype Step =
    | Transact(op: Op, arrivals: seq<P.Event>)
    | Work(event: P.Event)

  ghost predicate AllAppends(events: seq<P.Event>) {
    forall e :: e in events ==> e.Append?
  }

  /** The classifier reads the log the ledger writes. */
  ghost predicate InStep(j: Joint) {
    P.SameLog(j.sys.store, Published(j.ledger.log))
  }

  ghost predicate JointStep(env: Env, j: Joint, step: Step, k: Joint) {
    match step
    case Transact(op, arrivals) =>
      && Runnable(j.ledger, op) && k.ledger == After(j.ledger, op)
      && AllAppends(arrivals) && P.IsRun(env, j.sys, arrivals, k.sys) && InStep(k)
    case Work(e) => !e.Append? && P.Enabled(j.sys, e) && k == Joint(j.ledger, P.Next(env, j.sys, e))
  }

  ghost predicate JointRun(env: Env, j: Joint, steps: seq<Step>, t: Joint)
    decreases |steps|
  {
    if steps == [] then j == t
    else exists k :: JointStep(env, j, steps[0], k) && JointRun(env, k, steps[1..], t)
  }

  function Begin(env: Env): Joint {
    Joint(Empty(), P.Start(env))
  }

  // -------- Joint runs are runs of both --------

  lemma JointStepIsRun(env: Env, j: Joint, step: Step, k: Joint) returns (events: seq<P.Event>, ops: seq<Op>)
    requires JointStep(env, j, step, k) && InStep(j)
    ensures P.IsRun(env, j.sys, events, k.sys) && |ops| <= 1 && LedgerRun(j.ledger, ops, k.ledger) && InStep(k)
  {
    match step
    case Transact(op, arrivals) =>
      events, ops := arrivals, [op];
      assert LedgerRun(k.ledger, [op][1..], k.ledger);
    case Work(e) =>
      events, ops := [e], [];
      Runs.OneStep(env, j.sys, e);
      Safety.StepKeepsLog(env, j.sys, e);
  }

  lemma {:induction false} JointIsRun(env: Env, j: Joint, steps: seq<Step>, t: Joint) returns (events: seq<P.Event>, ops: seq<Op>)
    requires JointRun(env, j, steps, t) && InStep(j)
    ensures P.IsRun(env, j.sys, events, t.sys) && LedgerRun(j.ledger, ops, t.ledger) && InStep(t)
    decreases |steps|
  {
    events, ops := [], [];
    if steps != [] {
      var k :| JointStep(env, j, steps[0], k) && JointRun(env, k, steps[1..], t);
      var first, op := JointStepIsRun(env, j, steps[0], k);
      var rest, more := JointIsRun(env, k, steps[1..], t);
      Runs.RunConcat(env, j.sys, first, k.sys, rest, t.sys);
      LedgerRunConcat(j.ledger, op, k.ledger, more, t.ledger);
      events, ops := first + rest, op + more;
    }
  }

  lemma LedgerRunConcat(l: Ledger, first: seq<Op>, m: Ledger, rest: seq<Op>, t: Ledger)
    requires |first| <= 1 && LedgerRun(l, first, m) && LedgerRun(m, rest, t)
    ensures LedgerRun(l, first + rest, t)
  {
    if first == [] {
      assert first + rest == rest;
    } else {
      assert LedgerRun(After(l, first[0]), first[1..], m) && first[1..] == [];
      assert (first + rest)[1..] == rest;
    }
  }

  /** What holds of both sides at every point of a joint run. */
  lemma JointKeeps(env: Env, steps: seq<Step>, t: Joint) returns (events: seq<P.Event>)
    requires JointRun(env, Begin(env), steps, t)
    ensures P.IsRun(env, P.Start(env), events, t.sys) && Safety.Inv(env, t.sys)
    ensures LedgerInv(t.ledger) && InStep(t)
  {
    var ops;
    EmptyPublishesNothing(env);
    events, ops := JointIsRun(env, Begin(env), steps, t);
    EmptyIsSound();
    RunKeepsLedger(Empty(), ops, t.ledger);
    Safety.Reachable(env, events, t.sys);
  }

  // -------- Evidence never waits for the workers --------

  lemma {:induction false} ArrivalsAreRun(env: Env, a: P.Sys, revs: seq<Revision>) returns (events: seq<P.Event>, b: P.Sys)
    requires Safety.Numbered(a.store) && a.work.Keys == a.store.log.Keys && P.Chain(a.store, revs)
    ensures AllAppends(events) && P.IsRun(env, a, events, b) && b.store == P.AppendAll(a.store, revs)
    decreases |revs|
  {
    events, b := [], a;
    if revs != [] {
      var e := P.Append(revs[0], 0, 0);
      Safety.NextIsFresh(a.store, revs[0]);
      Safety.AppendKeepsNumbered(a.store, revs[0]);
      var rest;
      rest, b := ArrivalsAreRun(env, P.Next(env, a, e), revs[1..]);
      events := [e] + rest;
      assert events[1..] == rest;
    }
  }

  /** Whatever the workers are in the middle of, every evidence transaction can be carried out. */
  lemma EvidenceNeverWaits(env: Env, steps: seq<Step>, j: Joint, op: Op) returns (arrivals: seq<P.Event>, k: Joint)
    requires JointRun(env, Begin(env), steps, j) && Runnable(j.ledger, op)
    ensures JointStep(env, j, Transact(op, arrivals), k)
  {
    var _ := JointKeeps(env, steps, j);
    var revs := OpPublishes(j.ledger, op);
    Runs.ChainFrame(Published(j.ledger.log), j.sys.store, revs);
    Runs.AppendAllFrame(Published(j.ledger.log), j.sys.store, revs);
    var b;
    arrivals, b := ArrivalsAreRun(env, j.sys, revs);
    k := Joint(After(j.ledger, op), b);
  }

  // -------- The heads and the evidence --------

  /** The cell a canonical result competes in at a level, from its own facts. */
  function FactsCell(env: Env, id: nat, f: Facts, level: Level): Cell {
    CellOf(env, AsRevision(id, Logged(1, f, Action.Active, Status.Active, 0)), level)
  }

  /** A result with active evidence, complete and not rejected, outside every absorbed competition, competes in its cells. */
  ghost predicate Competes(env: Env, l: Ledger, c: Cell, id: nat) {
    && id in l.canonicals && ActiveKeys(l, id) != {}
    && var f := l.canonicals[id].facts;
    && f.validation != Rejected && IsComplete(f.value) && c == FactsCell(env, id, f, c.level)
    && !(f.context.competitionId != "" && f.context.competitionId in env.absorbed)
  }

  /** `k` is the active observation of the result that is greatest by trust, last observation time and id. */
  ghost predicate Speaks(l: Ledger, id: nat, k: string) {
    k in l.observations && IsHeaviest(l.observations, ActiveKeys(l, id), k)
  }

  /** No competing result's evidence has a lower value. */
  ghost predicate Lowest(env: Env, l: Ledger, c: Cell, value: int) {
    forall id, k :: Competes(env, l, c, id) && Speaks(l, id, k) ==> value <= l.observations[k].value
  }

  /** Some competing result's evidence has this value. */
  ghost predicate Said(env: Env, l: Ledger, c: Cell, value: int) {
    exists id, k :: Competes(env, l, c, id) && Speaks(l, id, k) && l.observations[k].value == value
  }

  /** `best` is the least of the baseline and of what the evidence says of the results competing in the cell. */
  ghost predicate IsBestEvidence(env: Env, l: Ledger, c: Cell, best: Option<int>) {
    match best
    case None => C.Floor(env, c) == None && forall id :: !Competes(env, l, c, id)
    case Some(value) =>
      && AtMost(best, C.Floor(env, c)) && Lowest(env, l, c, value)
      && (C.Floor(env, c) == best || Said(env, l, c, value))
  }

  function LastRow(l: Ledger, id: nat): Revision
    requires id in l.log && l.log[id] != []
  {
    AsRevision(id, l.log[id][|l.log[id]| - 1])
  }

  /** A head is the last row of its result. */
  lemma HeadIsLastRow(l: Ledger, s: C.Store, r: Revision)
    requires Logs(l) && l.log.Keys == l.canonicals.Keys && P.SameLog(s, Published(l.log)) && S.Logged(s, r) && C.IsHead(s, r)
    ensures r.resultId in l.canonicals && l.log[r.resultId] != [] && r == LastRow(l, r.resultId)
  {
  }

  lemma LastRowIsHead(l: Ledger, s: C.Store, id: nat)
    requires LogWell(l, id) && l.log[id] != [] && P.SameLog(s, Published(l.log))
    ensures S.Logged(s, LastRow(l, id)) && C.IsHead(s, LastRow(l, id))
  {
    assert RowId(id, |l.log[id]|) in Published(l.log).log;
  }

  /** The last row joins a cell exactly when its result competes there, with the value of its heaviest evidence. */
  lemma LastRowCompetes(env: Env, l: Ledger, c: Cell, id: nat)
    requires id in l.canonicals && LogWell(l, id) && Closed(l, id)
    ensures S.Eligible(env, LastRow(l, id)) && c == CellOf(env, LastRow(l, id), c.level) <==> Competes(env, l, c, id)
    ensures Competes(env, l, c, id) ==> Speaks(l, id, l.canonicals[id].current.value)
                                        && l.observations[l.canonicals[id].current.value].value == LastRow(l, id).value
  {
    var row := l.log[id][|l.log[id]| - 1];
    assert row.status == StatusFor(row.action);
  }

  lemma CompetitorsAreHeads(env: Env, l: Ledger, s: C.Store, c: Cell, id: nat)
    requires LedgerInv(l) && P.SameLog(s, Published(l.log)) && Competes(env, l, c, id)
    ensures id in l.log && l.log[id] != [] && LastRow(l, id) in H.HeadRows(env, s, c)
  {
    assert LogWell(l, id) && Closed(l, id);
    LastRowIsHead(l, s, id);
    LastRowCompetes(env, l, c, id);
  }

  lemma HeadsAreCompetitors(env: Env, l: Ledger, s: C.Store, c: Cell, r: Revision)
    requires LedgerInv(l) && P.SameLog(s, Published(l.log)) && r in H.HeadRows(env, s, c)
    ensures Competes(env, l, c, r.resultId) && l.log[r.resultId] != [] && r == LastRow(l, r.resultId)
  {
    HeadIsLastRow(l, s, r);
    assert LogWell(l, r.resultId) && Closed(l, r.resultId);
    LastRowCompetes(env, l, c, r.resultId);
  }

  lemma EvidenceSaysValue(env: Env, l: Ledger, c: Cell, id: nat, k: string)
    requires LedgerInv(l) && Competes(env, l, c, id) && Speaks(l, id, k)
    ensures id in l.log && l.log[id] != [] && l.observations[k].value == LastRow(l, id).value
  {
    assert LogWell(l, id) && Closed(l, id);
    LastRowCompetes(env, l, c, id);
    HeaviestIsUnique(l.observations, ActiveKeys(l, id), k, l.canonicals[id].current.value);
  }

  lemma CompetitorSpeaks(env: Env, l: Ledger, c: Cell, id: nat) returns (k: string)
    requires LedgerInv(l) && Competes(env, l, c, id)
    ensures Speaks(l, id, k) && id in l.log && l.log[id] != [] && l.observations[k].value == LastRow(l, id).value
  {
    assert LogWell(l, id) && Closed(l, id);
    LastRowCompetes(env, l, c, id);
    k := l.canonicals[id].current.value;
  }

  lemma BestIsBelowEvidence(env: Env, l: Ledger, s: C.Store, c: Cell, value: int, id: nat, k: string)
    requires LedgerInv(l) && P.SameLog(s, Published(l.log)) && Best(C.Floor(env, c), H.HeadRows(env, s, c)) == Some(value)
    ensures Competes(env, l, c, id) && Speaks(l, id, k) ==> value <= l.observations[k].value
  {
    if Competes(env, l, c, id) && Speaks(l, id, k) {
      CompetitorsAreHeads(env, l, s, c, id);
      EvidenceSaysValue(env, l, c, id, k);
      assert IsBest(C.Floor(env, c), H.HeadRows(env, s, c), Some(value));
    }
  }

  lemma BestIsSpoken(env: Env, l: Ledger, s: C.Store, c: Cell) returns (id: nat, k: string)
    requires LedgerInv(l) && P.SameLog(s, Published(l.log))
    requires var m := Best(C.Floor(env, c), H.HeadRows(env, s, c)); m.Some? && m != C.Floor(env, c)
    ensures Competes(env, l, c, id) && Speaks(l, id, k)
    ensures Best(C.Floor(env, c), H.HeadRows(env, s, c)) == Some(l.observations[k].value)
  {
    var m := Best(C.Floor(env, c), H.HeadRows(env, s, c));
    assert IsBest(C.Floor(env, c), H.HeadRows(env, s, c), m);
    var r :| r in H.HeadRows(env, s, c) && r.value == m.value;
    HeadsAreCompetitors(env, l, s, c, r);
    id := r.resultId;
    k := CompetitorSpeaks(env, l, c, id);
  }

  lemma NothingCompetes(env: Env, l: Ledger, s: C.Store, c: Cell)
    requires LedgerInv(l) && P.SameLog(s, Published(l.log)) && H.HeadRows(env, s, c) == {}
    ensures forall id :: !Competes(env, l, c, id)
  {
    forall id
      ensures !Competes(env, l, c, id)
    {
      if Competes(env, l, c, id) {
        CompetitorsAreHeads(env, l, s, c, id);
      }
    }
  }

  lemma BestIsLowest(env: Env, l: Ledger, s: C.Store, c: Cell, value: int)
    requires LedgerInv(l) && P.SameLog(s, Published(l.log)) && Best(C.Floor(env, c), H.HeadRows(env, s, c)) == Some(value)
    ensures Lowest(env, l, c, value)
  {
    if id, k :| Competes(env, l, c, id) && Speaks(l, id, k) && value > l.observations[k].value {
      BestIsBelowEvidence(env, l, s, c, value, id, k);
    }
  }

  /** The best of the heads is the best of the evidence. */
  lemma BestHeadIsBestEvidence(env: Env, l: Ledger, s: C.Store, c: Cell, best: Option<int>)
    requires LedgerInv(l) && P.SameLog(s, Published(l.log)) && best == Best(C.Floor(env, c), H.HeadRows(env, s, c))
    ensures IsBestEvidence(env, l, c, best)
  {
    match best
    case None => NothingCompetes(env, l, s, c);
    case Some(value) =>
      BestIsLowest(env, l, s, c, value);
      if best != C.Floor(env, c) {
        var id, k := BestIsSpoken(env, l, s, c);
        assert Said(env, l, c, value);
      }
  }

  /** Over every interleaving of reconciliations, retractions and scope refreshes with any number of workers claiming,
      classifying, settling, failing, crashing and losing leases: whenever no work is unsettled and no better revision escaped
      repair, a live cell is the least of its baseline and of the values that the heaviest active observations give the
      results competing in it. */
  lemma QuietLiveIsBestEvidence(env: Env, steps: seq<Step>, t: Joint, c: Cell)
    requires JointRun(env, Begin(env), steps, t) && P.Quiescent(t.sys) && c.scope != ""
    requires Safety.NothingEscapes(env, t.sys.store, t.sys.appended, c)
    ensures IsBestEvidence(env, t.ledger, c, Get(t.sys.store.live, c))
  {
    var events := JointKeeps(env, steps, t);
    Safety.QuiescentLiveIsBestOfHeads(env, events, t.sys, c);
    BestHeadIsBestEvidence(env, t.ledger, t.sys.store, c, Get(t.sys.store.live, c));
  }
}
