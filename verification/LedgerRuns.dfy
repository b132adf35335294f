/** Whole runs of the ledger and the language of its actions. */
module LedgerRuns {
  import opened RecordDomain
  import opened Evidence
  import opened Reconciliation
  import opened LedgerProofs
  import opened ValidationProofs

  // -------- Runs --------

  /** One transaction, with the reference tables and snapshot it runs against. */
  datatype Op =
    | Reconcile(w: Reference, claim: Claim)
    | Retract(w: Reference, key: string, observedAt: int)
    | Revalidate(w: Reference, ids: seq<nat>, size: nat)

  ghost predicate Runnable(l: Ledger, op: Op) {
    Referential(l) && (op.Revalidate? ==> AllKnown(l, op.ids) && NoDuplicates(op.ids) && op.size >= 1)
  }

  ghost function After(l: Ledger, op: Op): Ledger
    requires Runnable(l, op)
  {
    match op
    case Reconcile(w, d) => Reconciled(w, l, d)
    case Retract(w, key, observedAt) => RetractedClaim(w, l, key, observedAt)
    case Revalidate(w, ids, size) => InBatches(w, l, ids, size)
  }

  ghost predicate LedgerRun(l: Ledger, ops: seq<Op>, t: Ledger)
    decreases |ops|
  {
    if ops == [] then l == t else Runnable(l, ops[0]) && LedgerRun(After(l, ops[0]), ops[1..], t)
  }

  function Empty(): Ledger {
    Ledger(map[], map[], map[], map[], map[], 0, 0)
  }

  lemma OpKeepsInv(l: Ledger, op: Op)
    requires LedgerInv(l) && Runnable(l, op)
    ensures LedgerInv(After(l, op))
  {
    match op
    case Reconcile(w, d) => ReconcileKeepsInv(w, l, d);
    case Retract(w, key, observedAt) => RetractKeepsInv(w, l, key, observedAt);
    case Revalidate(w, ids, size) =>
      BatchSizeIsInvisible(w, l, ids, size);
      EachAloneKeepsInv(w, l, ids);
  }

  /** Over every run of reconciliations, retractions and revalidations, identity upgrades and moves of
      evidence included: revisions are numbered 1 to head with one work item each, actions spell the
      life of the result, every observation belongs to one known result, and every head shows its evidence. */
  lemma {:induction false} RunKeepsLedger(l: Ledger, ops: seq<Op>, t: Ledger)
    requires LedgerInv(l) && LedgerRun(l, ops, t)
    ensures LedgerInv(t)
    decreases |ops|
  {
    if ops != [] {
      OpKeepsInv(l, ops[0]);
      RunKeepsLedger(After(l, ops[0]), ops[1..], t);
    }
  }

  lemma EmptyIsSound()
    ensures LedgerInv(Empty())
  {
  }

  // -------- The language of actions --------

  /** `n` corrections. */
  function Corrections(n: nat): seq<Action> {
    if n == 0 then [] else Corrections(n - 1) + [Action.Corrected]
  }

  /** ACTIVE CORRECTED*, once per episode, with a retraction between episodes. */
  function Written(episodes: seq<nat>): seq<Action> {
    if episodes == [] then []
    else if |episodes| == 1 then [Action.Active] + Corrections(episodes[0])
    else Written(episodes[..|episodes| - 1]) + [Action.Retracted] + [Action.Active] + Corrections(episodes[|episodes| - 1])
  }

  function Sentence(episodes: seq<nat>, closed: bool): seq<Action> {
    Written(episodes) + if closed && episodes != [] then [Action.Retracted] else []
  }

  ghost predicate InLanguage(actions: seq<Action>) {
    exists episodes, closed :: actions == Sentence(episodes, closed)
  }

  predicate Ordered(actions: seq<Action>) {
    && (actions != [] ==> actions[0] == Action.Active)
    && forall i :: 0 < i < |actions| ==>
         if actions[i - 1] == Action.Retracted then actions[i] == Action.Active
         else actions[i] == Action.Corrected || actions[i] == Action.Retracted
  }

  /** Read an ordered list of actions as episodes. */
  lemma {:induction false} ReadEpisodes(actions: seq<Action>) returns (episodes: seq<nat>, closed: bool)
    requires Ordered(actions)
    ensures actions == Sentence(episodes, closed)
    ensures closed ==> episodes != []
    ensures actions != [] ==> (closed <==> actions[|actions| - 1] == Action.Retracted) && episodes != []
    ensures actions == [] ==> episodes == []
    decreases |actions|
  {
    if actions == [] {
      episodes, closed := [], false;
    } else {
      var init, last := actions[..|actions| - 1], actions[|actions| - 1];
      var before, was := ReadEpisodes(init);
      assert actions == init + [last];
      if init == [] {
        episodes, closed := [0], false;
        assert Written([0]) == [Action.Active];
      } else if last == Action.Retracted {
        episodes, closed := before, true;
      } else if last == Action.Active {
        assert init[|init| - 1] == actions[|init| - 1];
        episodes, closed := before + [0], false;
        assert (before + [0])[..|before + [0]| - 1] == before;
      } else {
        assert init[|init| - 1] == actions[|init| - 1];
        MoreCorrections(before);
        episodes, closed := before[|before| - 1 := before[|before| - 1] + 1], false;
      }
    }
  }

  lemma MoreCorrections(episodes: seq<nat>)
    requires episodes != []
    ensures Written(episodes[|episodes| - 1 := episodes[|episodes| - 1] + 1]) == Written(episodes) + [Action.Corrected]
  {
    var more := episodes[|episodes| - 1 := episodes[|episodes| - 1] + 1];
    assert more[..|more| - 1] == episodes[..|episodes| - 1];
    assert Corrections(more[|more| - 1]) == Corrections(episodes[|episodes| - 1]) + [Action.Corrected];
  }

  function Actions(rows: seq<Logged>): seq<Action> {
    seq(|rows|, i requires 0 <= i < |rows| => rows[i].action)
  }

  lemma SpelledActions(rows: seq<Logged>)
    requires Spells(rows)
    ensures InLanguage(Actions(rows))
  {
    var actions := Actions(rows);
    assert Ordered(actions);
    var episodes, closed := ReadEpisodes(actions);
    assert actions == Sentence(episodes, closed);
  }

  lemma KeptRows(l: Ledger, id: nat)
    requires LedgerInv(l) && id in l.canonicals
    ensures LogWell(l, id) && l.log[id] != []
  {
    assert Closed(l, id);
  }

  /** In every reachable ledger a result's actions are ACTIVE CORRECTED*, then any number of
      RETRACTED ACTIVE CORRECTED*, then at most one final RETRACTED. */
  lemma ActionsAreInLanguage(ops: seq<Op>, l: Ledger, id: nat)
    requires LedgerRun(Empty(), ops, l) && id in l.canonicals
    ensures id in l.log && l.log[id] != [] && InLanguage(Actions(l.log[id]))
  {
    EmptyIsSound();
    RunKeepsLedger(Empty(), ops, l);
    KeptRows(l, id);
    SpelledActions(l.log[id]);
  }
}
