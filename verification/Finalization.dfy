/** When a round result is final: provider-neutral rules over attempts. */
module Finalization {
  import opened RecordDomain
  import opened ResultValues

  datatype Rule = Rule(expected: int, cutoffAttempts: Option<int>, cutoffValue: Option<int>)

  /** DNF and DNS are entered attempts; zero is not. */
  predicate IsEntered(value: int) {
    value != 0
  }

  predicate AllEntered(values: seq<int>) {
    forall i :: 0 <= i < |values| ==> IsEntered(values[i])
  }

  predicate NoneEntered(values: seq<int>) {
    forall i :: 0 <= i < |values| ==> !IsEntered(values[i])
  }

  function Take(values: seq<int>, n: int): seq<int>
    requires n >= 0
  {
    if |values| <= n then values else values[..n]
  }

  predicate AllExpectedEntered(attempts: seq<int>, expected: int) {
    expected > 0 && |attempts| >= expected && AllEntered(Take(attempts, expected))
  }

  /** The expected positions, missing ones as zero. */
  function Padded(attempts: seq<int>, expected: int): (values: seq<int>)
    requires expected > 0
    ensures |values| == expected
  {
    Take(attempts, expected) + seq(expected - |Take(attempts, expected)|, _ => 0)
  }

  predicate HasCutoff(rule: Rule) {
    && rule.cutoffAttempts.Some? && rule.cutoffValue.Some?
    && 0 < rule.cutoffAttempts.value < rule.expected
    && rule.cutoffValue.value > 0
  }

  predicate MetCutoff(event: string, values: seq<int>, cutoff: int) {
    exists i :: 0 <= i < |values| && IsBetter(event, Some(values[i]), Some(cutoff))
  }

  predicate IsFinalized(event: string, attempts: seq<int>, rule: Rule) {
    if rule.expected <= 0 then false
    else
      var values := Padded(attempts, rule.expected);
      if AllExpectedEntered(values, rule.expected) then true
      else if !HasCutoff(rule) then false
      else
        var first := values[..rule.cutoffAttempts.value];
        AllEntered(first) && !MetCutoff(event, first, rule.cutoffValue.value) && NoneEntered(values[rule.cutoffAttempts.value..])
  }

  /** The cutoff attempts are all in, none met the cutoff, and nothing later has been entered. */
  predicate CutoffFailed(event: string, values: seq<int>, rule: Rule)
    requires |values| == rule.expected
  {
    && HasCutoff(rule)
    && AllEntered(values[..rule.cutoffAttempts.value])
    && !MetCutoff(event, values[..rule.cutoffAttempts.value], rule.cutoffValue.value)
    && NoneEntered(values[rule.cutoffAttempts.value..])
  }

  /** Attempt `k` is still empty and no failed cutoff bars it. */
  predicate MayStillEnter(event: string, attempts: seq<int>, rule: Rule, k: nat)
    requires rule.expected > 0
  {
    && k < rule.expected
    && !IsEntered(Padded(attempts, rule.expected)[k])
    && !(CutoffFailed(event, Padded(attempts, rule.expected), rule) && k >= rule.cutoffAttempts.value)
  }

  /** A result is final exactly when no further attempt can legitimately be entered. */
  lemma FinalizedMeansNothingMoreToEnter(event: string, attempts: seq<int>, rule: Rule)
    requires rule.expected > 0
    ensures IsFinalized(event, attempts, rule) <==> forall k: nat :: !MayStillEnter(event, attempts, rule, k)
  {
    var values := Padded(attempts, rule.expected);
    assert Take(values, rule.expected) == values;
    if CutoffFailed(event, values, rule) {
      forall k: nat
        ensures !MayStillEnter(event, attempts, rule, k)
      {
        if k < rule.cutoffAttempts.value {
          assert values[..rule.cutoffAttempts.value][k] == values[k];
        }
      }
    } else if !AllEntered(values) {
      var k :| 0 <= k < |values| && !IsEntered(values[k]);
      assert MayStillEnter(event, attempts, rule, k);
    }
  }

  // -------- Entering a result --------

  function Empties(values: seq<int>): (count: nat)
    ensures count <= |values|
  {
    if values == [] then 0
    else Empties(values[..|values| - 1]) + if IsEntered(values[|values| - 1]) then 0 else 1
  }

  /** Filling one empty position leaves one fewer. */
  lemma {:induction false} FillOne(values: seq<int>, k: nat, v: int)
    requires k < |values| && !IsEntered(values[k]) && IsEntered(v)
    ensures Empties(values) == Empties(values[k := v]) + 1
    decreases |values|
  {
    var init := values[..|values| - 1];
    if k < |init| {
      FillOne(init, k, v);
      assert values[k := v][..|values| - 1] == init[k := v];
    } else {
      assert values[k := v][..|values| - 1] == init;
    }
  }

  /** `v` is entered at an open position. */
  predicate Enters(event: string, values: seq<int>, rule: Rule, k: nat, v: int) {
    rule.expected > 0 && |values| == rule.expected && MayStillEnter(event, values, rule, k) && IsEntered(v)
  }

  /** Attempts entered one after another, each at a position open at that time. */
  ghost predicate EntryRun(event: string, rule: Rule, values: seq<int>, entries: seq<(nat, int)>, last: seq<int>)
    decreases |entries|
  {
    if entries == [] then values == last
    else
      && Enters(event, values, rule, entries[0].0, entries[0].1)
      && entries[0].0 < |values|
      && EntryRun(event, rule, values[entries[0].0 := entries[0].1], entries[1..], last)
  }

  lemma FullLengthIsPadded(values: seq<int>, expected: int)
    requires |values| == expected && expected > 0
    ensures Padded(values, expected) == values
  {
  }

  lemma {:induction false} EntriesFill(event: string, rule: Rule, values: seq<int>, entries: seq<(nat, int)>, last: seq<int>)
    requires rule.expected > 0 && |values| == rule.expected && EntryRun(event, rule, values, entries, last)
    ensures |last| == rule.expected && Empties(values) == Empties(last) + |entries|
    decreases |entries|
  {
    if entries != [] {
      FullLengthIsPadded(values, rule.expected);
      FillOne(values, entries[0].0, entries[0].1);
      EntriesFill(event, rule, values[entries[0].0 := entries[0].1], entries[1..], last);
    }
  }

  /** However a result is entered, it takes at most the expected number of attempts, and entering stops exactly when
      the result is final. */
  lemma EntriesEndFinal(event: string, rule: Rule, values: seq<int>, entries: seq<(nat, int)>, last: seq<int>)
    requires rule.expected > 0 && |values| == rule.expected && EntryRun(event, rule, values, entries, last)
    ensures |entries| <= Empties(values) <= rule.expected
    ensures IsFinalized(event, last, rule) <==> forall k: nat, v: int :: !Enters(event, last, rule, k, v)
  {
    EntriesFill(event, rule, values, entries, last);
    FinalizedMeansNothingMoreToEnter(event, last, rule);
    if !IsFinalized(event, last, rule) {
      var k: nat :| MayStillEnter(event, last, rule, k);
      assert Enters(event, last, rule, k, 1);
    }
  }

  /** Every result can be entered to its end. */
  lemma {:induction false} EveryResultCanFinish(event: string, rule: Rule, values: seq<int>) returns (entries: seq<(nat, int)>, last: seq<int>)
    requires rule.expected > 0 && |values| == rule.expected
    ensures EntryRun(event, rule, values, entries, last) && IsFinalized(event, last, rule)
    decreases Empties(values)
  {
    entries, last := [], values;
    FinalizedMeansNothingMoreToEnter(event, values, rule);
    if !IsFinalized(event, values, rule) {
      var k: nat :| MayStillEnter(event, values, rule, k);
      FullLengthIsPadded(values, rule.expected);
      FillOne(values, k, 1);
      entries, last := EveryResultCanFinish(event, rule, values[k := 1]);
      assert ([(k, 1)] + entries)[1..] == entries;
      entries := [(k, 1)] + entries;
    }
  }

  /** Correcting an entered attempt of a final result keeps it final, unless the result ended at the cutoff and the
      corrected attempt meets it. */
  lemma CorrectionReopensExactly(event: string, rule: Rule, values: seq<int>, k: nat, v: int)
    requires rule.expected > 0 && |values| == rule.expected && IsFinalized(event, values, rule)
    requires k < |values| && IsEntered(values[k]) && IsEntered(v)
    ensures IsFinalized(event, values[k := v], rule) <==>
            AllEntered(values) || !IsBetter(event, Some(v), rule.cutoffValue)
  {
    FullLengthIsPadded(values, rule.expected);
    FullLengthIsPadded(values[k := v], rule.expected);
    if AllEntered(values) {
      assert AllEntered(values[k := v]);
    } else {
      CutoffCorrected(event, rule, values, k, v);
    }
  }

  lemma CutoffCorrected(event: string, rule: Rule, values: seq<int>, k: nat, v: int)
    requires |values| == rule.expected && CutoffFailed(event, values, rule) && !AllEntered(values)
    requires k < |values| && IsEntered(values[k]) && IsEntered(v)
    ensures !AllEntered(values[k := v])
    ensures CutoffFailed(event, values[k := v], rule) <==> !IsBetter(event, Some(v), rule.cutoffValue)
  {
    var n, after := rule.cutoffAttempts.value, values[k := v];
    forall i | n <= i < |values|
      ensures !IsEntered(values[i])
    {
      assert values[n..][i - n] == values[i];
    }
    assert k < n;
    assert after[n..] == values[n..] && after[..n] == values[..n][k := v];
    var e :| 0 <= e < |values| && !IsEntered(values[e]);
    assert after[e] == values[e];
    assert after[..n][k] == v;
  }
}
