/** What one replay of a timeline over its baseline means, and what its level rows promise:
    who is recognised, who holds, and who is named as the breaker. */
module Replay {
  import opened RecordDomain
  import opened RecordOrder
  import opened Adjudication

  ghost function Earlier(rows: set<Revision>, r: Revision): set<Revision> {
    set x | x in rows && Before(x, r)
  }

  /** The value a row has to meet: the best of the baseline and everything before it. */
  ghost function Incumbent(baseline: Option<int>, rows: set<Revision>, r: Revision): Option<int> {
    Best(baseline, Earlier(rows, r))
  }

  ghost function ReplayOutcome(baseline: Option<int>, rows: set<Revision>, r: Revision): Outcome {
    Compare(r.value, Incumbent(baseline, rows, r))
  }

  ghost predicate Qualifies(baseline: Option<int>, rows: set<Revision>, r: Revision) {
    r in rows && ReplayOutcome(baseline, rows, r) != NoRecord
  }

  ghost function ReplayQualifying(baseline: Option<int>, rows: set<Revision>): (q: set<Revision>)
    ensures Distinct(rows) ==> Distinct(q)
  {
    set r | r in rows && Qualifies(baseline, rows, r)
  }

  /** The level row as the mathematical replay leaves it, before adjudication. */
  ghost function Unjudged(baseline: Option<int>, rows: set<Revision>, scope: string, r: Revision): LevelRow {
    LevelRow(scope, ReplayOutcome(baseline, rows, r), Incumbent(baseline, rows, r),
             NotApplicable, false, false, NotCeased, None, None)
  }

  /** The level row a full replay of `rows` leaves on `r`. */
  ghost function Replayed(baseline: Option<int>, rows: set<Revision>, scope: string, r: Revision): LevelRow
    requires Distinct(rows)
  {
    Judge(Unjudged(baseline, rows, scope, r), ReplayQualifying(baseline, rows), Best(baseline, rows), scope, r)
  }

  /** Adjudication never touches the mathematical columns. */
  lemma ReplayedColumns(baseline: Option<int>, rows: set<Revision>, scope: string, r: Revision)
    requires Distinct(rows)
    ensures var row := Replayed(baseline, rows, scope, r);
            && row.scope == scope
            && row.outcome == ReplayOutcome(baseline, rows, r)
            && row.incumbent == Incumbent(baseline, rows, r)
  {
  }

  ghost predicate SameGroup(span: Span, scope: string, a: Revision, b: Revision) {
    GroupKeyOf(span, a, scope).Some? && GroupKeyOf(span, a, scope) == GroupKeyOf(span, b, scope)
  }

  /** Some qualifying row of the same round (or day) is strictly better. */
  ghost predicate BeatenWithin(baseline: Option<int>, rows: set<Revision>, span: Span, scope: string, r: Revision) {
    exists x :: Qualifies(baseline, rows, x) && SameGroup(span, scope, x, r) && x.value < r.value
  }

  /** A row is recognised exactly when it qualifies and nothing of its round or day beats it;
      round supersession takes precedence over day supersession. */
  lemma RecognitionExactly(baseline: Option<int>, rows: set<Revision>, scope: string, r: Revision)
    requires Distinct(rows) && r in rows
    ensures var row := Replayed(baseline, rows, scope, r);
            var byRound := BeatenWithin(baseline, rows, SameRound, scope, r);
            var byDay := BeatenWithin(baseline, rows, SameDay, scope, r);
            && (row.recognition == NotApplicable <==> !Qualifies(baseline, rows, r))
            && (row.recognition == Recognized <==> Qualifies(baseline, rows, r) && !byRound && !byDay)
            && (row.recognition == SupersededSameRound <==> Qualifies(baseline, rows, r) && byRound)
            && (row.recognition == SupersededSameDay <==> Qualifies(baseline, rows, r) && !byRound && byDay)
            && (row.supersededBy.None? <==> row.recognition in {NotApplicable, Recognized})
  {
    var q := ReplayQualifying(baseline, rows);
    forall span: Span
      ensures Beaten(Peers(q, span, scope, r), r) <==> BeatenWithin(baseline, rows, span, scope, r)
    {
      if Beaten(Peers(q, span, scope, r), r) {
        var x :| x in Peers(q, span, scope, r) && x.value < r.value;
        assert Qualifies(baseline, rows, x) && SameGroup(span, scope, x, r);
      }
      if BeatenWithin(baseline, rows, span, scope, r) {
        var x :| Qualifies(baseline, rows, x) && SameGroup(span, scope, x, r) && x.value < r.value;
        assert x in Peers(q, span, scope, r);
      }
    }
  }

  /** The row named by `superseded_by` after a replay. */
  ghost function SupersededTo(baseline: Option<int>, rows: set<Revision>, scope: string, r: Revision): (w: Option<Revision>)
    requires Distinct(rows)
    ensures IdOf(w) == Replayed(baseline, rows, scope, r).supersededBy
    ensures w.Some? ==> Qualifies(baseline, rows, w.value) && w.value.value < r.value
    ensures w.None? && Qualifies(baseline, rows, r) ==> Replayed(baseline, rows, scope, r).recognition == Recognized
  {
    Superseder(ReplayQualifying(baseline, rows), scope, r)
  }

  ghost function Below(rows: set<Revision>, value: int): set<Revision> {
    set x | x in rows && x.value < value
  }

  /** Following `superseded_by` strictly lowers the value until it ends at a recognised row. */
  ghost function SupersessionEnd(baseline: Option<int>, rows: set<Revision>, scope: string, r: Revision): (end: Revision)
    requires Distinct(rows) && Qualifies(baseline, rows, r)
    ensures Qualifies(baseline, rows, end)
    ensures Replayed(baseline, rows, scope, end).recognition == Recognized
    ensures end == r || end.value < r.value
    decreases Below(rows, r.value)
  {
    var next := SupersededTo(baseline, rows, scope, r);
    if next.None? then r
    else
      assert next.value in Below(rows, r.value) && next.value !in Below(rows, next.value.value);
      SupersessionEnd(baseline, rows, scope, next.value)
  }

  /** The row a superseded row points at is the best of its group: qualifying, strictly better,
      and the earliest among equals. */
  lemma SupersederIsGroupBest(baseline: Option<int>, rows: set<Revision>, scope: string, r: Revision)
    requires Distinct(rows) && r in rows
    requires Replayed(baseline, rows, scope, r).supersededBy.Some?
    ensures var row := Replayed(baseline, rows, scope, r);
            var span := if row.recognition == SupersededSameRound then SameRound else SameDay;
            exists w :: && Id(w) == row.supersededBy.value && Qualifies(baseline, rows, w) && w.value < r.value
                        && SameGroup(span, scope, w, r)
                        && forall x :: Qualifies(baseline, rows, x) && SameGroup(span, scope, x, r) ==> x == w || Outranks(w, x)
  {
    var q := ReplayQualifying(baseline, rows);
    var row := Replayed(baseline, rows, scope, r);
    var span := if row.recognition == SupersededSameRound then SameRound else SameDay;
    var peers := Peers(q, span, scope, r);
    var w := Champion(peers);
    assert row.supersededBy == Some(Id(w));
    forall x | Qualifies(baseline, rows, x) && SameGroup(span, scope, x, r)
      ensures x == w || Outranks(w, x)
    {
      assert x in peers;
    }
    assert Qualifies(baseline, rows, w) && SameGroup(span, scope, w, r);
  }

  /** A row at the final value meets every earlier incumbent, and nothing beats it. */
  lemma FinalValueIsRecognised(baseline: Option<int>, rows: set<Revision>, scope: string, r: Revision)
    requires Distinct(rows) && r in rows && Some(r.value) == Best(baseline, rows)
    ensures Qualifies(baseline, rows, r)
    ensures Standing(ReplayQualifying(baseline, rows), scope, r) == Recognized
  {
    BestIsMonotone(baseline, rows, baseline, Earlier(rows, r));
  }

  /** A timeline row currently holds the record exactly when its value is the live value. */
  lemma HoldsExactlyAtLiveValue(baseline: Option<int>, rows: set<Revision>, scope: string, r: Revision)
    requires Distinct(rows) && r in rows
    ensures Replayed(baseline, rows, scope, r).holds <==> Some(r.value) == Best(baseline, rows)
  {
    if Some(r.value) == Best(baseline, rows) {
      FinalValueIsRecognised(baseline, rows, scope, r);
    }
  }

  /** Somebody holds the record exactly when some row meets the baseline, or there is none. */
  lemma HoldersExistExactly(baseline: Option<int>, rows: set<Revision>, scope: string)
    requires Distinct(rows)
    ensures (exists r :: r in rows && Replayed(baseline, rows, scope, r).holds) <==>
            (exists r :: r in rows && (baseline.None? || r.value <= baseline.value))
  {
    if r :| r in rows && Replayed(baseline, rows, scope, r).holds {
      HoldsExactlyAtLiveValue(baseline, rows, scope, r);
      assert IsBest(baseline, rows, Best(baseline, rows));
    }
    if r :| r in rows && (baseline.None? || r.value <= baseline.value) {
      var x := BestRow(baseline, rows, r);
      HoldsExactlyAtLiveValue(baseline, rows, scope, x);
    }
  }

  /** When some row meets the baseline, some row has the best value. */
  lemma BestRow(baseline: Option<int>, rows: set<Revision>, r: Revision) returns (x: Revision)
    requires r in rows && (baseline.None? || r.value <= baseline.value)
    ensures x in rows && Some(x.value) == Best(baseline, rows)
  {
    var m := Best(baseline, rows);
    assert IsBest(baseline, rows, m);
    if m == baseline {
      x := r;
    } else {
      x :| x in rows && x.value == m.value;
    }
  }

  /** Every recognised row that no longer holds names a breaker, so the branch without one is
      never taken after a replay; the breaker is the earliest later, strictly better, recognised row. */
  lemma NonHolderNamesBreaker(baseline: Option<int>, rows: set<Revision>, scope: string, r: Revision)
    requires Distinct(rows) && r in rows
    requires Replayed(baseline, rows, scope, r).recognition == Recognized
    requires !Replayed(baseline, rows, scope, r).holds
    ensures exists b :: && b in rows && Before(r, b) && b.value < r.value
                        && Replayed(baseline, rows, scope, b).recognition == Recognized
                        && Replayed(baseline, rows, scope, r).ceasedBy == Some(Id(b))
                        && Replayed(baseline, rows, scope, r).ceased == CeasedReasonFor(r, b)
                        && forall x :: && x in rows && Before(r, x) && x.value < r.value
                                       && Replayed(baseline, rows, scope, x).recognition == Recognized
                                       ==> x == b || Before(b, x)
  {
    var q := ReplayQualifying(baseline, rows);
    var later := LaterBreakers(q, scope, r);
    HoldsExactlyAtLiveValue(baseline, rows, scope, r);
    FinalRowIsLater(baseline, rows, scope, r);
    var b := Earliest(later);
    assert Breaker(q, Best(baseline, rows), scope, r) == Some(b);
    forall x | x in rows && Before(r, x) && x.value < r.value && Replayed(baseline, rows, scope, x).recognition == Recognized
      ensures x == b || Before(b, x)
    {
      assert x in q;
      assert x in later;
    }
  }

  lemma BestBelowBaselineIsARow(baseline: Option<int>, rows: set<Revision>, r: Revision) returns (x: Revision)
    requires Distinct(rows) && Qualifies(baseline, rows, r) && Some(r.value) != Best(baseline, rows)
    ensures x in rows && Some(x.value) == Best(baseline, rows) && x.value < r.value
  {
    x := BestBelowIsARow(baseline, rows, Earlier(rows, r), r);
  }

  /** A best value below some row that is itself no worse than the baseline is a row's value. */
  lemma BestBelowIsARow(baseline: Option<int>, rows: set<Revision>, earlier: set<Revision>, r: Revision) returns (x: Revision)
    requires r in rows && Some(r.value) != Best(baseline, rows) && earlier <= rows
    requires Compare(r.value, Best(baseline, earlier)) != NoRecord
    ensures x in rows && Some(x.value) == Best(baseline, rows) && x.value < r.value
  {
    var m := Best(baseline, rows);
    assert IsBest(baseline, rows, m) && IsBest(baseline, earlier, Best(baseline, earlier));
    x :| x in rows && x.value == m.value;
  }

  lemma QualifyingBeatsEarlier(baseline: Option<int>, rows: set<Revision>, r: Revision, x: Revision)
    requires Distinct(rows) && Qualifies(baseline, rows, r) && x in rows && x.value < r.value
    ensures Before(r, x)
  {
    assert IsBest(baseline, Earlier(rows, r), Incumbent(baseline, rows, r));
    assert Before(x, r) <==> x in Earlier(rows, r);
  }

  /** A qualifying row above the final value was passed by some later row that reached it. */
  lemma FinalRowIsLater(baseline: Option<int>, rows: set<Revision>, scope: string, r: Revision)
    requires Distinct(rows) && Qualifies(baseline, rows, r) && Some(r.value) != Best(baseline, rows)
    ensures LaterBreakers(ReplayQualifying(baseline, rows), scope, r) != {}
  {
    var x := BestBelowBaselineIsARow(baseline, rows, r);
    QualifyingBeatsEarlier(baseline, rows, r, x);
    FinalValueIsRecognised(baseline, rows, scope, x);
    assert x in LaterBreakers(ReplayQualifying(baseline, rows), scope, r);
  }
}
