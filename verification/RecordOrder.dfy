/** Minima over sets of rows. Everything a timeline computes is one of these, so the
    specifications never mention the order in which rows were visited. */
module RecordOrder {
  import opened RecordDomain

  datatype Outcome = NoRecord | Broken | Tied

  function Compare(value: int, incumbent: Option<int>): Outcome {
    if incumbent.None? || value < incumbent.value then Broken
    else if value == incumbent.value then Tied
    else NoRecord
  }

  /** `m` is the least of the baseline and the values of `rows`; None stands for no value at all. */
  ghost predicate IsBest(baseline: Option<int>, rows: set<Revision>, m: Option<int>) {
    && (m.None? <==> baseline.None? && rows == {})
    && (m.Some? && baseline.Some? ==> m.value <= baseline.value)
    && (m.Some? ==> forall r :: r in rows ==> m.value <= r.value)
    && (m.Some? ==> m == baseline || exists r :: r in rows && r.value == m.value)
  }

  ghost function Best(baseline: Option<int>, rows: set<Revision>): (m: Option<int>)
    ensures IsBest(baseline, rows, m)
  {
    if rows == {} then baseline
    else
      var r :| r in rows;
      var rest := Best(baseline, rows - {r});
      assert forall x :: x in rows <==> x == r || x in rows - {r};
      if Compare(r.value, rest) == Broken then Some(r.value) else rest
  }

  lemma BestIsUnique(baseline: Option<int>, rows: set<Revision>, m: Option<int>)
    requires IsBest(baseline, rows, m)
    ensures m == Best(baseline, rows)
  {
  }

  /** Folding one more row in is one comparison against the incumbent. */
  lemma BestWith(baseline: Option<int>, rows: set<Revision>, r: Revision)
    ensures Best(baseline, rows + {r}) ==
            if Compare(r.value, Best(baseline, rows)) == Broken then Some(r.value) else Best(baseline, rows)
  {
    var m := if Compare(r.value, Best(baseline, rows)) == Broken then Some(r.value) else Best(baseline, rows);
    assert r in rows + {r};
    BestIsUnique(baseline, rows + {r}, m);
  }

  /** A larger timeline over a baseline at least as good never has a worse best value. */
  ghost predicate AtMost(a: Option<int>, b: Option<int>) {
    b.Some? ==> a.Some? && a.value <= b.value
  }

  lemma BestIsMonotone(a: Option<int>, rows: set<Revision>, b: Option<int>, more: set<Revision>)
    requires AtMost(a, b) && more <= rows
    ensures AtMost(Best(a, rows), Best(b, more))
  {
  }

  // -------- Least elements by an order --------

  /** Better value first, earlier key among equals. */
  predicate Outranks(a: Revision, b: Revision) {
    a.value < b.value || (a.value == b.value && Before(a, b))
  }

  ghost predicate IsChampion(group: set<Revision>, w: Revision) {
    w in group && forall r :: r in group ==> r == w || Outranks(w, r)
  }

  /** The best row of a group, the earliest among equals. */
  ghost function Champion(group: set<Revision>): (w: Revision)
    requires group != {} && Distinct(group)
    ensures IsChampion(group, w)
  {
    var r :| r in group;
    assert forall x :: x in group <==> x == r || x in group - {r};
    if group == {r} then r
    else
      var w := Champion(group - {r});
      if Outranks(w, r) then w else r
  }

  ghost predicate IsEarliest(group: set<Revision>, w: Revision) {
    w in group && forall r :: r in group ==> r == w || Before(w, r)
  }

  ghost function Earliest(group: set<Revision>): (w: Revision)
    requires group != {} && Distinct(group)
    ensures IsEarliest(group, w)
  {
    var r :| r in group;
    assert forall x :: x in group <==> x == r || x in group - {r};
    if group == {r} then r
    else
      var w := Earliest(group - {r});
      if Before(w, r) then w else r
  }

  lemma ChampionIsUnique(group: set<Revision>, v: Revision, w: Revision)
    requires IsChampion(group, v) && IsChampion(group, w)
    ensures v == w
  {
  }

  lemma EarliestIsUnique(group: set<Revision>, v: Revision, w: Revision)
    requires IsEarliest(group, v) && IsEarliest(group, w)
    ensures v == w
  {
  }

  function Members(rows: seq<Revision>): (members: set<Revision>)
    ensures forall r :: r in members <==> r in rows
  {
    set r | r in rows
  }

  predicate NoRepeats(rows: seq<Revision>) {
    forall i, j :: 0 <= i < j < |rows| ==> rows[i] != rows[j]
  }

  /** Walking a list of distinct rows adds one new row to those already seen. */
  lemma MembersStep(rows: seq<Revision>, i: nat)
    requires NoRepeats(rows) && i < |rows|
    ensures Members(rows[..i + 1]) == Members(rows[..i]) + {rows[i]}
    ensures rows[i] !in Members(rows[..i])
    ensures Members(rows[..i + 1]) <= Members(rows)
    ensures Distinct(Members(rows)) ==> Distinct(Members(rows[..i + 1]))
  {
    assert rows[..i + 1] == rows[..i] + [rows[i]];
  }

  lemma MembersSnoc(rows: seq<Revision>, r: Revision)
    ensures Members(rows + [r]) == Members(rows) + {r}
  {
  }

  /** The rows of a sorted list before position i are exactly those with an earlier key. */
  lemma PrefixIsEarlier(rows: seq<Revision>, i: nat)
    requires SortedByKey(rows) && i < |rows|
    ensures Members(rows[..i]) == set r | r in rows && Before(r, rows[i])
  {
    forall r | r in rows && Before(r, rows[i])
      ensures r in rows[..i]
    {
      var j :| 0 <= j < |rows| && rows[j] == r;
      assert j < i;
      assert rows[..i][j] == r;
    }
  }

  lemma SomeMember(rows: seq<Revision>)
    ensures rows == [] || exists r :: r in rows
  {
    if rows != [] {
      assert rows[0] in rows;
    }
  }

  /** Two sorted lists of the same rows are the same list. */
  lemma {:induction false} SortedIsUnique(a: seq<Revision>, b: seq<Revision>)
    requires SortedByKey(a) && SortedByKey(b)
    requires forall r :: r in a <==> r in b
    ensures a == b
  {
    if a == [] || b == [] {
      SomeMember(a);
      SomeMember(b);
    } else {
      assert a[0] in b && b[0] in a;
      assert a[0] == b[0];
      forall r ensures r in a[1..] <==> r in b[1..] {
        if r in a[1..] {
          var i :| 1 <= i < |a| && a[i] == r;
          assert Before(a[0], r) && r in a;
          var j :| 0 <= j < |b| && b[j] == r;
        }
        if r in b[1..] {
          var j :| 1 <= j < |b| && b[j] == r;
          assert Before(b[0], r) && r in b;
          var i :| 0 <= i < |a| && a[i] == r;
        }
      }
      SortedIsUnique(a[1..], b[1..]);
      assert a == [a[0]] + a[1..] && b == [b[0]] + b[1..];
    }
  }
}
