/** Recognition of the qualifying rows of one timeline: same-round supersession, then
    same-day supersession, then holders and breakers. `Judge` says what one level row
    must show in terms of the set of qualifying rows; `Adjudicate` is the pass-by-pass
    algorithm over dictionaries of groups, proved to compute exactly that. */
module Adjudication {
  import opened RecordDomain
  import opened RecordOrder

  datatype Recognition = NotApplicable | Recognized | SupersededSameRound | SupersededSameDay
  datatype CeasedReason = NotCeased | SelfLaterRound | OtherLaterRound | SelfOtherCompetition | OtherOtherCompetition

  datatype LevelRow = LevelRow(
    scope: string, outcome: Outcome, incumbent: Option<int>,
    recognition: Recognition, sharedTie: bool, holds: bool,
    ceased: CeasedReason, ceasedBy: Option<RowId>, supersededBy: Option<RowId>)

  datatype RoundRef = ById(id: string) | ByNumber(number: Option<int>)
  /** Rows compete for recognition within a round and within a competition-local day. */
  datatype Span = SameRound | SameDay
  datatype GroupKey =
    | RoundKey(competition: string, event: string, round: RoundRef, kind: Kind, scope: string)
    | DayKey(date: int, event: string, kind: Kind, scope: string)

  function GroupKeyOf(span: Span, r: Revision, scope: string): Option<GroupKey> {
    match span
    case SameRound =>
      var competition := if r.competitionId != "" then r.competitionId else r.competitionName;
      var round := if r.roundId != "" then ById(r.roundId) else ByNumber(r.roundNumber);
      Some(RoundKey(competition, r.event, round, r.kind, scope))
    case SameDay =>
      if r.localDate.None? then None else Some(DayKey(r.localDate.value, r.event, r.kind, scope))
  }

  function MarkFor(span: Span): Recognition {
    if span == SameRound then SupersededSameRound else SupersededSameDay
  }

  predicate SameCompetition(a: Revision, b: Revision) {
    if a.competitionId != "" && b.competitionId != "" then a.competitionId == b.competitionId
    else a.competitionName == b.competitionName
  }

  function CeasedReasonFor(r: Revision, breaker: Revision): CeasedReason {
    var samePerson := r.person != "" && r.person == breaker.person;
    if SameCompetition(r, breaker) && samePerson then SelfLaterRound
    else if SameCompetition(r, breaker) then OtherLaterRound
    else if samePerson then SelfOtherCompetition
    else OtherOtherCompetition
  }

  // -------- What a level row must show --------

  ghost function Peers(q: set<Revision>, span: Span, scope: string, r: Revision): set<Revision> {
    set x | x in q && GroupKeyOf(span, x, scope).Some? && GroupKeyOf(span, x, scope) == GroupKeyOf(span, r, scope)
  }

  ghost predicate Beaten(group: set<Revision>, r: Revision) {
    exists x :: x in group && x.value < r.value
  }

  ghost function Standing(q: set<Revision>, scope: string, r: Revision): Recognition {
    if r !in q then NotApplicable
    else if Beaten(Peers(q, SameRound, scope, r), r) then SupersededSameRound
    else if Beaten(Peers(q, SameDay, scope, r), r) then SupersededSameDay
    else Recognized
  }

  /** The row named by `superseded_by`. */
  ghost function Superseder(q: set<Revision>, scope: string, r: Revision): (w: Option<Revision>)
    requires Distinct(q)
    ensures w.Some? ==> w.value in q && w.value.value < r.value
  {
    match Standing(q, scope, r)
    case SupersededSameRound => Some(Champion(Peers(q, SameRound, scope, r)))
    case SupersededSameDay => Some(Champion(Peers(q, SameDay, scope, r)))
    case _ => None
  }

  ghost function LaterBreakers(q: set<Revision>, scope: string, r: Revision): set<Revision> {
    set x | x in q && Before(r, x) && x.value < r.value && Standing(q, scope, x) == Recognized
  }

  ghost predicate Holds(q: set<Revision>, final: Option<int>, scope: string, r: Revision) {
    Standing(q, scope, r) == Recognized && final == Some(r.value)
  }

  /** The row named by `ceased_holding_by`: the earliest later recognised better row. */
  ghost function Breaker(q: set<Revision>, final: Option<int>, scope: string, r: Revision): (b: Option<Revision>)
    requires Distinct(q)
  {
    if Standing(q, scope, r) == Recognized && !Holds(q, final, scope, r) && LaterBreakers(q, scope, r) != {} then
      Some(Earliest(LaterBreakers(q, scope, r)))
    else None
  }

  ghost predicate SharesTie(q: set<Revision>, r: Revision) {
    r in q && exists x :: x in q && x != r && x.value == r.value
  }

  function IdOf(r: Option<Revision>): Option<RowId> {
    if r.Some? then Some(Id(r.value)) else None
  }

  ghost function Judge(child: LevelRow, q: set<Revision>, final: Option<int>, scope: string, r: Revision): LevelRow
    requires Distinct(q)
  {
    var breaker := Breaker(q, final, scope, r);
    LevelRow(
      child.scope, child.outcome, child.incumbent,
      Standing(q, scope, r), SharesTie(q, r), Holds(q, final, scope, r),
      if breaker.Some? then CeasedReasonFor(r, breaker.value) else NotCeased,
      IdOf(breaker),
      IdOf(Superseder(q, scope, r)))
  }

  // -------- The algorithm --------

  function Cleared(child: LevelRow, qualifies: bool): LevelRow {
    child.(recognition := if qualifies then Recognized else NotApplicable,
           sharedTie := false, holds := false, ceased := NotCeased, ceasedBy := None, supersededBy := None)
  }

  ghost predicate IsGrouping(rows: seq<Revision>, span: Span, scope: string, groups: map<GroupKey, seq<Revision>>) {
    && (forall k :: k in groups ==> groups[k] != [] && NoRepeats(groups[k]))
    && (forall k, r :: k in groups ==> (r in groups[k] <==> r in rows && GroupKeyOf(span, r, scope) == Some(k)))
    && (forall r :: r in rows && GroupKeyOf(span, r, scope).Some? ==> GroupKeyOf(span, r, scope).value in groups)
  }

  /** Collect rows into a dictionary of groups; rows without a key join none. */
  method GroupRows(rows: seq<Revision>, span: Span, scope: string) returns (groups: map<GroupKey, seq<Revision>>)
    requires NoRepeats(rows)
    ensures IsGrouping(rows, span, scope, groups)
  {
    groups := map[];
    for i := 0 to |rows|
      invariant IsGrouping(rows[..i], span, scope, groups)
    {
      var row := rows[i];
      MembersStep(rows, i);
      assert rows[..i + 1] == rows[..i] + [row];
      var key := GroupKeyOf(span, row, scope);
      if key.Some? {
        groups := groups[key.value := (if key.value in groups then groups[key.value] else []) + [row]];
      }
    }
    assert rows[..|rows|] == rows;
  }

  /** The winner of a group: least value first, then the least classification key. */
  method BestOfGroup(group: seq<Revision>) returns (winner: Revision)
    requires group != []
    requires Distinct(Members(group))
    ensures IsChampion(Members(group), winner)
  {
    var best := group[0].value;
    for i := 0 to |group|
      invariant forall j :: 0 <= j < i ==> best <= group[j].value
      invariant exists j :: 0 <= j < |group| && group[j].value == best
    {
      if group[i].value < best {
        best := group[i].value;
      }
    }
    var found: Option<Revision> := None;
    for i := 0 to |group|
      invariant found.Some? ==> found.value in group && found.value.value == best
      invariant forall j :: 0 <= j < i && group[j].value == best ==>
                  found.Some? && (group[j] == found.value || Before(found.value, group[j]))
    {
      assert group[i] in Members(group) && (found.Some? ==> found.value in Members(group));
      if group[i].value == best && (found.None? || Before(group[i], found.value)) {
        found := Some(group[i]);
      }
    }
    winner := found.value;
  }

  /** What supersession by a group's winner does to one of its members. */
  function Marked(child: LevelRow, r: Revision, winner: Revision, mark: Recognition): LevelRow {
    if r.value > winner.value && (mark == SupersededSameRound || child.recognition != SupersededSameRound)
    then child.(recognition := mark, supersededBy := Some(Id(winner)))
    else child
  }

  ghost predicate AllIn(rows: set<Revision>, levels: map<RowId, LevelRow>) {
    forall r :: r in rows ==> Id(r) in levels
  }

  /** The level rows of `rows` have become what `f` makes of them; all others are as before. */
  ghost predicate Mapped(before: map<RowId, LevelRow>, levels: map<RowId, LevelRow>, rows: set<Revision>,
                         f: (Revision, LevelRow) -> LevelRow) {
    && levels.Keys == before.Keys
    && AllIn(rows, before)
    && (forall r :: r in rows ==> levels[Id(r)] == f(r, before[Id(r)]))
    && (forall k :: k in before && (forall r :: r in rows ==> Id(r) != k) ==> levels[k] == before[k])
  }

  lemma MappedOneMore(before: map<RowId, LevelRow>, levels: map<RowId, LevelRow>, rows: set<Revision>,
                      f: (Revision, LevelRow) -> LevelRow, row: Revision)
    requires Distinct(rows + {row}) && row !in rows && Id(row) in before
    requires Mapped(before, levels, rows, f)
    ensures Mapped(before, levels[Id(row) := f(row, levels[Id(row)])], rows + {row}, f)
  {
    assert row in rows + {row};
    forall r | r in rows
      ensures Id(r) != Id(row)
    {
      assert r in rows + {row};
    }
    assert levels[Id(row)] == before[Id(row)];
  }

  ghost function Marker(winner: Revision, mark: Recognition): (Revision, LevelRow) -> LevelRow {
    (r, child) => Marked(child, r, winner, mark)
  }

  /** Every group member strictly worse than the group's best is marked superseded, unless a
      same-round supersession already marked it. */
  method SupersedeGroup(before: map<RowId, LevelRow>, group: seq<Revision>, mark: Recognition)
    returns (levels: map<RowId, LevelRow>, ghost winner: Revision)
    requires group != [] && NoRepeats(group) && Distinct(Members(group)) && AllIn(Members(group), before)
    ensures IsChampion(Members(group), winner)
    ensures Mapped(before, levels, Members(group), Marker(winner, mark))
  {
    levels := before;
    var best := BestOfGroup(group);
    winner := best;
    ghost var f := Marker(winner, mark);
    for i := 0 to |group|
      invariant Mapped(before, levels, Members(group[..i]), f)
    {
      var row := group[i];
      MembersStep(group, i);
      assert row in Members(group);
      MappedOneMore(before, levels, Members(group[..i]), f, row);
      levels := levels[Id(row) := Marked(levels[Id(row)], row, best, mark)];
    }
    assert group[..|group|] == group;
  }

  lemma MappedThen(before: map<RowId, LevelRow>, mid: map<RowId, LevelRow>, after: map<RowId, LevelRow>,
                   a: set<Revision>, f: (Revision, LevelRow) -> LevelRow,
                   b: set<Revision>, g: (Revision, LevelRow) -> LevelRow)
    requires a !! b && Distinct(a + b)
    requires Mapped(before, mid, a, f) && Mapped(mid, after, b, g)
    requires forall r :: r in b ==> g(r, before[Id(r)]) == f(r, before[Id(r)])
    ensures Mapped(before, after, a + b, f)
  {
    forall r, x | r in b && x in a
      ensures Id(r) != Id(x)
    {
      assert r in a + b && x in a + b && r != x;
    }
    forall r | r in a + b
      ensures after[Id(r)] == f(r, before[Id(r)])
    {
      if r in a {
        assert after[Id(r)] == mid[Id(r)];
      } else {
        assert mid[Id(r)] == before[Id(r)];
      }
    }
  }

  /** What a supersession pass makes of one level row. */
  ghost function Passed(child: LevelRow, q: set<Revision>, span: Span, scope: string, r: Revision): LevelRow
    requires Distinct(q)
  {
    var peers := Peers(q, span, scope, r);
    if Beaten(peers, r) then Marked(child, r, Champion(peers), MarkFor(span)) else child
  }

  ghost function PassOf(q: set<Revision>, span: Span, scope: string): (Revision, LevelRow) -> LevelRow
    requires Distinct(q)
  {
    (r, child) => Passed(child, q, span, scope, r)
  }

  /** The rows whose group is no longer waiting. */
  ghost function Finished(q: set<Revision>, span: Span, scope: string, pending: set<GroupKey>): set<Revision> {
    set r | r in q && GroupKeyOf(span, r, scope).Some? && GroupKeyOf(span, r, scope).value !in pending
  }

  lemma GroupFinishes(qualifying: seq<Revision>, span: Span, scope: string, groups: map<GroupKey, seq<Revision>>,
                      pending: set<GroupKey>, key: GroupKey)
    requires IsGrouping(qualifying, span, scope, groups) && key in pending && pending <= groups.Keys
    ensures var q := Members(qualifying);
            var members := Members(groups[key]);
            && members <= q && members !! Finished(q, span, scope, pending)
            && Finished(q, span, scope, pending - {key}) == Finished(q, span, scope, pending) + members
            && forall r :: r in members ==> Peers(q, span, scope, r) == members
  {
  }

  lemma GroupMarkerIsPass(q: set<Revision>, span: Span, scope: string, members: set<Revision>, winner: Revision,
                          before: map<RowId, LevelRow>)
    requires Distinct(q) && members <= q && AllIn(q, before)
    requires forall r :: r in members ==> Peers(q, span, scope, r) == members
    requires IsChampion(members, winner)
    ensures forall r :: r in members ==>
              Marker(winner, MarkFor(span))(r, before[Id(r)]) == PassOf(q, span, scope)(r, before[Id(r)])
  {
    ChampionIsUnique(members, winner, Champion(members));
    forall r | r in members
      ensures Marker(winner, MarkFor(span))(r, before[Id(r)]) == PassOf(q, span, scope)(r, before[Id(r)])
    {
      assert Beaten(members, r) <==> r.value > winner.value;
    }
  }

  /** One supersession pass over all groups of a timeline. */
  method SupersedePass(before: map<RowId, LevelRow>, qualifying: seq<Revision>, span: Span, scope: string)
    returns (levels: map<RowId, LevelRow>)
    requires NoRepeats(qualifying) && Distinct(Members(qualifying)) && AllIn(Members(qualifying), before)
    ensures Mapped(before, levels, Members(qualifying), PassOf(Members(qualifying), span, scope))
  {
    ghost var q := Members(qualifying);
    ghost var f := PassOf(q, span, scope);
    var groups := GroupRows(qualifying, span, scope);
    levels := before;
    var pending := groups.Keys;
    assert Finished(q, span, scope, pending) == {};
    while pending != {}
      invariant pending <= groups.Keys
      invariant Mapped(before, levels, Finished(q, span, scope, pending), f)
      decreases pending
    {
      var key :| key in pending;
      GroupFinishes(qualifying, span, scope, groups, pending, key);
      ghost var members := Members(groups[key]);
      ghost var mid := levels;
      ghost var winner;
      levels, winner := SupersedeGroup(levels, groups[key], MarkFor(span));
      GroupMarkerIsPass(q, span, scope, members, winner, before);
      MappedThen(before, mid, levels, Finished(q, span, scope, pending), f, members, Marker(winner, MarkFor(span)));
      pending := pending - {key};
    }
    PassSkipsKeyless(before, levels, q, span, scope);
  }

  lemma PassSkipsKeyless(before: map<RowId, LevelRow>, levels: map<RowId, LevelRow>, q: set<Revision>,
                         span: Span, scope: string)
    requires Distinct(q) && AllIn(q, before)
    requires Mapped(before, levels, Finished(q, span, scope, {}), PassOf(q, span, scope))
    ensures Mapped(before, levels, q, PassOf(q, span, scope))
  {
    var finished := Finished(q, span, scope, {});
    forall r | r in q && r !in finished
      ensures levels[Id(r)] == PassOf(q, span, scope)(r, before[Id(r)])
    {
      assert Peers(q, span, scope, r) == {};
      assert forall x :: x in finished ==> Id(x) != Id(r);
    }
  }

  // -------- Reset, ties, holders and breakers --------

  ghost function ClearOf(q: set<Revision>): (Revision, LevelRow) -> LevelRow {
    (r, child) => Cleared(child, r in q)
  }

  method ClearAll(before: map<RowId, LevelRow>, results: seq<Revision>, qualifying: seq<Revision>)
    returns (levels: map<RowId, LevelRow>)
    requires NoRepeats(results) && Distinct(Members(results)) && AllIn(Members(results), before)
    ensures Mapped(before, levels, Members(results), ClearOf(Members(qualifying)))
  {
    levels := before;
    for i := 0 to |results|
      invariant Mapped(before, levels, Members(results[..i]), ClearOf(Members(qualifying)))
    {
      var row := results[i];
      MembersStep(results, i);
      assert row in Members(results);
      MappedOneMore(before, levels, Members(results[..i]), ClearOf(Members(qualifying)), row);
      levels := levels[Id(row) := Cleared(levels[Id(row)], row in qualifying)];
    }
    assert results[..|results|] == results;
  }

  /** How often each value occurs, as far as a tie cares. */
  method CountValues(rows: seq<Revision>) returns (counts: map<int, nat>)
    ensures forall r :: r in rows ==> r.value in counts
    ensures forall v :: v in counts ==>
              (counts[v] > 1 <==> exists j, k :: 0 <= j < k < |rows| && rows[j].value == v && rows[k].value == v)
  {
    counts := map[];
    for i := 0 to |rows|
      invariant forall v :: v in counts <==> exists j :: 0 <= j < i && rows[j].value == v
      invariant forall v :: v in counts ==> counts[v] >= 1
      invariant forall v :: v in counts ==>
                  (counts[v] > 1 <==> exists j, k :: 0 <= j < k < i && rows[j].value == v && rows[k].value == v)
    {
      var v := rows[i].value;
      ghost var seen := v in counts;
      counts := counts[v := (if v in counts then counts[v] else 0) + 1];
      if seen {
        var j :| 0 <= j < i && rows[j].value == v;
        assert rows[j].value == v && rows[i].value == v;
      }
    }
  }

  lemma CountsShowTies(rows: seq<Revision>, r: Revision)
    requires NoRepeats(rows) && r in rows
    ensures SharesTie(Members(rows), r) <==>
            exists j, k :: 0 <= j < k < |rows| && rows[j].value == r.value && rows[k].value == r.value
  {
    var i :| 0 <= i < |rows| && rows[i] == r;
    if SharesTie(Members(rows), r) {
      var x :| x in Members(rows) && x != r && x.value == r.value;
      var m :| 0 <= m < |rows| && rows[m] == x;
      var lo, hi := if i < m then i else m, if i < m then m else i;
      assert rows[lo].value == r.value && rows[hi].value == r.value;
    }
    if j, k :| 0 <= j < k < |rows| && rows[j].value == r.value && rows[k].value == r.value {
      assert rows[j] in Members(rows) && rows[k] in Members(rows);
    }
  }

  /** What the last pass makes of one level row. */
  ghost function Held(child: LevelRow, q: set<Revision>, final: Option<int>, scope: string, r: Revision): LevelRow
    requires Distinct(q)
  {
    var breaker := Breaker(q, final, scope, r);
    child.(sharedTie := SharesTie(q, r), holds := Holds(q, final, scope, r),
           ceased := if breaker.Some? then CeasedReasonFor(r, breaker.value) else NotCeased,
           ceasedBy := IdOf(breaker))
  }

  ghost function HolderOf(q: set<Revision>, final: Option<int>, scope: string): (Revision, LevelRow) -> LevelRow
    requires Distinct(q)
  {
    (r, child) => Held(child, q, final, scope, r)
  }

  /** The recognition column of every qualifying row is settled. */
  ghost predicate StandingsSet(levels: map<RowId, LevelRow>, q: set<Revision>, scope: string) {
    forall r :: r in q ==> Id(r) in levels && levels[Id(r)].recognition == Standing(q, scope, r)
  }

  /** The first row of a sorted list that belongs to a group is its earliest. */
  lemma FirstIsEarliest(rows: seq<Revision>, i: nat, group: set<Revision>)
    requires SortedByKey(rows) && i < |rows| && rows[i] in group && group <= Members(rows) && Distinct(group)
    requires forall j :: 0 <= j < i ==> rows[j] !in group
    ensures Earliest(group) == rows[i]
  {
    forall r | r in group
      ensures r == rows[i] || Before(rows[i], r)
    {
      var j :| 0 <= j < |rows| && rows[j] == r;
    }
    EarliestIsUnique(group, rows[i], Earliest(group));
  }

  /** The first later, strictly better, recognised row. */
  method FindBreaker(levels: map<RowId, LevelRow>, qualifying: seq<Revision>, scope: string, r: Revision)
    returns (breaker: Option<Revision>)
    requires SortedByKey(qualifying) && Distinct(Members(qualifying)) && r in qualifying
    requires StandingsSet(levels, Members(qualifying), scope)
    ensures var later := LaterBreakers(Members(qualifying), scope, r);
            if later == {} then breaker.None? else breaker == Some(Earliest(later))
  {
    ghost var q := Members(qualifying);
    ghost var later := LaterBreakers(q, scope, r);
    for i := 0 to |qualifying|
      invariant forall j :: 0 <= j < i ==> qualifying[j] !in later
    {
      var x := qualifying[i];
      assert x in q;
      if Before(r, x) && x.value < r.value && levels[Id(x)].recognition == Recognized {
        FirstIsEarliest(qualifying, i, later);
        return Some(x);
      }
    }
    assert later == {};
    breaker := None;
  }

  /** The holder or breaker columns of one recognised or superseded row. */
  method HoldRow(levels: map<RowId, LevelRow>, qualifying: seq<Revision>, final: Option<int>, scope: string,
                 r: Revision, shared: bool)
    returns (child: LevelRow)
    requires SortedByKey(qualifying) && Distinct(Members(qualifying)) && r in qualifying
    requires StandingsSet(levels, Members(qualifying), scope)
    requires var c := levels[Id(r)]; !c.holds && c.ceased == NotCeased && c.ceasedBy.None?
    requires shared == SharesTie(Members(qualifying), r)
    ensures child == Held(levels[Id(r)], Members(qualifying), final, scope, r)
  {
    assert r in Members(qualifying);
    child := levels[Id(r)].(sharedTie := shared);
    if child.recognition == Recognized && final == Some(r.value) {
      child := child.(holds := true);
    } else if child.recognition == Recognized {
      var breaker := FindBreaker(levels, qualifying, scope, r);
      if breaker.Some? {
        child := child.(ceased := CeasedReasonFor(r, breaker.value), ceasedBy := Some(Id(breaker.value)));
      }
    }
  }

  method MarkHolders(before: map<RowId, LevelRow>, qualifying: seq<Revision>, final: Option<int>, scope: string)
    returns (levels: map<RowId, LevelRow>)
    requires SortedByKey(qualifying) && Distinct(Members(qualifying)) && AllIn(Members(qualifying), before)
    requires StandingsSet(before, Members(qualifying), scope)
    requires forall r :: r in Members(qualifying) ==>
               !before[Id(r)].holds && before[Id(r)].ceased == NotCeased && before[Id(r)].ceasedBy.None?
    ensures Mapped(before, levels, Members(qualifying), HolderOf(Members(qualifying), final, scope))
  {
    ghost var q := Members(qualifying);
    ghost var f := HolderOf(q, final, scope);
    var counts := CountValues(qualifying);
    levels := before;
    for i := 0 to |qualifying|
      invariant Mapped(before, levels, Members(qualifying[..i]), f)
    {
      var r := qualifying[i];
      MembersStep(qualifying, i);
      CountsShowTies(qualifying, r);
      assert r in q;
      HoldersKeepStandings(before, levels, Members(qualifying[..i]), q, final, scope, r);
      MappedOneMore(before, levels, Members(qualifying[..i]), f, r);
      var child := HoldRow(levels, qualifying, final, scope, r, counts[r.value] > 1);
      levels := levels[Id(r) := child];
    }
    assert qualifying[..|qualifying|] == qualifying;
  }

  lemma HoldersKeepStandings(before: map<RowId, LevelRow>, levels: map<RowId, LevelRow>, seen: set<Revision>,
                             q: set<Revision>, final: Option<int>, scope: string, next: Revision)
    requires seen <= q && Distinct(q) && next in q && next !in seen
    requires StandingsSet(before, q, scope)
    requires Mapped(before, levels, seen, HolderOf(q, final, scope))
    ensures StandingsSet(levels, q, scope) && levels[Id(next)] == before[Id(next)]
  {
    forall r | r in q
      ensures levels[Id(r)].recognition == before[Id(r)].recognition
      ensures r !in seen ==> levels[Id(r)] == before[Id(r)]
    {
      if r in seen {
        assert levels[Id(r)] == Held(before[Id(r)], q, final, scope, r);
      } else {
        assert forall x :: x in seen ==> Id(x) != Id(r);
      }
    }
  }

  // -------- The whole adjudication --------

  /** The rows of a timeline whose stored outcome is a record. */
  ghost function Qualifying(rows: set<Revision>, levels: map<RowId, LevelRow>): set<Revision> {
    set r | r in rows && Id(r) in levels && levels[Id(r)].outcome != NoRecord
  }

  ghost function JudgeOf(q: set<Revision>, final: Option<int>, scope: string): (Revision, LevelRow) -> LevelRow
    requires Distinct(q)
  {
    (r, child) => Judge(child, q, final, scope, r)
  }

  method Adjudicate(results: seq<Revision>, before: map<RowId, LevelRow>, final: Option<int>, scope: string)
    returns (levels: map<RowId, LevelRow>)
    requires SortedByKey(results) && Distinct(Members(results)) && AllIn(Members(results), before)
    ensures Mapped(before, levels, Members(results), JudgeOf(Qualifying(Members(results), before), final, scope))
  {
    var qualifying: seq<Revision> := [];
    for i := 0 to |results|
      invariant SortedByKey(qualifying)
      invariant forall r :: r in qualifying <==> r in results[..i] && before[Id(r)].outcome != NoRecord
    {
      assert results[i] in Members(results);
      assert forall r :: r in results[..i] ==> Before(r, results[i]);
      assert results[..i + 1] == results[..i] + [results[i]];
      if before[Id(results[i])].outcome != NoRecord {
        qualifying := qualifying + [results[i]];
      }
    }
    assert results[..|results|] == results;
    ghost var q := Qualifying(Members(results), before);
    assert Members(qualifying) == q;
    var cleared := ClearAll(before, results, qualifying);
    var afterRounds := SupersedePass(cleared, qualifying, SameRound, scope);
    var afterDays := SupersedePass(afterRounds, qualifying, SameDay, scope);
    PassesSettle(before, cleared, afterRounds, afterDays, Members(results), q, scope);
    levels := MarkHolders(afterDays, qualifying, final, scope);
    PassesMakeJudge(before, cleared, afterRounds, afterDays, levels, Members(results), q, final, scope);
  }

  lemma TwoPassesOnRow(child: LevelRow, q: set<Revision>, scope: string, r: Revision)
    requires Distinct(q) && r in q
    ensures Passed(Passed(Cleared(child, true), q, SameRound, scope, r), q, SameDay, scope, r) ==
            Cleared(child, true).(recognition := Standing(q, scope, r), supersededBy := IdOf(Superseder(q, scope, r)))
  {
  }

  /** The row after reset and both supersession passes. */
  ghost predicate Superseded(before: LevelRow, after: LevelRow, q: set<Revision>, scope: string, r: Revision)
    requires Distinct(q)
  {
    after == Cleared(before, true).(recognition := Standing(q, scope, r), supersededBy := IdOf(Superseder(q, scope, r)))
  }

  lemma PassesSettle(before: map<RowId, LevelRow>, cleared: map<RowId, LevelRow>, afterRounds: map<RowId, LevelRow>,
                     afterDays: map<RowId, LevelRow>, rows: set<Revision>, q: set<Revision>, scope: string)
    requires q <= rows && Distinct(rows)
    requires Mapped(before, cleared, rows, ClearOf(q))
    requires Mapped(cleared, afterRounds, q, PassOf(q, SameRound, scope))
    requires Mapped(afterRounds, afterDays, q, PassOf(q, SameDay, scope))
    ensures forall r :: r in q ==> Superseded(before[Id(r)], afterDays[Id(r)], q, scope, r)
    ensures StandingsSet(afterDays, q, scope)
  {
    forall r | r in q
      ensures Superseded(before[Id(r)], afterDays[Id(r)], q, scope, r)
    {
      assert cleared[Id(r)] == ClearOf(q)(r, before[Id(r)]);
      assert afterRounds[Id(r)] == PassOf(q, SameRound, scope)(r, cleared[Id(r)]);
      assert afterDays[Id(r)] == PassOf(q, SameDay, scope)(r, afterRounds[Id(r)]);
      TwoPassesOnRow(before[Id(r)], q, scope, r);
    }
  }

  lemma SupersededThenHeld(before: LevelRow, after: LevelRow, q: set<Revision>, final: Option<int>, scope: string, r: Revision)
    requires Distinct(q) && Superseded(before, after, q, scope, r)
    ensures Held(after, q, final, scope, r) == Judge(before, q, final, scope, r)
  {
  }

  lemma UnqualifiedIsCleared(before: LevelRow, q: set<Revision>, final: Option<int>, scope: string, r: Revision)
    requires Distinct(q) && r !in q
    ensures Cleared(before, false) == Judge(before, q, final, scope, r)
  {
  }

  /** Rows outside the qualifying set keep their cleared columns through the passes. */
  lemma PassesLeave(cleared: map<RowId, LevelRow>, afterRounds: map<RowId, LevelRow>, afterDays: map<RowId, LevelRow>,
                    levels: map<RowId, LevelRow>, q: set<Revision>, final: Option<int>, scope: string, k: RowId)
    requires k in cleared && forall x :: x in q ==> Id(x) != k
    requires Distinct(q)
    requires Mapped(cleared, afterRounds, q, PassOf(q, SameRound, scope))
    requires Mapped(afterRounds, afterDays, q, PassOf(q, SameDay, scope))
    requires Mapped(afterDays, levels, q, HolderOf(q, final, scope))
    ensures levels.Keys == cleared.Keys && levels[k] == cleared[k]
  {
  }

  lemma QualifiedIsJudged(before: map<RowId, LevelRow>, afterDays: map<RowId, LevelRow>, levels: map<RowId, LevelRow>,
                          q: set<Revision>, final: Option<int>, scope: string, r: Revision)
    requires Distinct(q) && r in q && Id(r) in before && Id(r) in afterDays
    requires Superseded(before[Id(r)], afterDays[Id(r)], q, scope, r)
    requires Mapped(afterDays, levels, q, HolderOf(q, final, scope))
    ensures Id(r) in levels && levels[Id(r)] == JudgeOf(q, final, scope)(r, before[Id(r)])
  {
    SupersededThenHeld(before[Id(r)], afterDays[Id(r)], q, final, scope, r);
    assert levels[Id(r)] == HolderOf(q, final, scope)(r, afterDays[Id(r)]);
  }

  lemma UnqualifiedIsJudged(before: map<RowId, LevelRow>, cleared: map<RowId, LevelRow>, rows: set<Revision>,
                            q: set<Revision>, final: Option<int>, scope: string, r: Revision)
    requires Distinct(rows) && q <= rows && r in rows && r !in q && Mapped(before, cleared, rows, ClearOf(q))
    ensures Id(r) in cleared && cleared[Id(r)] == JudgeOf(q, final, scope)(r, before[Id(r)])
    ensures forall x :: x in q ==> Id(x) != Id(r)
  {
    UnqualifiedIsCleared(before[Id(r)], q, final, scope, r);
    assert cleared[Id(r)] == ClearOf(q)(r, before[Id(r)]);
  }

  lemma PassesMakeJudge(before: map<RowId, LevelRow>, cleared: map<RowId, LevelRow>, afterRounds: map<RowId, LevelRow>,
                        afterDays: map<RowId, LevelRow>, levels: map<RowId, LevelRow>,
                        rows: set<Revision>, q: set<Revision>, final: Option<int>, scope: string)
    requires q <= rows && Distinct(rows)
    requires Mapped(before, cleared, rows, ClearOf(q))
    requires Mapped(cleared, afterRounds, q, PassOf(q, SameRound, scope))
    requires Mapped(afterRounds, afterDays, q, PassOf(q, SameDay, scope))
    requires Mapped(afterDays, levels, q, HolderOf(q, final, scope))
    ensures Mapped(before, levels, rows, JudgeOf(q, final, scope))
  {
    PassesSettle(before, cleared, afterRounds, afterDays, rows, q, scope);
    forall r | r in rows
      ensures levels[Id(r)] == JudgeOf(q, final, scope)(r, before[Id(r)])
    {
      if r in q {
        QualifiedIsJudged(before, afterDays, levels, q, final, scope, r);
      } else {
        UnqualifiedIsJudged(before, cleared, rows, q, final, scope, r);
        PassesLeave(cleared, afterRounds, afterDays, levels, q, final, scope, Id(r));
      }
    }
    forall k | k in before && forall r :: r in rows ==> Id(r) != k
      ensures levels[k] == before[k]
    {
      PassesLeave(cleared, afterRounds, afterDays, levels, q, final, scope, k);
    }
  }
}
