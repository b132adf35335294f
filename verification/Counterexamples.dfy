/** Concrete inputs for which the obvious guarantees fail, one for each condition the main theorems carry. */
module Counterexamples {
  import opened RecordDomain
  import opened RecordOrder
  import opened Classification
  import opened SettledProofs
  import opened RunProofs
  import opened Pipeline
  import opened PipelineProofs
  import opened PipelineRuns
  import opened EscapeProofs
  import H = HistoryProofs

  /** A 5.00 second single of result 1, verified. */
  function Five(revision: nat, competitionId: string, country: string): Revision {
    Revision(1, revision, if revision == 1 then Action.Active else Action.Corrected,
             if revision == 1 then Status.Active else Status.Corrected, Verified, 500, 10, "333", Single,
             competitionId, "", "333-r1", Some(1), Some(20), "2015AAAA01", country)
  }

  // -------- A result that changes country twice --------

  /** Entered for country `x`, then for `y`, then for `z`. */
  function Hops(x: string, y: string, z: string): seq<Revision> {
    [Five(1, "Open2026", x), Five(2, "Open2026", y), Five(3, "Open2026", z)]
  }

  function Unofficial(geography: Geography): Env {
    Env(geography, map[], {})
  }

  function NationalCell(geography: Geography, country: string): Cell {
    Cell("333", Single, National, CountryName(geography, country))
  }

  /** `x` is a known country and neither `y` nor `z` is the same one. */
  predicate LeavesForGood(geography: Geography, x: string, y: string, z: string) {
    && CountryName(geography, x) != ""
    && CountryName(geography, y) != CountryName(geography, x)
    && CountryName(geography, z) != CountryName(geography, x)
  }

  ghost predicate HoldsHops(t: Store, x: string, y: string, z: string) {
    && t.heads == map[1 := Head(3, Status.Corrected)]
    && t.log == map[RowId(1, 1) := Five(1, "Open2026", x), RowId(1, 2) := Five(2, "Open2026", y), RowId(1, 3) := Five(3, "Open2026", z)]
  }

  lemma HopsInTurn(s: Store, x: string, y: string, z: string)
    requires s.heads == map[] && s.log == map[]
    ensures Chain(s, Hops(x, y, z)) && HoldsHops(AppendAll(s, Hops(x, y, z)), x, y, z)
  {
    var hops := Hops(x, y, z);
    var s1 := Appended(s, hops[0]);
    var s2 := Appended(s1, hops[1]);
    var s3 := Appended(s2, hops[2]);
    assert hops[1..][1..] == [hops[2]] && [hops[2]][1..] == [];
    assert AppendAll(s2, [hops[2]]) == s3 && Chain(s2, [hops[2]]);
    assert AppendAll(s1, hops[1..]) == s3 && Chain(s1, hops[1..]);
  }

  /** Neither the second nor the third entry names the first country. */
  lemma OutOfReach(geography: Geography, t: Store, x: string, y: string, z: string)
    requires HoldsHops(t, x, y, z) && LeavesForGood(geography, x, y, z)
    ensures var env, c := Unofficial(geography), NationalCell(geography, x);
            && c !in Touched(env, t, Five(3, "Open2026", z)) && c !in CellsOf(env, Five(3, "Open2026", z))
            && c in Footprint(env, Five(1, "Open2026", x))
  {
    assert Previous(t, Five(3, "Open2026", z)) == Some(Five(2, "Open2026", y));
  }

  lemma LastHopIsHead(t: Store, x: string, y: string, z: string, g: Revision)
    requires HoldsHops(t, x, y, z) && Logged(t, g) && IsHead(t, g)
    ensures g == Five(3, "Open2026", z)
  {
  }

  lemma FirstHopEscapes(geography: Geography, t: Store, x: string, y: string, z: string)
    requires HoldsHops(t, x, y, z) && LeavesForGood(geography, x, y, z)
    ensures Escapes(Unofficial(geography), t, Hops(x, y, z), NationalCell(geography, x), Five(1, "Open2026", x))
  {
    var env, c := Unofficial(geography), NationalCell(geography, x);
    OutOfReach(geography, t, x, y, z);
    assert Overtaken(env, t, c, Five(3, "Open2026", z), Five(1, "Open2026", x));
    forall g | Logged(t, g) && IsHead(t, g)
      ensures !Heals(env, t, Hops(x, y, z), c, g, Five(1, "Open2026", x))
    {
      LastHopIsHead(t, x, y, z, g);
    }
  }

  lemma NobodyCounts(geography: Geography, t: Store, x: string, y: string, z: string)
    requires HoldsHops(t, x, y, z) && LeavesForGood(geography, x, y, z)
    ensures HeadRows(Unofficial(geography), t, NationalCell(geography, x)) == {}
  {
    OutOfReach(geography, t, x, y, z);
    forall r
      ensures r !in HeadRows(Unofficial(geography), t, NationalCell(geography, x))
    {
      if Logged(t, r) && IsHead(t, r) {
        LastHopIsHead(t, x, y, z, r);
      }
    }
  }

  /** From country X to Y to Z: with the second revision overtaken before it is classified nothing repairs X, and
      its national record stays although nobody from X has a result. */
  lemma HoppingGoesWrong(geography: Geography, x: string, y: string, z: string)
    requires LeavesForGood(geography, x, y, z)
    ensures !AlwaysRight(Unofficial(geography), Hops(x, y, z), NationalCell(geography, x))
  {
    var env, c := Unofficial(geography), NationalCell(geography, x);
    var t := AppendAll(Start(env).store, Hops(x, y, z));
    HopsInTurn(Start(env).store, x, y, z);
    FirstHopEscapes(geography, t, x, y, z);
    NobodyCounts(geography, t, x, y, z);
    assert Best(Floor(env, c), HeadRows(env, t, c)) == None;
    EscapeGoesWrong(env, Hops(x, y, z), c, Five(1, "Open2026", x));
  }

  const THREE_COUNTRIES: Geography :=
    map["CN" := Country("China", "", "Asia"), "US" := Country("USA", "", "North America"), "FR" := Country("France", "", "Europe")]

  lemma ThreeCountries()
    ensures LeavesForGood(THREE_COUNTRIES, "CN", "US", "FR") && CountryName(THREE_COUNTRIES, "CN") == "China"
  {
    assert Upper("CN") == "CN" && Upper("US") == "US" && Upper("FR") == "FR";
  }

  /** China, then the USA, then France. */
  lemma ChineseRecordStays()
    ensures !AlwaysRight(Unofficial(THREE_COUNTRIES), Hops("CN", "US", "FR"), Cell("333", Single, National, "China"))
  {
    ThreeCountries();
    HoppingGoesWrong(THREE_COUNTRIES, "CN", "US", "FR");
  }

  // -------- A late first revision that makes up for it --------

  /** A 3x3 single, outside any competition. */
  function Entry(result: nat, revision: nat, country: string, at: int, value: int): Revision {
    Revision(result, revision, if revision == 1 then Action.Active else Action.Corrected,
             if revision == 1 then Status.Active else Status.Corrected, Verified, value, at, "333", Single,
             "", "", "333-r1", Some(1), Some(20), "2015AAAA01", country)
  }

  /** A 5.00 for `x` that turns out to be for `y` and then for `z`; between its entry and its move a 6.50 for `x`,
      corrected once. */
  function Moved(x: string, y: string, z: string): seq<Revision> {
    [Entry(1, 1, x, 10, 500), Entry(2, 1, x, 100, 660), Entry(2, 2, x, 100, 650), Entry(1, 2, y, 10, 500), Entry(1, 3, z, 10, 500)]
  }

  /** Afterwards a 7.00 for `x` entered before the 6.50 arrives: no record, but a row with an earlier key. */
  function Latecomer(x: string): Revision {
    Entry(3, 1, x, 50, 700)
  }

  ghost predicate HoldsMoved(t: Store, x: string, y: string, z: string) {
    && t.heads == map[1 := Head(3, Status.Corrected), 2 := Head(2, Status.Corrected)]
    && t.log == map[RowId(1, 1) := Moved(x, y, z)[0], RowId(2, 1) := Moved(x, y, z)[1], RowId(2, 2) := Moved(x, y, z)[2],
                    RowId(1, 2) := Moved(x, y, z)[3], RowId(1, 3) := Moved(x, y, z)[4]]
  }

  lemma MovedInTurn(s: Store, x: string, y: string, z: string)
    requires s.heads == map[] && s.log == map[]
    ensures Chain(s, Moved(x, y, z)) && HoldsMoved(AppendAll(s, Moved(x, y, z)), x, y, z)
  {
    var all := Moved(x, y, z);
    var s1 := Appended(s, all[0]);
    var s2 := Appended(s1, all[1]);
    var s3 := Appended(s2, all[2]);
    var s4 := Appended(s3, all[3]);
    var s5 := Appended(s4, all[4]);
    assert all[1..][1..] == all[2..] && all[2..][1..] == all[3..] && all[3..][1..] == all[4..] && all[4..][1..] == [];
    assert AppendAll(s4, all[4..]) == s5 && Chain(s4, all[4..]);
    assert AppendAll(s3, all[3..]) == s5 && Chain(s3, all[3..]);
    assert AppendAll(s2, all[2..]) == s5 && Chain(s2, all[2..]);
    assert AppendAll(s1, all[1..]) == s5 && Chain(s1, all[1..]);
  }

  lemma EntryCells(geography: Geography, result: nat, revision: nat, country: string, at: int, value: int, x: string)
    requires CountryName(geography, x) != ""
    ensures var env, c, r := Unofficial(geography), NationalCell(geography, x), Entry(result, revision, country, at, value);
            && !IsAbsorbed(env, r)
            && (c in CellsOf(env, r) <==> CountryName(geography, country) == CountryName(geography, x))
  {
  }

  lemma MovedHead(t: Store, x: string, y: string, z: string, g: Revision)
    requires HoldsMoved(t, x, y, z) && Logged(t, g) && IsHead(t, g)
    ensures g == Moved(x, y, z)[4] || g == Moved(x, y, z)[2]
  {
  }

  /** Nothing that arrived after the move reaches the country it left. */
  lemma MovedEscapes(geography: Geography, t: Store, x: string, y: string, z: string)
    requires HoldsMoved(t, x, y, z) && LeavesForGood(geography, x, y, z)
    ensures Escapes(Unofficial(geography), t, Moved(x, y, z), NationalCell(geography, x), Moved(x, y, z)[0])
  {
    var env, c, all := Unofficial(geography), NationalCell(geography, x), Moved(x, y, z);
    EntryCells(geography, 1, 1, x, 10, 500, x);
    EntryCells(geography, 1, 2, y, 10, 500, x);
    EntryCells(geography, 1, 3, z, 10, 500, x);
    assert Overtaken(env, t, c, all[4], all[0]);
    forall g | Logged(t, g) && IsHead(t, g)
      ensures !Heals(env, t, all, c, g, all[0])
    {
      MovedHead(t, x, y, z, g);
      assert Previous(t, all[4]) == Some(all[3]);
    }
  }

  lemma MovedBest(geography: Geography, t: Store, x: string, y: string, z: string)
    requires HoldsMoved(t, x, y, z) && LeavesForGood(geography, x, y, z)
    ensures var env, c := Unofficial(geography), NationalCell(geography, x);
            Best(Floor(env, c), HeadRows(env, t, c)) == Some(650)
  {
    var env, c, all := Unofficial(geography), NationalCell(geography, x), Moved(x, y, z);
    EntryCells(geography, 2, 2, x, 100, 650, x);
    EntryCells(geography, 1, 3, z, 10, 500, x);
    forall r
      ensures r in HeadRows(env, t, c) <==> r == all[2]
    {
      if Logged(t, r) && IsHead(t, r) {
        MovedHead(t, x, y, z, r);
      }
    }
    assert HeadRows(env, t, c) == {all[2]};
    BestIsUnique(Floor(env, c), {all[2]}, Some(650));
  }

  /** Without the latecomer some run leaves 5.00 as the record of `x`. */
  lemma MovedGoesWrong(geography: Geography, x: string, y: string, z: string)
    requires LeavesForGood(geography, x, y, z)
    ensures !AlwaysRight(Unofficial(geography), Moved(x, y, z), NationalCell(geography, x))
  {
    var env, c := Unofficial(geography), NationalCell(geography, x);
    var t := AppendAll(Start(env).store, Moved(x, y, z));
    MovedInTurn(Start(env).store, x, y, z);
    MovedEscapes(geography, t, x, y, z);
    MovedBest(geography, t, x, y, z);
    EscapeGoesWrong(env, Moved(x, y, z), c, Entry(1, 1, x, 10, 500));
  }

  ghost predicate HoldsLate(t: Store, x: string, y: string, z: string) {
    && t.heads == map[1 := Head(3, Status.Corrected), 2 := Head(2, Status.Corrected), 3 := Head(1, Status.Active)]
    && t.log == map[RowId(1, 1) := Moved(x, y, z)[0], RowId(2, 1) := Moved(x, y, z)[1], RowId(2, 2) := Moved(x, y, z)[2],
                    RowId(1, 2) := Moved(x, y, z)[3], RowId(1, 3) := Moved(x, y, z)[4], RowId(3, 1) := Latecomer(x)]
  }

  lemma LateInTurn(s: Store, x: string, y: string, z: string)
    requires s.heads == map[] && s.log == map[]
    ensures HoldsLate(AppendAll(s, Moved(x, y, z) + [Latecomer(x)]), x, y, z)
  {
    MovedInTurn(s, x, y, z);
    AppendAllConcat(s, Moved(x, y, z), [Latecomer(x)]);
    assert [Latecomer(x)][1..] == [];
    assert AppendAll(AppendAll(s, Moved(x, y, z)), [Latecomer(x)]) == Appended(AppendAll(s, Moved(x, y, z)), Latecomer(x));
  }

  lemma LatecomerHeals(geography: Geography, t: Store, x: string, y: string, z: string, order: seq<Revision>)
    requires HoldsLate(t, x, y, z) && LeavesForGood(geography, x, y, z) && order == Moved(x, y, z) + [Latecomer(x)]
    ensures Heals(Unofficial(geography), t, order, NationalCell(geography, x), Latecomer(x), Moved(x, y, z)[0])
    ensures Heals(Unofficial(geography), t, order, NationalCell(geography, x), Moved(x, y, z)[2], Moved(x, y, z)[1])
  {
    var env, c, all := Unofficial(geography), NationalCell(geography, x), Moved(x, y, z);
    EntryCells(geography, 3, 1, x, 50, 700, x);
    EntryCells(geography, 2, 2, x, 100, 650, x);
    assert Corrects(env, t, c, all[2]) && Before(Latecomer(x), all[2]);
    assert order[3] == all[3] && order[5] == Latecomer(x) && order[2] == all[2];
    assert Follows(order, Latecomer(x), all[0]);
    assert Follows(order, all[2], all[1]);
  }

  lemma LateOvertaken(geography: Geography, t: Store, x: string, y: string, z: string, h: Revision, k: Revision)
    requires HoldsLate(t, x, y, z) && LeavesForGood(geography, x, y, z)
    requires Overtaken(Unofficial(geography), t, NationalCell(geography, x), h, k)
    ensures k == Moved(x, y, z)[0] || k == Moved(x, y, z)[1]
  {
    EntryCells(geography, 1, 2, y, 10, 500, x);
  }

  lemma HealedDoesNotEscape(env: Env, t: Store, order: seq<Revision>, c: Cell, g: Revision, k: Revision)
    requires Logged(t, g) && IsHead(t, g) && Heals(env, t, order, c, g, k)
    ensures !Escapes(env, t, order, c, k)
  {
  }

  lemma LateDoesNotEscape(geography: Geography, t: Store, x: string, y: string, z: string, order: seq<Revision>, k: Revision)
    requires HoldsLate(t, x, y, z) && LeavesForGood(geography, x, y, z) && order == Moved(x, y, z) + [Latecomer(x)]
    ensures !Escapes(Unofficial(geography), t, order, NationalCell(geography, x), k)
  {
    var env, c := Unofficial(geography), NationalCell(geography, x);
    if h :| Overtaken(env, t, c, h, k) {
      LateOvertaken(geography, t, x, y, z, h, k);
      LatecomerHeals(geography, t, x, y, z, order);
      HealedDoesNotEscape(env, t, order, c, if k == Moved(x, y, z)[0] then Latecomer(x) else Moved(x, y, z)[2], k);
    }
  }

  lemma NothingEscapesLate(geography: Geography, t: Store, x: string, y: string, z: string, order: seq<Revision>)
    requires HoldsLate(t, x, y, z) && LeavesForGood(geography, x, y, z) && order == Moved(x, y, z) + [Latecomer(x)]
    ensures NothingEscapes(Unofficial(geography), t, order, NationalCell(geography, x))
  {
    forall k
      ensures !Escapes(Unofficial(geography), t, order, NationalCell(geography, x), k)
    {
      LateDoesNotEscape(geography, t, x, y, z, order, k);
    }
  }

  /** With it every run is right: the 6.50 is either committed after the move, and replays the cell, or projected before the
      latecomer is decided, which then is out of order and replays the cell itself. */
  lemma LatecomerMakesRight(geography: Geography, x: string, y: string, z: string)
    requires LeavesForGood(geography, x, y, z)
    ensures AlwaysRight(Unofficial(geography), Moved(x, y, z) + [Latecomer(x)], NationalCell(geography, x))
  {
    var env, c, order := Unofficial(geography), NationalCell(geography, x), Moved(x, y, z) + [Latecomer(x)];
    LateInTurn(Start(env).store, x, y, z);
    NothingEscapesLate(geography, AppendAll(Start(env).store, order), x, y, z, order);
    NothingEscapingIsRight(env, order, c);
  }

  // -------- A correction into an absorbed competition --------

  const OPEN_ABSORBED := Env(THREE_COUNTRIES, map[], {"Open2026"})
  const WORLD := Cell("333", Single, World, "World")

  /** The first entry is not matched to a competition; the correction matches it to one the export has absorbed. */
  const UNMATCHED := Five(1, "", "CN")
  const MATCHED := Five(2, "Open2026", "CN")

  /** The first result ever observed. */
  ghost function WithFirst(env: Env, first: Revision): Store {
    H.ObserveAll(env, Start(env).store, [first])
  }

  lemma FirstSettles(env: Env, first: Revision)
    requires first.revision == 1
    ensures H.Settled(env, WithFirst(env, first))
    ensures WithFirst(env, first).heads == map[first.resultId := Head(1, first.status)] && WithFirst(env, first).log == map[Id(first) := first]
  {
    var s0 := Start(env).store;
    DiscardedIsConsistent(env, s0);
    assert Discarded(env, s0) == s0;
    assert [first][..0] == [] && H.ObserveAll(env, s0, []) == s0;
    H.HistoryStaysSettled(env, s0, [first]);
    H.ObservedFrame(env, s0, first);
  }

  lemma OnlyFirstCounts(env: Env, s: Store, first: Revision, c: Cell)
    requires s.heads == map[first.resultId := Head(1, first.status)] && s.log == map[Id(first) := first] && first.revision == 1
    requires Eligible(env, first) && c == CellOf(env, first, c.level)
    ensures HeadRows(env, s, c) == {first}
  {
    forall r
      ensures r in HeadRows(env, s, c) <==> r == first
    {
      assert Logged(s, r) <==> r == first;
    }
  }

  /** A result matched late to a competition the export has absorbed leaves its value live, though nothing counts. */
  lemma LateMatchGoesWrong(env: Env, first: Revision, matched: Revision, c: Cell)
    requires first.revision == 1 && matched.revision == 2 && matched.resultId == first.resultId
    requires Eligible(env, first) && IsAbsorbed(env, matched)
    requires c.scope != "" && c == CellOf(env, first, c.level) && Floor(env, c).None?
    ensures H.Settled(env, WithFirst(env, first))
    ensures var t := H.Observed(env, WithFirst(env, first), matched);
            && HeadRows(env, t, c) == {} && Best(Floor(env, c), HeadRows(env, t, c)) == None
            && Get(t.live, c) == Some(first.value)
  {
    var s := WithFirst(env, first);
    FirstSettles(env, first);
    OnlyFirstCounts(env, s, first, c);
    H.SettledLive(env, s, c);
    H.AbsorbedCorrectionRows(env, s, matched, first, c);
    H.AbsorbedKeepsLive(env, s, matched);
    BestIsUnique(Floor(env, c), {first}, Some(first.value));
  }

  /** From a settled store, the world record stays at 5.00 although no result counts any more. */
  lemma AbsorbedCorrectionGoesWrong()
    ensures H.Settled(OPEN_ABSORBED, WithFirst(OPEN_ABSORBED, UNMATCHED))
    ensures var t := H.Observed(OPEN_ABSORBED, WithFirst(OPEN_ABSORBED, UNMATCHED), MATCHED);
            && Best(Floor(OPEN_ABSORBED, WORLD), HeadRows(OPEN_ABSORBED, t, WORLD)) == None
            && Get(t.live, WORLD) == Some(500)
  {
    LateMatchGoesWrong(OPEN_ABSORBED, UNMATCHED, MATCHED, WORLD);
  }
}
