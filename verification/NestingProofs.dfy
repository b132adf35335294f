/** Records of wider scopes are never worse than those of narrower ones. */
module NestingProofs {
  import opened RecordDomain
  import opened RecordOrder
  import opened Replay
  import opened Classification
  import opened RunProofs
  import P = Pipeline
  import Safety = PipelineProofs

  /** One fixed known country code per competitor, by upper-case WCA id. */
  type Roster = map<string, string>

  /** A competitor's cell at a level, from the roster alone. */
  function HomeCell(env: Env, roster: Roster, person: string, event: string, kind: Kind, level: Level): Cell
    requires person in roster
  {
    Cell(event, kind, level,
         match level
         case World => "World"
         case Continental => ContinentName(env.geography, roster[person])
         case National => CountryName(env.geography, roster[person])
         case Personal => person)
  }

  function Narrower(level: Level): Level
    requires level != Personal
  {
    match level case World => Continental case Continental => National case National => Personal
  }

  /** Equal country names lie on one continent. */
  ghost predicate OneContinentPerCountry(geography: Geography) {
    forall a, b :: CountryName(geography, a) != "" && CountryName(geography, a) == CountryName(geography, b) ==>
      ContinentName(geography, a) == ContinentName(geography, b)
  }

  /** Every current row of a competitor is entered for the competitor's country. */
  ghost predicate FollowsRoster(env: Env, s: Store, roster: Roster) {
    forall k :: k in s.processed && Upper(s.processed[k].row.person) in roster ==>
      CountryName(env.geography, s.processed[k].row.country)
      == CountryName(env.geography, roster[Upper(s.processed[k].row.person)])
  }

  ghost predicate NestedBaseline(env: Env, roster: Roster) {
    forall person, event, kind, level :: person in roster && level != Personal ==>
      AtMost(Floor(env, HomeCell(env, roster, person, event, kind, level)),
             Floor(env, HomeCell(env, roster, person, event, kind, Narrower(level))))
  }

  ghost predicate KnownHome(env: Env, roster: Roster, person: string) {
    && person in roster && person != ""
    && CountryName(env.geography, roster[person]) != ""
    && ContinentName(env.geography, roster[person]) != ""
  }

  /** Every row of the narrower timeline is a row of the wider one. */
  lemma NarrowerRowsCount(env: Env, s: Store, roster: Roster, person: string, event: string, kind: Kind, level: Level)
    requires OneContinentPerCountry(env.geography) && FollowsRoster(env, s, roster)
    requires KnownHome(env, roster, person) && level != Personal
    ensures Rows(env, s, HomeCell(env, roster, person, event, kind, Narrower(level)))
            <= Rows(env, s, HomeCell(env, roster, person, event, kind, level))
  {
    var wide := HomeCell(env, roster, person, event, kind, level);
    var narrow := HomeCell(env, roster, person, event, kind, Narrower(level));
    forall r | r in Rows(env, s, narrow)
      ensures Counts(env, s, r, wide)
    {
      assert s.processed[Id(r)].row == r;
      match level
      case World =>
      case Continental =>
        assert CountryName(env.geography, r.country) == CountryName(env.geography, roster[person]);
      case National =>
        assert Upper(r.person) == person;
    }
  }

  /** In every consistent state the live cells of a competitor's scopes satisfy WR <= CR <= NR <= PR. */
  lemma LiveCellsNest(env: Env, s: Store, roster: Roster, person: string, event: string, kind: Kind, level: Level)
    requires Consistent(env, s) && NestedBaseline(env, roster)
    requires OneContinentPerCountry(env.geography) && FollowsRoster(env, s, roster)
    requires KnownHome(env, roster, person) && level != Personal
    ensures AtMost(Get(s.live, HomeCell(env, roster, person, event, kind, level)),
                   Get(s.live, HomeCell(env, roster, person, event, kind, Narrower(level))))
  {
    var wide := HomeCell(env, roster, person, event, kind, level);
    var narrow := HomeCell(env, roster, person, event, kind, Narrower(level));
    NarrowerRowsCount(env, s, roster, person, event, kind, level);
    assert CellConsistent(env, s, wide) && CellConsistent(env, s, narrow);
    BestIsMonotone(Floor(env, wide), Rows(env, s, wide), Floor(env, narrow), Rows(env, s, narrow));
  }

  /** So do the live cells of a quiet pipeline, after any interleaving whatever, provided no better revision escaped the
      narrower scope: what escaped the wider one only makes it better. */
  lemma QuietLiveCellsNest(env: Env, events: seq<P.Event>, a: P.Sys, roster: Roster, person: string, event: string, kind: Kind, level: Level)
    requires P.IsRun(env, P.Start(env), events, a) && P.Quiescent(a) && NestedBaseline(env, roster)
    requires OneContinentPerCountry(env.geography) && FollowsRoster(env, a.store, roster)
    requires KnownHome(env, roster, person) && level != Personal
    requires Safety.NothingEscapes(env, a.store, a.appended, HomeCell(env, roster, person, event, kind, Narrower(level)))
    ensures AtMost(Get(a.store.live, HomeCell(env, roster, person, event, kind, level)),
                   Get(a.store.live, HomeCell(env, roster, person, event, kind, Narrower(level))))
  {
    var wide := HomeCell(env, roster, person, event, kind, level);
    var narrow := HomeCell(env, roster, person, event, kind, Narrower(level));
    QuietRows(env, events, a, wide);
    QuietRows(env, events, a, narrow);
    NarrowerRowsCount(env, a.store, roster, person, event, kind, level);
    Safety.QuiescentLiveIsEnclosed(env, events, a, wide);
    Safety.QuiescentLiveIsBestOfHeads(env, events, a, narrow);
    BestIsMonotone(Floor(env, wide), HeadRows(env, a.store, wide), Floor(env, narrow), HeadRows(env, a.store, narrow));
  }

  lemma QuietRows(env: Env, events: seq<P.Event>, a: P.Sys, c: Cell)
    requires P.IsRun(env, P.Start(env), events, a) && P.Quiescent(a)
    ensures Rows(env, a.store, c) == HeadRows(env, a.store, c)
  {
    Safety.Reachable(env, events, a);
    Safety.QuiescentRows(env, a, c);
  }

  /** Replayed outcomes nest: a break at a wider scope is a break at the narrower one, and a tie at
      the wider scope is at least a tie at the narrower one. */
  lemma OutcomesNest(env: Env, s: Store, roster: Roster, r: Revision, level: Level)
    requires Consistent(env, s) && NestedBaseline(env, roster)
    requires OneContinentPerCountry(env.geography) && FollowsRoster(env, s, roster)
    requires KnownHome(env, roster, Upper(r.person)) && level != Personal
    requires r in Rows(env, s, HomeCell(env, roster, Upper(r.person), r.event, r.kind, Narrower(level)))
    ensures var wide := LevelId(Id(r), level);
            var narrow := LevelId(Id(r), Narrower(level));
            && wide in s.levels && narrow in s.levels
            && (s.levels[wide].outcome == Broken ==> s.levels[narrow].outcome == Broken)
            && (s.levels[wide].outcome == Tied ==> s.levels[narrow].outcome != NoRecord)
  {
    var person := Upper(r.person);
    var wide := HomeCell(env, roster, person, r.event, r.kind, level);
    var narrow := HomeCell(env, roster, person, r.event, r.kind, Narrower(level));
    NarrowerRowsCount(env, s, roster, person, r.event, r.kind, level);
    assert CellConsistent(env, s, wide) && CellConsistent(env, s, narrow);
    ReplayedColumns(Floor(env, wide), Rows(env, s, wide), wide.scope, r);
    ReplayedColumns(Floor(env, narrow), Rows(env, s, narrow), narrow.scope, r);
    ReplayNests(Floor(env, wide), Rows(env, s, wide), Floor(env, narrow), Rows(env, s, narrow), r);
  }

  /** A row compared against more rows and a better floor does no better. */
  lemma ReplayNests(wide: Option<int>, more: set<Revision>, narrow: Option<int>, rows: set<Revision>, r: Revision)
    requires AtMost(wide, narrow) && rows <= more
    ensures ReplayOutcome(wide, more, r) == Broken ==> ReplayOutcome(narrow, rows, r) == Broken
    ensures ReplayOutcome(wide, more, r) == Tied ==> ReplayOutcome(narrow, rows, r) != NoRecord
  {
    BestIsMonotone(wide, Earlier(more, r), narrow, Earlier(rows, r));
  }
}
