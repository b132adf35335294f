/** Arrival order does not matter: any order of first revisions leaves the tables one replay leaves. */
module ArrivalProofs {
  import opened RecordDomain
  import opened RecordOrder
  import opened Classification
  import opened TimelineProofs
  import opened SettledProofs
  import opened RunProofs

  /** First revisions, all heads, unabsorbed, not classified yet, each listed once. */
  ghost predicate FirstArrivals(env: Env, s: Store, order: seq<Revision>) {
    && NoRepeats(order)
    && forall r :: r in order ==>
         Logged(s, r) && r.revision == 1 && IsHead(s, r) && !IsAbsorbed(env, r) && Id(r) !in s.processed
  }

  ghost predicate NumberedFromOne(s: Store) {
    forall k {:trigger k in s.log} :: k in s.log ==> k.revision >= 1
  }

  ghost function Ids(rows: set<Revision>): (ids: set<RowId>)
    ensures forall k :: k in ids <==> exists r :: r in rows && Id(r) == k
  {
    set r | r in rows :: Id(r)
  }

  ghost function ChildIds(rows: set<Revision>): (ids: set<LevelId>)
    ensures forall l {:trigger l in ids} :: l in ids <==> l.row in Ids(rows)
  {
    assert forall l: LevelId :: l == LevelId(l.row, l.level);
    assert forall level: Level :: level in AllLevels() by {
      forall level: Level ensures level in AllLevels() {
        LevelIsListed(level);
      }
    }
    set k, level | k in Ids(rows) && level in AllLevels() :: LevelId(k, level)
  }

  ghost predicate AllLogged(s: Store, rows: set<Revision>) {
    forall r :: r in rows ==> Logged(s, r)
  }

  ghost predicate AllFresh(s: Store, rows: set<Revision>) {
    forall r :: r in rows ==> Logged(s, r) && Id(r) !in s.processed
  }

  ghost function LoggedAt(s: Store, k: RowId): Processed
    requires k in s.log
  {
    Processed(s.log[k], RevisionIsValid(s.log[k]))
  }

  /** All of `rows` projected at once, none of them compared with anything yet. */
  ghost function Arrived(env: Env, s: Store, rows: set<Revision>): (t: Store)
    requires AllLogged(s, rows)
    ensures t.heads == s.heads && t.log == s.log && t.live == s.live
    ensures t.processed.Keys == s.processed.Keys + Ids(rows)
    ensures forall k :: k in s.processed ==> t.processed[k] == s.processed[k]
    ensures forall k :: k in t.processed && k !in s.processed ==> k in s.log && t.processed[k] == LoggedAt(s, k)
    ensures t.levels.Keys == s.levels.Keys + ChildIds(rows)
    ensures forall l :: l in s.levels ==> t.levels[l] == s.levels[l]
    ensures forall l :: l in t.levels && l !in s.levels ==>
              l.row in s.log && t.levels[l] == DefaultChild(RecordScope(env.geography, s.log[l.row], l.level))
  {
    assert forall k :: k in Ids(rows) ==> k in s.log;
    s.(processed := map k | k in s.processed.Keys + Ids(rows) :: if k in s.processed then s.processed[k] else LoggedAt(s, k),
       levels := map l | l in s.levels.Keys + ChildIds(rows) ::
                   if l in s.levels then s.levels[l] else DefaultChild(RecordScope(env.geography, s.log[l.row], l.level)))
  }

  ghost function TouchedCells(env: Env, rows: set<Revision>): set<Cell> {
    set r, c | r in rows && c in CellsOf(env, r) :: c
  }

  /** One replay in key order of every timeline the arrivals touch. */
  ghost function ReplayArrivals(env: Env, s: Store, rows: set<Revision>): Store
    requires AllLogged(s, rows)
  {
    RepairCells(env, Arrived(env, s, rows), TouchedCells(env, rows))
  }

  ghost predicate OnNamedTimeline(env: Env, s: Store, l: LevelId) {
    OnTimeline(env, s, l) && CellAt(env, s, l).scope != ""
  }

  lemma TimelineMembershipFrame(env: Env, s: Store, t: Store, l: LevelId)
    requires s.heads == t.heads && s.processed == t.processed
    ensures OnNamedTimeline(env, s, l) <==> OnNamedTimeline(env, t, l)
  {
  }

  ghost predicate SameTables(a: Store, t: Store) {
    t.heads == a.heads && t.log == a.log && t.processed == a.processed && t.levels.Keys == a.levels.Keys
  }

  /** Nothing off a named timeline differs from `a`. */
  ghost predicate OffTimelineKept(env: Env, a: Store, t: Store) {
    && (forall l :: l in t.levels && l in a.levels && !OnNamedTimeline(env, t, l) ==> t.levels[l] == a.levels[l])
    && (forall c: Cell {:trigger Get(t.live, c)} :: c.scope == "" ==> Get(t.live, c) == Get(a.live, c))
  }

  /** The tables hold the projections of `a`, every timeline is what a replay gives, and nothing
      off a timeline has moved. */
  ghost predicate SettledOver(env: Env, a: Store, t: Store) {
    && ProjectionsMatchLog(env, t) && Consistent(env, t)
    && SameTables(a, t) && OffTimelineKept(env, a, t)
  }

  lemma SettledLevelIsUnique(env: Env, t: Store, u: Store, l: LevelId)
    requires Consistent(env, t) && Consistent(env, u)
    requires t.heads == u.heads && t.processed == u.processed
    requires l in t.levels && l in u.levels && OnNamedTimeline(env, t, l)
    ensures t.levels[l] == u.levels[l]
  {
    var c := CellAt(env, t, l);
    var r := t.processed[l.row].row;
    RowsFrame(env, t, u, c);
    assert CellConsistent(env, t, c) && CellConsistent(env, u, c);
    assert l == LevelId(Id(r), c.level) && r in Rows(env, t, c);
  }

  lemma SettledLiveIsUnique(env: Env, t: Store, u: Store, c: Cell)
    requires c.scope != "" && Consistent(env, t) && Consistent(env, u)
    requires t.heads == u.heads && t.processed == u.processed
    ensures Get(t.live, c) == Get(u.live, c)
  {
    RowsFrame(env, t, u, c);
    assert CellConsistent(env, t, c) && CellConsistent(env, u, c);
  }

  /** There is only one such table state. */
  lemma SettledIsUnique(env: Env, a: Store, t: Store, u: Store)
    requires SettledOver(env, a, t) && SettledOver(env, a, u)
    ensures t == u
  {
    forall c: Cell
      ensures Get(t.live, c) == Get(u.live, c)
    {
      if c.scope != "" {
        SettledLiveIsUnique(env, t, u, c);
      }
    }
    forall l | l in t.levels
      ensures t.levels[l] == u.levels[l]
    {
      assert OnNamedTimeline(env, t, l) <==> OnNamedTimeline(env, u, l);
      if OnNamedTimeline(env, t, l) {
        SettledLevelIsUnique(env, t, u, l);
      }
    }
    SameStore(t, u);
  }

  /** A repair of every cell that is not yet what a replay gives settles the tables. */
  lemma RepairSettles(env: Env, a: Store, cells: set<Cell>)
    requires ProjectionsMatchLog(env, a)
    requires forall c: Cell {:trigger CellConsistent(env, a, c)} :: c.scope != "" && c !in cells ==> CellConsistent(env, a, c)
    ensures SettledOver(env, a, RepairCells(env, a, cells))
  {
    var t := RepairCells(env, a, cells);
    RepairKeepsProjections(env, a, cells);
    forall c: Cell | c.scope != ""
      ensures CellConsistent(env, t, c)
    {
      RepairCell(env, a, cells, c);
    }
    assert OffTimelineKept(env, a, t) by {
      RepairKeepsOffTimeline(env, a, cells);
    }
  }

  lemma RepairKeepsOffTimeline(env: Env, a: Store, cells: set<Cell>)
    ensures OffTimelineKept(env, a, RepairCells(env, a, cells))
  {
    var t := RepairCells(env, a, cells);
    forall l | l in t.levels && !OnNamedTimeline(env, t, l)
      ensures t.levels[l] == a.levels[l]
    {
      assert t.levels[l] == ChildAfterRepair(env, a, cells, l);
    }
    forall c: Cell | c.scope == ""
      ensures Get(t.live, c) == Get(a.live, c)
    {
      assert Get(t.live, c) == LiveAfterRepair(env, a, cells, c);
    }
  }

  lemma ArrivedProjections(env: Env, s: Store, rows: set<Revision>)
    requires ProjectionsMatchLog(env, s) && AllFresh(s, rows)
    ensures ProjectionsMatchLog(env, Arrived(env, s, rows))
  {
    var a := Arrived(env, s, rows);
    forall l | l in a.levels
      ensures l.row in a.processed
      ensures a.levels[l].scope == RecordScope(env.geography, a.processed[l.row].row, l.level)
    {
      if l !in s.levels {
        assert l.row in Ids(rows);
      }
    }
  }

  lemma UntouchedTimelineArrives(env: Env, s: Store, rows: set<Revision>, c: Cell, r: Revision)
    requires ProjectionsMatchLog(env, s) && AllFresh(s, rows)
    requires c !in TouchedCells(env, rows) && c.scope != ""
    ensures Counts(env, Arrived(env, s, rows), r, c) <==> Counts(env, s, r, c)
  {
    if Counts(env, Arrived(env, s, rows), r, c) {
      assert c in CellsOf(env, r);
      assert Id(r) in Ids(rows) ==> exists x :: x in rows && Id(x) == Id(r);
      assert r in rows ==> c in TouchedCells(env, rows);
      assert Id(r) in s.processed;
    }
  }

  lemma UntouchedRowsArrive(env: Env, s: Store, rows: set<Revision>, c: Cell)
    requires ProjectionsMatchLog(env, s) && AllFresh(s, rows)
    requires c !in TouchedCells(env, rows) && c.scope != ""
    ensures Rows(env, Arrived(env, s, rows), c) == Rows(env, s, c)
  {
    forall r
      ensures Counts(env, Arrived(env, s, rows), r, c) <==> Counts(env, s, r, c)
    {
      UntouchedTimelineArrives(env, s, rows, c, r);
    }
  }

  lemma UntouchedCellArrives(env: Env, s: Store, rows: set<Revision>, c: Cell)
    requires ProjectionsMatchLog(env, s) && AllFresh(s, rows)
    requires CellConsistent(env, s, c) && c.scope != "" && c !in TouchedCells(env, rows)
    ensures CellConsistent(env, Arrived(env, s, rows), c)
  {
    UntouchedRowsArrive(env, s, rows, c);
    CellFrame(env, s, Arrived(env, s, rows), c);
  }

  lemma CellFrame(env: Env, s: Store, t: Store, c: Cell)
    requires CellConsistent(env, s, c) && Rows(env, t, c) == Rows(env, s, c) && t.live == s.live
    requires forall l :: l in s.levels ==> l in t.levels && t.levels[l] == s.levels[l]
    ensures CellConsistent(env, t, c)
  {
  }

  /** One replay of the touched timelines settles the tables over the arrivals. */
  lemma ReplayIsSettled(env: Env, s: Store, rows: set<Revision>)
    requires ProjectionsMatchLog(env, s) && Consistent(env, s) && AllFresh(s, rows)
    ensures SettledOver(env, Arrived(env, s, rows), ReplayArrivals(env, s, rows))
  {
    ArrivedProjections(env, s, rows);
    forall c: Cell | c.scope != "" && c !in TouchedCells(env, rows)
      ensures CellConsistent(env, Arrived(env, s, rows), c)
    {
      assert CellConsistent(env, s, c);
      UntouchedCellArrives(env, s, rows, c);
    }
    RepairSettles(env, Arrived(env, s, rows), TouchedCells(env, rows));
  }

  lemma UnionAssociates<T>(a: set<T>, b: set<T>, c: set<T>)
    ensures (a + b) + c == a + (b + c)
  {
  }

  lemma ArrivedOneMoreKeys(rows: set<Revision>, rev: Revision)
    ensures Ids(rows + {rev}) == Ids(rows) + {Id(rev)}
    ensures ChildIds(rows + {rev}) == ChildIds(rows) + OwnChildren(rev)
  {
    forall k
      ensures k in Ids(rows + {rev}) <==> k in Ids(rows) || k == Id(rev)
    {
      if k == Id(rev) {
        assert rev in rows + {rev};
      }
      if k in Ids(rows) {
        var r :| r in rows && Id(r) == k;
        assert r in rows + {rev};
      }
    }
  }

  lemma ArrivedOneMoreRow(env: Env, s: Store, rows: set<Revision>, rev: Revision, k: RowId)
    requires ProjectionsMatchLog(env, s) && NumberedFromOne(s) && AllFresh(s, rows) && AllLogged(s, rows + {rev})
    requires HeadAgrees(s, rev) && rev.revision == 1 && Id(rev) !in Arrived(env, s, rows).processed
    requires k in Materialized(env, Arrived(env, s, rows), rev).processed && k in Arrived(env, s, rows + {rev}).processed
    ensures Materialized(env, Arrived(env, s, rows), rev).processed[k] == Arrived(env, s, rows + {rev}).processed[k]
  {
    var a := Arrived(env, s, rows);
    assert Materialized(env, a, rev).processed[k] == ProjectionAfter(a, rev, k);
    if k == Id(rev) {
      assert k !in s.processed && s.log[k] == rev;
    } else {
      FirstSupersedesNothing(a, rev, k);
    }
  }

  /** There is no revision before a first one. */
  lemma FirstSupersedesNothing(a: Store, rev: Revision, k: RowId)
    requires NumberedFromOne(a) && rev.revision == 1 && (k in a.processed ==> k in a.log)
    ensures !IsSuperseded(a, rev, k)
  {
  }

  lemma ArrivedOneMoreChild(env: Env, s: Store, rows: set<Revision>, rev: Revision, l: LevelId)
    requires ProjectionsMatchLog(env, s) && NumberedFromOne(s) && AllFresh(s, rows) && AllLogged(s, rows + {rev})
    requires HeadAgrees(s, rev) && rev.revision == 1 && Id(rev) !in Arrived(env, s, rows).processed
    requires l in Materialized(env, Arrived(env, s, rows), rev).levels && l in Arrived(env, s, rows + {rev}).levels
    ensures Materialized(env, Arrived(env, s, rows), rev).levels[l] == Arrived(env, s, rows + {rev}).levels[l]
  {
    var a := Arrived(env, s, rows);
    assert Materialized(env, a, rev).levels[l] == ChildAfter(env, a, rev, l);
    assert l in s.levels ==> l.row in s.log;
  }

  lemma ArrivedOneMoreProcessed(env: Env, s: Store, rows: set<Revision>, rev: Revision)
    requires ProjectionsMatchLog(env, s) && NumberedFromOne(s) && AllFresh(s, rows) && AllLogged(s, rows + {rev})
    requires HeadAgrees(s, rev) && rev.revision == 1 && Id(rev) !in Arrived(env, s, rows).processed
    ensures Materialized(env, Arrived(env, s, rows), rev).processed == Arrived(env, s, rows + {rev}).processed
  {
    var m := Materialized(env, Arrived(env, s, rows), rev);
    var b := Arrived(env, s, rows + {rev});
    ArrivedOneMoreKeys(rows, rev);
    UnionAssociates(s.processed.Keys, Ids(rows), {Id(rev)});
    assert m.processed.Keys == b.processed.Keys;
    forall k | k in m.processed
      ensures m.processed[k] == b.processed[k]
    {
      ArrivedOneMoreRow(env, s, rows, rev, k);
    }
    MapsAgree(m.processed, b.processed);
  }

  lemma ArrivedOneMoreLevels(env: Env, s: Store, rows: set<Revision>, rev: Revision)
    requires ProjectionsMatchLog(env, s) && NumberedFromOne(s) && AllFresh(s, rows) && AllLogged(s, rows + {rev})
    requires HeadAgrees(s, rev) && rev.revision == 1 && Id(rev) !in Arrived(env, s, rows).processed
    ensures Materialized(env, Arrived(env, s, rows), rev).levels == Arrived(env, s, rows + {rev}).levels
  {
    var m := Materialized(env, Arrived(env, s, rows), rev);
    var b := Arrived(env, s, rows + {rev});
    ArrivedOneMoreKeys(rows, rev);
    UnionAssociates(s.levels.Keys, ChildIds(rows), OwnChildren(rev));
    assert m.levels.Keys == b.levels.Keys;
    forall l | l in m.levels
      ensures m.levels[l] == b.levels[l]
    {
      ArrivedOneMoreChild(env, s, rows, rev, l);
    }
    MapsAgree(m.levels, b.levels);
  }

  /** Projecting one more arrival after the others is projecting all of them. */
  lemma ArrivedOneMore(env: Env, s: Store, rows: set<Revision>, rev: Revision)
    requires ProjectionsMatchLog(env, s) && NumberedFromOne(s) && AllFresh(s, rows) && AllLogged(s, rows + {rev})
    requires HeadAgrees(s, rev) && rev.revision == 1 && Id(rev) !in Arrived(env, s, rows).processed
    ensures Materialized(env, Arrived(env, s, rows), rev) == Arrived(env, s, rows + {rev})
  {
    ArrivedOneMoreProcessed(env, s, rows, rev);
    ArrivedOneMoreLevels(env, s, rows, rev);
  }

  lemma MaterializedOffTimeline(env: Env, a: Store, t: Store, rev: Revision, l: LevelId)
    requires ProjectionsMatchLog(env, t) && NumberedFromOne(t) && ProjectionsMatchLog(env, a)
    requires SameTables(a, t) && OffTimelineKept(env, a, t)
    requires HeadAgrees(t, rev) && rev.revision == 1 && Id(rev) !in t.processed
    requires l in Materialized(env, t, rev).levels && !OnNamedTimeline(env, Materialized(env, t, rev), l)
    ensures l in Materialized(env, a, rev).levels
    ensures Materialized(env, t, rev).levels[l] == Materialized(env, a, rev).levels[l]
  {
    var m := Materialized(env, t, rev);
    var n := Materialized(env, a, rev);
    assert m.levels[l] == ChildAfter(env, t, rev, l) && n.levels[l] == ChildAfter(env, a, rev, l);
    if l in t.levels {
      assert l.row in t.log;
      if OnNamedTimeline(env, t, l) {
        MaterializedCounts(env, t, rev, CellAt(env, t, l), t.processed[l.row].row);
      }
    }
  }

  lemma SameProjectionsAfter(env: Env, a: Store, t: Store, rev: Revision)
    requires a.processed == t.processed
    ensures Materialized(env, a, rev).processed == Materialized(env, t, rev).processed
  {
    var m, n := Materialized(env, t, rev), Materialized(env, a, rev);
    forall k | k in m.processed
      ensures m.processed[k] == n.processed[k]
    {
      assert m.processed[k] == ProjectionAfter(t, rev, k) && n.processed[k] == ProjectionAfter(a, rev, k);
    }
    MapsAgree(m.processed, n.processed);
  }

  lemma RepairAfterMaterialize(env: Env, a: Store, t: Store, rev: Revision, cells: set<Cell>)
    requires ProjectionsMatchLog(env, t) && NumberedFromOne(t) && ProjectionsMatchLog(env, a)
    requires SameTables(a, t) && OffTimelineKept(env, a, t)
    requires HeadAgrees(t, rev) && rev.revision == 1 && Id(rev) !in t.processed
    ensures SameTables(Materialized(env, a, rev), RepairCells(env, Materialized(env, t, rev), cells))
    ensures OffTimelineKept(env, Materialized(env, a, rev), RepairCells(env, Materialized(env, t, rev), cells))
  {
    var m := Materialized(env, t, rev);
    var n := Materialized(env, a, rev);
    var u := RepairCells(env, m, cells);
    RepairKeepsOffTimeline(env, m, cells);
    SameProjectionsAfter(env, a, t, rev);
    forall l | l in u.levels && l in n.levels && !OnNamedTimeline(env, u, l)
      ensures u.levels[l] == n.levels[l]
    {
      TimelineMembershipFrame(env, u, m, l);
      MaterializedOffTimeline(env, a, t, rev, l);
    }
  }

  /** One more arrival, classified by whichever path it takes, leaves the tables settled. */
  lemma ArrivalStep(env: Env, a: Store, t: Store, rev: Revision)
    requires ProjectionsMatchLog(env, a) && NumberedFromOne(a) && SettledOver(env, a, t)
    requires HeadAgrees(t, rev) && IsHead(t, rev) && rev.revision == 1 && !IsAbsorbed(env, rev) && Id(rev) !in t.processed
    ensures SettledOver(env, Materialized(env, a, rev), Classified(env, t, rev))
  {
    FirstClassificationIsRepair(env, t, rev);
    ClassifyKeepsConsistent(env, t, rev);
    RepairAfterMaterialize(env, a, t, rev, Affected(env, Materialized(env, t, rev), rev));
  }

  lemma NewIdArrives(env: Env, s: Store, init: seq<Revision>, rev: Revision)
    requires AllFresh(s, Members(init)) && Logged(s, rev) && Id(rev) !in s.processed && rev !in init
    ensures Id(rev) !in Arrived(env, s, Members(init)).processed
  {
    forall r | r in Members(init)
      ensures Id(r) != Id(rev)
    {
      assert Logged(s, r) && Logged(s, rev);
    }
  }

  lemma SettleOneMore(env: Env, s: Store, init: seq<Revision>, rev: Revision)
    requires LogIsContiguous(s) && ProjectionsMatchLog(env, s) && AllFresh(s, Members(init))
    requires FirstArrivals(env, s, init + [rev])
    requires SettledOver(env, Arrived(env, s, Members(init)), ClassifyAll(env, s, init))
    ensures AllLogged(s, Members(init + [rev]))
    ensures SettledOver(env, Arrived(env, s, Members(init + [rev])), ClassifyAll(env, s, init + [rev]))
  {
    var order := init + [rev];
    assert order[..|order| - 1] == init && rev == order[|order| - 1] && rev in order;
    assert rev !in init by {
      assert forall i :: 0 <= i < |init| ==> order[i] == init[i];
    }
    LoggedHeadAgrees(s, rev);
    NewIdArrives(env, s, init, rev);
    ArrivedProjections(env, s, Members(init));
    ArrivalStep(env, Arrived(env, s, Members(init)), ClassifyAll(env, s, init), rev);
    MembersSnoc(init, rev);
    ArrivedOneMore(env, s, Members(init), rev);
  }

  lemma PrefixArrives(env: Env, s: Store, init: seq<Revision>, rev: Revision)
    requires FirstArrivals(env, s, init + [rev])
    ensures FirstArrivals(env, s, init)
  {
    var order := init + [rev];
    assert forall i :: 0 <= i < |init| ==> order[i] == init[i];
    assert forall r :: r in init ==> r in order;
  }

  lemma {:induction false} ArrivalsSettle(env: Env, s: Store, order: seq<Revision>)
    requires LogIsContiguous(s) && ProjectionsMatchLog(env, s) && Consistent(env, s)
    requires FirstArrivals(env, s, order)
    ensures AllFresh(s, Members(order))
    ensures SettledOver(env, Arrived(env, s, Members(order)), ClassifyAll(env, s, order))
  {
    if order == [] {
      NothingArrived(env, s);
      assert Members(order) == {};
    } else {
      var init, rev := order[..|order| - 1], order[|order| - 1];
      assert order == init + [rev];
      PrefixArrives(env, s, init, rev);
      ArrivalsSettle(env, s, init);
      SettleOneMore(env, s, init, rev);
    }
  }

  /** Classifying a set of first revisions once each, in any order, leaves the same tables: those of
      one replay of the touched timelines. */
  lemma ArrivalOrderIsReplay(env: Env, s: Store, order: seq<Revision>)
    requires LogIsContiguous(s) && ProjectionsMatchLog(env, s) && Consistent(env, s)
    requires FirstArrivals(env, s, order)
    ensures AllFresh(s, Members(order))
    ensures ClassifyAll(env, s, order) == ReplayArrivals(env, s, Members(order))
  {
    ArrivalsSettle(env, s, order);
    ReplayIsSettled(env, s, Members(order));
    SettledIsUnique(env, Arrived(env, s, Members(order)), ClassifyAll(env, s, order), ReplayArrivals(env, s, Members(order)));
  }

  lemma NothingArrived(env: Env, s: Store)
    requires ProjectionsMatchLog(env, s) && Consistent(env, s)
    ensures Arrived(env, s, {}) == s && SettledOver(env, s, s)
  {
    assert Ids({}) == {} && ChildIds({}) == {};
    assert Arrived(env, s, {}).processed == s.processed;
    assert Arrived(env, s, {}).levels == s.levels;
  }

  /** Any two arrival orders of the same results agree on every table. */
  lemma ArrivalOrdersAgree(env: Env, s: Store, a: seq<Revision>, b: seq<Revision>)
    requires LogIsContiguous(s) && ProjectionsMatchLog(env, s) && Consistent(env, s)
    requires FirstArrivals(env, s, a) && FirstArrivals(env, s, b)
    requires forall r :: r in a <==> r in b
    ensures ClassifyAll(env, s, a) == ClassifyAll(env, s, b)
  {
    ArrivalOrderIsReplay(env, s, a);
    ArrivalOrderIsReplay(env, s, b);
    assert Members(a) == Members(b);
  }
}
