/** When the live cells of a quiet pipeline can be wrong: exactly when some overtaken revision, better than what the
    cell should show, is replayed away by no head that arrived after it was overtaken, neither a correction nor a first
    revision that stands behind one. */
module EscapeProofs {
  import opened RecordDomain
  import opened RecordOrder
  import opened Classification
  import opened SettledProofs
  import opened RunProofs
  import opened WorkQueue
  import opened Pipeline
  import opened PipelineProofs
  import opened PipelineRuns
  import opened Schedules

  // -------- Escaping, over equal logs --------

  lemma HealsFrame(env: Env, s: Store, t: Store, order: seq<Revision>, c: Cell, g: Revision, k: Revision)
    requires SameLog(s, t) && Heals(env, t, order, c, g, k)
    ensures Heals(env, s, order, c, g, k)
  {
    TouchedFrame(env, s, t, g);
    if g.revision <= 1 {
      var p :| Corrects(env, t, c, p) && Before(g, p);
      assert Corrects(env, s, c, p);
    }
  }

  lemma EscapesFrame(env: Env, s: Store, t: Store, order: seq<Revision>, c: Cell, k: Revision)
    requires SameLog(s, t)
    ensures Escapes(env, s, order, c, k) ==> Escapes(env, t, order, c, k)
  {
    if Escapes(env, s, order, c, k) {
      var h :| Overtaken(env, s, c, h, k);
      assert Overtaken(env, t, c, h, k);
      forall g | Logged(t, g) && IsHead(t, g)
        ensures !Heals(env, t, order, c, g, k)
      {
        assert Logged(s, g) && IsHead(s, g);
        if Heals(env, t, order, c, g, k) {
          HealsFrame(env, s, t, order, c, g, k);
        }
      }
    }
  }

  lemma NothingEscapesFrame(env: Env, s: Store, t: Store, order: seq<Revision>, c: Cell)
    requires SameLog(s, t) && NothingEscapes(env, t, order, c)
    ensures NothingEscapes(env, s, order, c)
  {
    HeadRowsFrame(env, s, t, c);
    forall k | Escapes(env, s, order, c, k)
      ensures Compare(k.value, Best(Floor(env, c), HeadRows(env, s, c))) != Broken
    {
      EscapesFrame(env, s, t, order, c, k);
    }
  }

  // -------- The run that goes wrong --------

  /** `k` arrived, and was the head until the revision at position `q`. */
  ghost predicate OvertakenAt(revs: seq<Revision>, k: Revision, q: nat) {
    q < |revs| && Id(revs[q]) == RowId(k.resultId, k.revision + 1) && k in revs[..q]
  }

  lemma OvertakenSomewhere(env: Env, t: Store, revs: seq<Revision>, c: Cell, h: Revision, k: Revision) returns (q: nat)
    requires Numbered(t) && Recorded(t, revs) && Overtaken(env, t, c, h, k)
    ensures OvertakenAt(revs, k, q)
  {
    assert Id(h) in t.log;
    var next := t.log[RowId(k.resultId, k.revision + 1)];
    assert Logged(t, next) && Id(next) == RowId(k.resultId, k.revision + 1);
    q :| 0 <= q < |revs| && revs[q] == next;
    var p :| 0 <= p < |revs| && revs[p] == k;
    assert p < q;
    assert revs[..q][p] == k;
  }

  lemma StartRecorded(env: Env, revs: seq<Revision>)
    requires Chain(Start(env).store, revs)
    ensures Numbered(AppendAll(Start(env).store, revs)) && Recorded(AppendAll(Start(env).store, revs), revs)
  {
    ChainRecorded(Start(env).store, [], revs);
    assert [] + revs == revs;
  }

  lemma PrefixIsChain(s: Store, revs: seq<Revision>, q: nat)
    requires Chain(s, revs) && q < |revs|
    ensures Chain(s, revs[..q]) && IsNext(AppendAll(s, revs[..q]), revs[q])
  {
    assert revs[..q] + revs[q..] == revs;
    AppendAllConcat(s, revs[..q], revs[q..]);
  }

  /** A settled head that counts in `c` bounds the live value. */
  lemma SettledHeadBounds(env: Env, events: seq<Event>, a: Sys, c: Cell, k: Revision)
    requires Scheduled(env, events, a) && Restful(a) && c.scope != ""
    requires Logged(a.store, k) && IsHead(a.store, k) && RevisionIsValid(k) && c in Footprint(env, k) && Id(k) !in Waiting(a)
    ensures AtMost(Get(a.store.live, c), Some(k.value))
  {
    ScheduledReachable(env, events, a);
    SettledHeadCounts(env, a, c, k);
    assert Enclosed(env, a.store, PastOf(a), c);
    assert k in a.applied * Rows(env, a.store, c);
  }

  lemma SettledHeadCounts(env: Env, a: Sys, c: Cell, k: Revision)
    requires QueueInv(env, a) && Restful(a) && Id(k) !in Waiting(a)
    requires Logged(a.store, k) && IsHead(a.store, k) && RevisionIsValid(k) && c in Footprint(env, k)
    ensures k in a.applied && k in Rows(env, a.store, c)
  {
    NumberedHeads(a.store);
    assert HeadAgrees(a.store, k);
    assert Id(k) in a.work && !Unsettled(a.work[Id(k)]) && !Outdated(a.store, Id(k));
    assert Projected(a.store, Id(k));
  }

  /** Settled before `k` is overtaken: `k`, and the heads that would replay `c` or be found behind one that does. */
  ghost predicate Foregoes(env: Env, t: Store, c: Cell, k: Revision, m: Revision) {
    m == k || (IsHead(t, m) && c in Touched(env, t, m) && (m.revision > 1 || Behind(env, t, c, m)))
  }

  ghost function Foregoing(env: Env, t: Store, revs: seq<Revision>, c: Cell, k: Revision): (results: set<nat>)
    ensures forall i :: i in results <==> exists m :: m in revs && Foregoes(env, t, c, k, m) && m.resultId == i
  {
    set m | m in revs && Foregoes(env, t, c, k, m) :: m.resultId
  }

  /** Before `k` is overtaken, settle what has to come before. */
  lemma FoldIn(env: Env, t: Store, revs: seq<Revision>, c: Cell, k: Revision, q: nat) returns (events: seq<Event>, a: Sys)
    requires Chain(Start(env).store, revs) && OvertakenAt(revs, k, q) && c.scope != ""
    requires RevisionIsValid(k) && c in Footprint(env, k)
    ensures Scheduled(env, events, a) && Appends(events) == revs[..q] && Restful(a)
    ensures SameLog(a.store, AppendAll(Start(env).store, revs[..q]))
    ensures forall i :: i in Waiting(a) <==> i in Ids(revs[..q]) && i.result !in Foregoing(env, t, revs[..q], c, k)
    ensures AtMost(Get(a.store.live, c), Some(k.value))
  {
    var results := Foregoing(env, t, revs[..q], c, k);
    PrefixIsChain(Start(env).store, revs, q);
    assert Scheduled(env, [], Start(env));
    events, a := AppendMany(env, [], Start(env), revs[..q]);
    events, a := Drain(env, events, a, results, c);
    assert [] + revs[..q] == revs[..q];
    assert Foregoes(env, t, c, k, k) && k.resultId in results;
    HeadUntilOvertaken(env, a.store, revs, k, q);
    SettledHeadBounds(env, events, a, c, k);
  }

  /** Just before it is overtaken, `k` is a head. */
  lemma HeadUntilOvertaken(env: Env, s: Store, revs: seq<Revision>, k: Revision, q: nat)
    requires Chain(Start(env).store, revs) && OvertakenAt(revs, k, q) && SameLog(s, AppendAll(Start(env).store, revs[..q]))
    ensures Logged(s, k) && IsHead(s, k)
  {
    var t := AppendAll(Start(env).store, revs[..q]);
    PrefixIsChain(Start(env).store, revs, q);
    StartRecorded(env, revs[..q]);
    assert Logged(t, k) && Id(k) in t.log;
    assert revs[q].resultId == k.resultId;
  }

  // What is left to settle once everything has arrived.

  /** Every revision has arrived, and of those before position `q` exactly the foregoing results are settled. */
  ghost predicate Arrived(env: Env, a: Sys, t: Store, revs: seq<Revision>, c: Cell, k: Revision, q: nat) {
    && q <= |revs| && SameLog(a.store, t)
    && (forall r :: r in revs[q..] ==> Id(r) in Waiting(a))
    && (forall r :: r in revs[..q] ==> (Id(r) in Waiting(a) <==> r.resultId !in Foregoing(env, t, revs[..q], c, k)))
  }

  lemma HalvesJoin(revs: seq<Revision>, q: nat)
    requires q <= |revs|
    ensures revs[..q] + revs[q..] == revs
  {
  }

  lemma EitherHalf(revs: seq<Revision>, q: nat, r: Revision)
    requires q <= |revs| && r in revs
    ensures r in revs[..q] || r in revs[q..]
  {
    assert revs == revs[..q] + revs[q..];
  }

  lemma HalvesDiffer(t: Store, revs: seq<Revision>, q: nat, r: Revision, x: Revision)
    requires Recorded(t, revs) && q <= |revs| && r in revs[..q] && x in revs[q..]
    ensures Id(r) != Id(x)
  {
    var i :| 0 <= i < q && revs[..q][i] == r;
    var j :| 0 <= j < |revs[q..]| && revs[q..][j] == x;
    assert revs[i] == r && revs[q + j] == x;
  }

  lemma ArrivedAtLast(env: Env, a: Sys, b: Sys, t: Store, revs: seq<Revision>, c: Cell, k: Revision, q: nat)
    requires q <= |revs| && Recorded(t, revs) && SameLog(b.store, t)
    requires Waiting(b) == Waiting(a) + Ids(revs[q..])
    requires forall i :: i in Waiting(a) <==> i in Ids(revs[..q]) && i.result !in Foregoing(env, t, revs[..q], c, k)
    ensures Arrived(env, b, t, revs, c, k, q)
  {
    forall r | r in revs[..q]
      ensures Id(r) !in Ids(revs[q..])
    {
      forall x | x in revs[q..]
        ensures Id(r) != Id(x)
      {
        HalvesDiffer(t, revs, q, r, x);
      }
    }
  }

  lemma LaterFollowsAt(revs: seq<Revision>, k: Revision, q: nat, g: Revision)
    requires OvertakenAt(revs, k, q) && g in revs[q..]
    ensures Follows(revs, g, k)
  {
    var j :| 0 <= j < |revs[q..]| && revs[q..][j] == g;
    assert revs[q + j] == g;
  }

  /** A waiting head that reaches `c` is a first revision with no correction of `c` past it. */
  lemma WaitingIsAhead(env: Env, a: Sys, t: Store, revs: seq<Revision>, c: Cell, k: Revision, q: nat, g: Revision)
    requires g in revs && OvertakenAt(revs, k, q) && Escapes(env, t, revs, c, k) && Arrived(env, a, t, revs, c, k, q)
    requires Logged(t, g) && IsHead(t, g) && c in Touched(env, t, g) && Id(g) in Waiting(a)
    ensures g.revision <= 1 && !Behind(env, t, c, g)
  {
    EitherHalf(revs, q, g);
    assert !Heals(env, t, revs, c, g, k);
    if g in revs[..q] {
      assert g.resultId !in Foregoing(env, t, revs[..q], c, k);
      assert !Foregoes(env, t, c, k, g);
    } else {
      LaterFollowsAt(revs, k, q, g);
    }
  }

  /** The settled head of a foregoing result is the revision that made it forego, and not `k`. */
  lemma SettledHeadForegoes(env: Env, a: Sys, t: Store, revs: seq<Revision>, c: Cell, k: Revision, q: nat, r: Revision)
    requires Numbered(t) && Recorded(t, revs) && OvertakenAt(revs, k, q) && Arrived(env, a, t, revs, c, k, q)
    requires Logged(t, r) && IsHead(t, r) && Id(r) !in Waiting(a)
    ensures r.resultId != k.resultId && Foregoes(env, t, c, k, r)
  {
    assert r in revs;
    EitherHalf(revs, q, r);
    assert r.resultId in Foregoing(env, t, revs[..q], c, k);
    var m :| m in revs[..q] && Foregoes(env, t, c, k, m) && m.resultId == r.resultId;
    PrefixStopsAt(t, revs, k, q, r);
    assert m in revs;
    SameHead(t, m, r);
  }

  lemma SameHead(t: Store, m: Revision, r: Revision)
    requires Logged(t, m) && Logged(t, r) && IsHead(t, m) && IsHead(t, r) && m.resultId == r.resultId
    ensures m == r
  {
  }

  lemma PrefixStopsAt(t: Store, revs: seq<Revision>, k: Revision, q: nat, r: Revision)
    requires Numbered(t) && Recorded(t, revs) && OvertakenAt(revs, k, q) && Logged(t, r) && IsHead(t, r) && r in revs[..q]
    ensures r.resultId != k.resultId
  {
    var i :| 0 <= i < q && revs[..q][i] == r;
    assert revs[i] == r && revs[q] in revs;
    assert Logged(t, revs[q]) && Id(revs[q]) in t.log;
  }

  lemma WaitingIsUnpassed(env: Env, a: Sys, t: Store, revs: seq<Revision>, c: Cell, k: Revision, q: nat, g: Revision)
    requires Numbered(t) && Recorded(t, revs) && OvertakenAt(revs, k, q) && Arrived(env, a, t, revs, c, k, q)
    requires !Behind(env, t, c, g)
    ensures Unpassed(env, a, g)
  {
    forall r | Logged(a.store, r) && IsHead(a.store, r) && Eligible(env, r) && Before(g, r)
      ensures Id(r) in Waiting(a)
    {
      if Id(r) !in Waiting(a) {
        SettledHeadForegoes(env, a, t, revs, c, k, q, r);
        ForegoerIsPassed(env, t, c, k, g, r);
      }
    }
  }

  /** Whoever stands before a valid foregoing head stands behind a correction. */
  lemma ForegoerIsPassed(env: Env, t: Store, c: Cell, k: Revision, g: Revision, r: Revision)
    requires Logged(t, r) && Foregoes(env, t, c, k, r) && r.resultId != k.resultId && RevisionIsValid(r) && Before(g, r)
    ensures Behind(env, t, c, g)
  {
    if r.revision > 1 {
      assert Corrects(env, t, c, r);
    } else {
      var p :| Corrects(env, t, c, p) && Before(r, p);
      assert Before(g, p);
    }
  }

  /** The waiting heads that reach `c`. */
  ghost function Reaching(env: Env, a: Sys, t: Store, c: Cell): (firsts: set<Revision>)
    ensures forall g :: g in firsts <==> Logged(t, g) && IsHead(t, g) && c in Touched(env, t, g) && Id(g) in Waiting(a)
  {
    set i | i in t.log && Logged(t, t.log[i]) && IsHead(t, t.log[i]) && c in Touched(env, t, t.log[i])
            && Id(t.log[i]) in Waiting(a) :: t.log[i]
  }

  lemma ReachingAreLined(env: Env, a: Sys, t: Store, revs: seq<Revision>, c: Cell, k: Revision, q: nat)
    requires Numbered(t) && Recorded(t, revs) && OvertakenAt(revs, k, q) && Escapes(env, t, revs, c, k) && Arrived(env, a, t, revs, c, k, q)
    ensures Lined(env, a, Reaching(env, a, t, c))
  {
    forall g | g in Reaching(env, a, t, c)
      ensures Logged(a.store, g) && g.revision == 1 && Unpassed(env, a, g)
    {
      assert g in revs;
      WaitingIsAhead(env, a, t, revs, c, k, q, g);
      WaitingIsUnpassed(env, a, t, revs, c, k, q, g);
      assert Id(g) in t.log;
    }
  }

  lemma RestIsRemote(env: Env, a: Sys, b: Sys, t: Store, c: Cell)
    requires LogKeysMatch(t) && SameLog(b.store, t) && Waiting(b) <= Waiting(a)
    requires forall g :: g in Reaching(env, a, t, c) ==> Id(g) !in Waiting(b)
    ensures AllRemote(env, b.store, Waiting(b), c)
  {
    forall i | i in Waiting(b) && i in b.store.log
      ensures Remote(env, b.store, b.store.log[i], c)
    {
      TouchedFrame(env, b.store, t, t.log[i]);
      assert Logged(t, t.log[i]) && t.log[i] !in Reaching(env, a, t, c);
    }
  }

  lemma NothingWaits(a: Sys)
    requires Waiting(a) == {}
    ensures Quiescent(a)
  {
  }

  /** Once everything has arrived, settle the first revisions that reach `c` in key order, then all the rest. */
  lemma Overrun(env: Env, events: seq<Event>, a: Sys, t: Store, revs: seq<Revision>, c: Cell, k: Revision, q: nat)
      returns (events': seq<Event>, b: Sys)
    requires Scheduled(env, events, a) && Restful(a) && Arrived(env, a, t, revs, c, k, q) && c.scope != ""
    requires Numbered(t) && Recorded(t, revs) && OvertakenAt(revs, k, q) && Escapes(env, t, revs, c, k)
    ensures Scheduled(env, events', b) && Appends(events') == Appends(events) && Quiescent(b)
    ensures AtMost(Get(b.store.live, c), Get(a.store.live, c))
  {
    ReachingAreLined(env, a, t, revs, c, k, q);
    events', b := SettleInOrder(env, events, a, Reaching(env, a, t, c), c);
    RestIsRemote(env, a, b, t, c);
    var results := AllResults(Waiting(b));
    events', b := Drain(env, events', b, results, c);
    NothingWaits(b);
  }

  /** Settle, before `k` is overtaken, what would otherwise replay its cell later; let the rest arrive at once; settle the
      first revisions of the cell in key order and everything else last: an escaping revision stays in the live cell. */
  lemma EscapingRun(env: Env, revs: seq<Revision>, c: Cell, k: Revision) returns (events: seq<Event>, a: Sys)
    requires Chain(Start(env).store, revs) && c.scope != "" && Escapes(env, AppendAll(Start(env).store, revs), revs, c, k)
    ensures IsOrderlyRun(env, Start(env), events, a) && Appends(events) == revs && Quiescent(a)
    ensures AtMost(Get(a.store.live, c), Some(k.value))
  {
    var t := AppendAll(Start(env).store, revs);
    StartRecorded(env, revs);
    var q := EscapedIsOvertaken(env, t, revs, c, k);
    events, a := FoldIn(env, t, revs, c, k, q);
    RestOfChain(Start(env).store, a.store, revs, q);
    var folded := a;
    events, a := AppendMany(env, events, folded, revs[q..]);
    HalvesJoin(revs, q);
    ArrivedAtLast(env, folded, a, t, revs, c, k, q);
    events, a := Overrun(env, events, a, t, revs, c, k, q);
  }

  lemma EscapedIsOvertaken(env: Env, t: Store, revs: seq<Revision>, c: Cell, k: Revision) returns (q: nat)
    requires Numbered(t) && Recorded(t, revs) && Escapes(env, t, revs, c, k)
    ensures OvertakenAt(revs, k, q) && RevisionIsValid(k) && c in Footprint(env, k)
  {
    var h :| Overtaken(env, t, c, h, k);
    q := OvertakenSomewhere(env, t, revs, c, h, k);
  }

  lemma RestOfChain(s: Store, t: Store, revs: seq<Revision>, q: nat)
    requires Chain(s, revs) && q <= |revs| && SameLog(t, AppendAll(s, revs[..q]))
    ensures Chain(t, revs[q..]) && SameLog(AppendAll(t, revs[q..]), AppendAll(s, revs))
  {
    assert revs[..q] + revs[q..] == revs;
    AppendAllConcat(s, revs[..q], revs[q..]);
    ChainFrame(AppendAll(s, revs[..q]), t, revs[q..]);
    AppendAllFrame(AppendAll(s, revs[..q]), t, revs[q..]);
  }

  // -------- The exact condition --------

  /** Every quiet end of every run that appends exactly these revisions shows the right value in `c`. */
  ghost predicate AlwaysRight(env: Env, revs: seq<Revision>, c: Cell) {
    forall events, a :: IsRun(env, Start(env), events, a) && Appends(events) == revs && Quiescent(a) ==>
      Get(a.store.live, c) == Best(Floor(env, c), HeadRows(env, a.store, c))
  }

  lemma NothingEscapingIsRight(env: Env, revs: seq<Revision>, c: Cell)
    requires c.scope != "" && NothingEscapes(env, AppendAll(Start(env).store, revs), revs, c)
    ensures AlwaysRight(env, revs, c)
  {
    forall events, a | IsRun(env, Start(env), events, a) && Appends(events) == revs && Quiescent(a)
      ensures Get(a.store.live, c) == Best(Floor(env, c), HeadRows(env, a.store, c))
    {
      RunLog(env, Start(env), events, a);
      assert a.appended == revs;
      NothingEscapesFrame(env, a.store, AppendAll(Start(env).store, revs), revs, c);
      QuiescentLiveIsBestOfHeads(env, events, a, c);
    }
  }

  /** Every quiet end of the runs in which claims are taken in turn does. */
  ghost predicate RightInTurn(env: Env, revs: seq<Revision>, c: Cell) {
    forall events, a :: IsOrderlyRun(env, Start(env), events, a) && Appends(events) == revs && Quiescent(a) ==>
      Get(a.store.live, c) == Best(Floor(env, c), HeadRows(env, a.store, c))
  }

  lemma AlwaysRightInTurn(env: Env, revs: seq<Revision>, c: Cell)
    requires AlwaysRight(env, revs, c)
    ensures RightInTurn(env, revs, c)
  {
    forall events, a | IsOrderlyRun(env, Start(env), events, a) && Appends(events) == revs && Quiescent(a)
      ensures Get(a.store.live, c) == Best(Floor(env, c), HeadRows(env, a.store, c))
    {
      OrderlyIsRun(env, Start(env), events, a);
    }
  }

  /** If an overtaken revision that beats the right value escapes, some run, with every claim in turn, ends wrong. */
  lemma EscapeGoesWrong(env: Env, revs: seq<Revision>, c: Cell, k: Revision)
    requires Chain(Start(env).store, revs) && c.scope != "" && Escapes(env, AppendAll(Start(env).store, revs), revs, c, k)
    requires Compare(k.value, Best(Floor(env, c), HeadRows(env, AppendAll(Start(env).store, revs), c))) == Broken
    ensures !RightInTurn(env, revs, c) && !AlwaysRight(env, revs, c)
  {
    var events, a := EscapingRun(env, revs, c, k);
    OrderlyIsRun(env, Start(env), events, a);
    RunLog(env, Start(env), events, a);
    HeadRowsFrame(env, a.store, AppendAll(Start(env).store, revs), c);
    assert Get(a.store.live, c) != Best(Floor(env, c), HeadRows(env, a.store, c));
  }

  /** However many results arrive in whatever order: every run of any number of workers over these arrivals leaves the
      right live value if and only if every overtaken valid revision that beats it is replayed away by some head, of any
      result, that reaches the cell and arrived after it was overtaken: a correction, or a first revision with a key
      before that of a correction of the cell. Claiming strictly in turn makes no difference. */
  lemma AlwaysRightExactly(env: Env, revs: seq<Revision>, c: Cell)
    requires Chain(Start(env).store, revs) && c.scope != ""
    ensures AlwaysRight(env, revs, c) <==> NothingEscapes(env, AppendAll(Start(env).store, revs), revs, c)
    ensures RightInTurn(env, revs, c) <==> NothingEscapes(env, AppendAll(Start(env).store, revs), revs, c)
  {
    var t := AppendAll(Start(env).store, revs);
    if NothingEscapes(env, t, revs, c) {
      NothingEscapingIsRight(env, revs, c);
      AlwaysRightInTurn(env, revs, c);
    } else {
      var k :| Escapes(env, t, revs, c, k) && Compare(k.value, Best(Floor(env, c), HeadRows(env, t, c))) == Broken;
      EscapeGoesWrong(env, revs, c, k);
    }
  }
}
