/** One round's feed and the ledger together: deliveries reconcile and retract, other sources do the same under other
    keys and validations run in between, and the ledger always holds exactly the evidence the stored rows claim. */
module FeedToLedger {
  import opened RecordDomain
  import opened Evidence
  import R = Reconciliation
  import L = LedgerProofs
  import V = ValidationProofs
  import Runs = LedgerRuns
  import opened CubingChina
  import opened RoundFeed
  import opened Postings

  // -------- One posting --------

  ghost predicate Carries(o: Observation, d: Claim) {
    && o.source == d.source && o.channel == d.channel && o.sourceIdentity == d.sourceIdentity
    && o.kind == d.kind && o.value == d.value && o.enteredAt == d.enteredAt
  }

  /** The ledger's observation of a key is active exactly when it is posted, and then carries the posted claim. */
  ghost predicate Mirrors(obs: map<string, Observation>, book: Book, key: string) {
    && (key in obs && obs[key].active <==> key in book && book[key].active)
    && (key in obs && obs[key].active ==> Carries(obs[key], book[key].claim))
  }

  lemma MergedObservations(l: Ledger, d: Claim)
    requires R.Referential(l)
    ensures exists o: Observation :: o.active && Carries(o, d) && R.Merged(l, d).observations == l.observations[ObservationKey(d) := o]
  {
    var (l1, id) := R.Target(l, d);
    var o := R.Observed(R.ContextUpdated(l1, id, d), id, d);
    assert R.Merged(l, d).observations == l.observations[ObservationKey(d) := o];
    assert o.active && Carries(o, d);
  }

  /** Refreshing heads leaves every observation alone. */
  lemma ReconciledObservations(w: Reference, l: Ledger, d: Claim)
    requires R.Referential(l)
    ensures R.Reconciled(w, l, d).observations == R.Merged(l, d).observations
  {
    var m, id := R.Merged(l, d), R.Target(l, d).1;
    var n := R.RefreshedAndEnqueued(w, m, id);
    R.RefreshTables(w, m, id);
    R.RefreshFrame(w, m, id);
    var previous := R.PreviousResult(l, d);
    if previous.Some? && previous.value != id {
      R.RefreshTables(w, n, previous.value);
    }
  }

  lemma RetractedObservations(w: Reference, l: Ledger, key: string, observedAt: int)
    requires R.Referential(l) && key in l.observations && l.observations[key].active
    ensures R.RetractedClaim(w, l, key, observedAt).observations == R.Withdrawn(l, key, observedAt).observations
  {
    var m := R.Withdrawn(l, key, observedAt);
    R.RefreshFrame(w, m, l.observations[key].canonical);
  }

  /** Reconciling a claim makes its observation active with the claim's content and leaves every other observation alone. */
  lemma ReconcileObserves(w: Reference, l: Ledger, d: Claim, key: string)
    requires R.Referential(l)
    ensures var obs := R.Reconciled(w, l, d).observations;
            if key == ObservationKey(d) then key in obs && obs[key].active && Carries(obs[key], d)
            else Get(obs, key) == Get(l.observations, key)
  {
    ReconciledObservations(w, l, d);
    MergedObservations(l, d);
  }

  /** Retracting a key makes its observation inactive and leaves every other observation alone. */
  lemma RetractObserves(w: Reference, l: Ledger, key: string, observedAt: int, other: string)
    requires R.Referential(l)
    ensures var obs := R.RetractedClaim(w, l, key, observedAt).observations;
            if other == key then key in obs ==> !obs[key].active
            else Get(obs, other) == Get(l.observations, other)
  {
    if key in l.observations && l.observations[key].active {
      RetractedObservations(w, l, key, observedAt);
    }
  }

  /** Carrying a posting out in the ledger. */
  ghost function PlayedInLedger(w: Reference, l: Ledger, p: Posting): (t: Ledger)
    requires R.Referential(l)
    ensures R.Referential(t)
  {
    match p
    case Post(claim) => R.Reconciled(w, l, claim)
    case Drop(_, key, observedAt) => R.RetractedClaim(w, l, key, observedAt)
  }

  lemma PostingKeepsMirror(w: Reference, l: Ledger, book: Book, p: Posting, key: string)
    requires R.Referential(l) && Mirrors(l.observations, book, key)
    ensures Mirrors(PlayedInLedger(w, l, p).observations, Played(book, p), key)
  {
    match p
    case Post(claim) => ReconcileObserves(w, l, claim, key);
    case Drop(_, dropped, observedAt) => RetractObserves(w, l, dropped, observedAt, key);
  }

  ghost function PlayLedger(w: Reference, l: Ledger, ops: seq<Posting>): (t: Ledger)
    requires R.Referential(l)
    ensures R.Referential(t)
  {
    if ops == [] then l else PlayedInLedger(w, PlayLedger(w, l, ops[..|ops| - 1]), ops[|ops| - 1])
  }

  lemma {:induction false} PlayKeepsMirror(w: Reference, l: Ledger, book: Book, ops: seq<Posting>, key: string)
    requires R.Referential(l) && Mirrors(l.observations, book, key)
    ensures Mirrors(PlayLedger(w, l, ops).observations, Play(book, ops), key)
    decreases |ops|
  {
    if ops != [] {
      var init, p := ops[..|ops| - 1], ops[|ops| - 1];
      PlayKeepsMirror(w, l, book, init, key);
      PostingKeepsMirror(w, PlayLedger(w, l, init), Play(book, init), p, key);
    }
  }

  lemma {:induction false} PlayKeepsLedger(w: Reference, l: Ledger, ops: seq<Posting>)
    requires L.LedgerInv(l)
    ensures L.LedgerInv(PlayLedger(w, l, ops))
    decreases |ops|
  {
    if ops != [] {
      var m := PlayLedger(w, l, ops[..|ops| - 1]);
      PlayKeepsLedger(w, l, ops[..|ops| - 1]);
      match ops[|ops| - 1]
      case Post(claim) => L.ReconcileKeepsInv(w, m, claim);
      case Drop(_, key, observedAt) => L.RetractKeepsInv(w, m, key, observedAt);
    }
  }

  // -------- The round and the ledger together --------

  /** The ledger, the round's stored rows and processed payloads, and what it has posted. */
  datatype Joint = Joint(ledger: Ledger, view: View, book: Book)

  /** The round under study, and the result ids that belong to it. */
  datatype Scene = Scene(codes: map<string, string>, target: RoundTarget, mine: set<string>)

  /** `order` is the order in which a delivery visits the results that differ. */
  datatype Event =
    | Deliver(w: Reference, delivery: Delivery, observedAt: int, order: seq<string>)
    | Elsewhere(op: Runs.Op)

  ghost predicate IsMine(c: Scene, key: string) {
    exists id, kind :: id in c.mine && key == KeyOf(c.target, id, kind)
  }

  /** The transaction does not reconcile or retract a key of this round. */
  ghost predicate LeavesAlone(c: Scene, op: Runs.Op) {
    match op
    case Reconcile(_, claim) => !IsMine(c, ObservationKey(claim))
    case Retract(_, key, _) => !IsMine(c, key)
    case Revalidate(_, _, _) => true
  }

  function ViewAfter(c: Scene, j: Joint, d: Delivery): View {
    Delivered(c.codes, c.target, j.view, d)
  }

  ghost predicate Possible(c: Scene, j: Joint, e: Event) {
    match e
    case Deliver(w, d, observedAt, order) =>
      && R.Referential(j.ledger) && ViewAfter(c, j, d).rows.Keys <= c.mine
      && ListsChanges(j.view.rows, ViewAfter(c, j, d).rows, order)
    case Elsewhere(op) => Runs.Runnable(j.ledger, op) && LeavesAlone(c, op)
  }

  function DeliveryOps(c: Scene, j: Joint, d: Delivery, observedAt: int, order: seq<string>): seq<Posting> {
    OrderOps(c.target, j.view.rows, ViewAfter(c, j, d).rows, order, observedAt)
  }

  ghost function Following(c: Scene, j: Joint, e: Event): Joint
    requires Possible(c, j, e)
  {
    match e
    case Deliver(w, d, observedAt, order) =>
      var ops := DeliveryOps(c, j, d, observedAt, order);
      Joint(PlayLedger(w, j.ledger, ops), ViewAfter(c, j, d), Play(j.book, ops))
    case Elsewhere(op) => j.(ledger := Runs.After(j.ledger, op))
  }

  ghost predicate JointRun(c: Scene, j: Joint, events: seq<Event>, k: Joint)
    decreases |events|
  {
    if events == [] then j == k else Possible(c, j, events[0]) && JointRun(c, Following(c, j, events[0]), events[1..], k)
  }

  function Beginning(): Joint {
    Joint(Runs.Empty(), View(map[], {}), map[])
  }

  /** Every key of the round is mirrored. */
  ghost predicate AllMirrored(c: Scene, j: Joint) {
    forall id, kind {:trigger KeyOf(c.target, id, kind)} :: id in c.mine ==>
      Mirrors(j.ledger.observations, j.book, KeyOf(c.target, id, kind))
  }

  ghost predicate RoundInv(c: Scene, j: Joint) {
    && RowsKeyed(j.view.rows) && j.view.rows.Keys <= c.mine
    && InView(c.target, j.view.rows, j.book)
  }

  ghost predicate JointInv(c: Scene, j: Joint) {
    L.LedgerInv(j.ledger) && RoundInv(c, j) && AllMirrored(c, j)
  }

  lemma DeliveredKeyed(c: Scene, j: Joint, d: Delivery)
    requires RowsKeyed(j.view.rows)
    ensures RowsKeyed(ViewAfter(c, j, d).rows)
  {
  }

  lemma DeliverKeepsRound(c: Scene, j: Joint, e: Event)
    requires e.Deliver? && Possible(c, j, e) && RoundInv(c, j)
    ensures RoundInv(c, Following(c, j, e))
  {
    DeliveredKeyed(c, j, e.delivery);
    OrderOpsMove(c.target, j.view.rows, ViewAfter(c, j, e.delivery).rows, e.order, e.observedAt, j.book);
  }

  lemma DeliverKeepsMirrors(c: Scene, j: Joint, e: Event)
    requires e.Deliver? && Possible(c, j, e) && AllMirrored(c, j)
    ensures AllMirrored(c, Following(c, j, e))
  {
    forall id, kind | id in c.mine
      ensures Mirrors(Following(c, j, e).ledger.observations, Following(c, j, e).book, KeyOf(c.target, id, kind))
    {
      PlayKeepsMirror(e.w, j.ledger, j.book, DeliveryOps(c, j, e.delivery, e.observedAt, e.order), KeyOf(c.target, id, kind));
    }
  }

  lemma ElsewhereObserves(c: Scene, l: Ledger, op: Runs.Op, key: string)
    requires L.LedgerInv(l) && Runs.Runnable(l, op) && LeavesAlone(c, op) && IsMine(c, key)
    ensures Get(Runs.After(l, op).observations, key) == Get(l.observations, key)
  {
    match op
    case Reconcile(w, d) => ReconcileObserves(w, l, d, key);
    case Retract(w, dropped, observedAt) => RetractObserves(w, l, dropped, observedAt, key);
    case Revalidate(w, ids, size) => V.BatchSizeIsInvisible(w, l, ids, size);
  }

  lemma ElsewhereKeepsMirrors(c: Scene, j: Joint, e: Event)
    requires e.Elsewhere? && Possible(c, j, e) && L.LedgerInv(j.ledger) && AllMirrored(c, j)
    ensures AllMirrored(c, Following(c, j, e))
  {
    forall id, kind | id in c.mine
      ensures Mirrors(Following(c, j, e).ledger.observations, j.book, KeyOf(c.target, id, kind))
    {
      var key := KeyOf(c.target, id, kind);
      ElsewhereObserves(c, j.ledger, e.op, key);
      assert Mirrors(j.ledger.observations, j.book, key);
      SameObservation(j.ledger.observations, Following(c, j, e).ledger.observations, j.book, key);
    }
  }

  lemma SameObservation(obs: map<string, Observation>, obs': map<string, Observation>, book: Book, key: string)
    requires Mirrors(obs, book, key) && Get(obs', key) == Get(obs, key)
    ensures Mirrors(obs', book, key)
  {
  }

  lemma EventKeepsJoint(c: Scene, j: Joint, e: Event)
    requires JointInv(c, j) && Possible(c, j, e)
    ensures JointInv(c, Following(c, j, e))
  {
    match e
    case Deliver(w, d, observedAt, order) =>
      PlayKeepsLedger(w, j.ledger, DeliveryOps(c, j, d, observedAt, order));
      DeliverKeepsRound(c, j, e);
      DeliverKeepsMirrors(c, j, e);
    case Elsewhere(op) =>
      Runs.OpKeepsInv(j.ledger, op);
      ElsewhereKeepsMirrors(c, j, e);
  }

  lemma {:induction false} RunKeepsJoint(c: Scene, j: Joint, events: seq<Event>, k: Joint)
    requires JointInv(c, j) && JointRun(c, j, events, k)
    ensures JointInv(c, k)
    decreases |events|
  {
    if events != [] {
      EventKeepsJoint(c, j, events[0]);
      RunKeepsJoint(c, Following(c, j, events[0]), events[1..], k);
    }
  }

  lemma BeginningIsJoint(c: Scene)
    ensures JointInv(c, Beginning())
  {
    Runs.EmptyIsSound();
  }

  /** The claim is the row's, under the row's key. */
  ghost predicate ClaimsRow(t: RoundTarget, o: Observation, row: Row, kind: Kind) {
    && o.source == CUBINGCHINA && o.sourceIdentity == StableIdentity(t, row.resultId) && o.kind == kind
    && Some(o.value) == ClaimedValue(t, row, kind)
  }

  /** After any run of deliveries to the round, with transactions of other sources and validations in between: a
      result's observation is active in the ledger exactly when its stored row claims a value of that kind, and then
      it carries that value. */
  lemma ActiveRowsReachLedger(c: Scene, events: seq<Event>, j: Joint, id: string, kind: Kind)
    requires JointRun(c, Beginning(), events, j) && id in c.mine
    ensures var key, rows := KeyOf(c.target, id, kind), j.view.rows;
            && (key in j.ledger.observations && j.ledger.observations[key].active <==>
                id in rows && ClaimedValue(c.target, rows[id], kind).Some?)
            && (key in j.ledger.observations && j.ledger.observations[key].active ==>
                ClaimsRow(c.target, j.ledger.observations[key], rows[id], kind))
  {
    BeginningIsJoint(c);
    RunKeepsJoint(c, Beginning(), events, j);
    ShownMeansClaimed(c.target, j.view.rows, j.book, id, kind);
    assert Mirrors(j.ledger.observations, j.book, KeyOf(c.target, id, kind));
  }

  lemma ShownMeansClaimed(t: RoundTarget, rows: Rows, book: Book, id: string, kind: Kind)
    requires RowsKeyed(rows) && InView(t, rows, book)
    ensures var key := KeyOf(t, id, kind);
            && (key in book && book[key].active <==> id in rows && ClaimedValue(t, rows[id], kind).Some?)
            && (key in book && book[key].active ==>
                forall o: Observation :: Carries(o, book[key].claim) ==> ClaimsRow(t, o, rows[id], kind))
  {
    assert Shown(book, KeyOf(t, id, kind)) == Wanted(t, rows, id, kind);
  }
}
