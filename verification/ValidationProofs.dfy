/** Batched revalidation against one-by-one validation. */
module ValidationProofs {
  import opened RecordDomain
  import opened Evidence
  import opened RecordValidation
  import opened Reconciliation
  import opened LedgerProofs

  ghost function SetOf(ids: seq<nat>): (s: set<nat>)
    ensures forall i :: i in s <==> i in ids
  {
    set i | i in ids
  }

  predicate NoDuplicates(ids: seq<nat>) {
    forall i, j :: 0 <= i < j < |ids| ==> ids[i] != ids[j]
  }

  ghost predicate AllKnown(l: Ledger, ids: seq<nat>) {
    forall i :: i in ids ==> i in l.canonicals && i in l.log
  }

  // -------- One by one --------

  ghost function EachAlone(w: Reference, l: Ledger, ids: seq<nat>): (t: Ledger)
    requires Referential(l) && AllKnown(l, ids)
    ensures t.canonicals.Keys == l.canonicals.Keys && t.observations == l.observations && Referential(t)
    decreases |ids|
  {
    if ids == [] then l
    else ValidatedAlone(w, EachAlone(w, l, ids[..|ids| - 1]), ids[|ids| - 1])
  }

  // -------- One batch --------

  /** The batch saves a head only when its verdict differs. */
  predicate VerdictChanges(w: Reference, l: Ledger, id: nat)
    requires id in l.canonicals
  {
    Overridden(l, id) && VerdictFacts(w, l.canonicals[id].facts) != l.canonicals[id].facts
  }

  function Changing(w: Reference, l: Ledger, ids: seq<nat>): (changed: seq<nat>)
    requires forall i :: i in ids ==> i in l.canonicals
    ensures forall i :: i in changed ==> i in ids
  {
    if ids == [] then []
    else
      var id := ids[|ids| - 1];
      Changing(w, l, ids[..|ids| - 1]) + if VerdictChanges(w, l, id) then [id] else []
  }

  function EachSnapshotted(l: Ledger, ids: seq<nat>): (t: Ledger)
    requires forall i :: i in ids ==> i in l.canonicals && i in l.log
    ensures t.canonicals.Keys == l.canonicals.Keys && t.log.Keys == l.log.Keys && t.observations == l.observations
    decreases |ids|
  {
    if ids == [] then l
    else
      var t := EachSnapshotted(l, ids[..|ids| - 1]);
      Snapshotted(t, ids[|ids| - 1])
  }

  /** All rows and verdicts first, then one snapshot per changed head. */
  ghost function BatchValidated(w: Reference, l: Ledger, ids: seq<nat>): Ledger
    requires AllKnown(l, ids)
  {
    EachSnapshotted(Checked(w, l, SetOf(ids)), Changing(w, l, ids))
  }

  // -------- They agree --------

  lemma CheckNothing(w: Reference, l: Ledger)
    ensures Checked(w, l, {}) == l
  {
    forall v: ValidationId
      ensures Get(Checked(w, l, {}).validations, v) == Get(l.validations, v)
    {
      assert Get(Checked(w, l, {}).validations, v) == RowAfter(w, l, {}, v);
    }
    GetsAgree(Checked(w, l, {}).validations, l.validations);
    MapsAgree(Checked(w, l, {}).canonicals, l.canonicals);
  }

  lemma SameHeadVerdict(w: Reference, l: Ledger, t: Ledger, id: nat)
    requires id in l.canonicals && id in t.canonicals && l.observations == t.observations
    requires l.canonicals[id].facts == t.canonicals[id].facts
    ensures Judged(l, id) == Judged(t, id) && Overridden(l, id) == Overridden(t, id)
    ensures ValidatedHead(w, l, id).facts == ValidatedHead(w, t, id).facts
    ensures forall v: ValidationId :: v.result == id ==> DesiredRow(w, l, v) == DesiredRow(w, t, v)
  {
    assert ActiveKeys(l, id) == ActiveKeys(t, id);
    SameVerdict(w, l, t, id);
  }

  lemma CheckInTurnRow(w: Reference, l: Ledger, ids: set<nat>, x: nat, v: ValidationId)
    requires ids <= l.canonicals.Keys && x in l.canonicals && x !in ids
    ensures Get(Checked(w, Checked(w, l, ids), {x}).validations, v) == Get(Checked(w, l, ids + {x}).validations, v)
  {
    var m := Checked(w, l, ids);
    SameHeadVerdict(w, l, m, x);
    assert Get(Checked(w, m, {x}).validations, v) == RowAfter(w, m, {x}, v);
    assert Get(m.validations, v) == RowAfter(w, l, ids, v);
    assert Get(Checked(w, l, ids + {x}).validations, v) == RowAfter(w, l, ids + {x}, v);
  }

  lemma CheckInTurnHeads(w: Reference, l: Ledger, ids: set<nat>, x: nat)
    requires ids <= l.canonicals.Keys && x in l.canonicals && x !in ids
    ensures Checked(w, Checked(w, l, ids), {x}).canonicals == Checked(w, l, ids + {x}).canonicals
  {
    SameHeadVerdict(w, l, Checked(w, l, ids), x);
    MapsAgree(Checked(w, Checked(w, l, ids), {x}).canonicals, Checked(w, l, ids + {x}).canonicals);
  }

  /** Checking one more result is checking it afterwards. */
  lemma CheckInTurn(w: Reference, l: Ledger, ids: set<nat>, x: nat)
    requires ids <= l.canonicals.Keys && x in l.canonicals && x !in ids
    ensures Checked(w, Checked(w, l, ids), {x}) == Checked(w, l, ids + {x})
  {
    var t, u := Checked(w, Checked(w, l, ids), {x}), Checked(w, l, ids + {x});
    forall v: ValidationId
      ensures Get(t.validations, v) == Get(u.validations, v)
    {
      CheckInTurnRow(w, l, ids, x, v);
    }
    GetsAgree(t.validations, u.validations);
    CheckInTurnHeads(w, l, ids, x);
  }

  /** Any ledger that differs from `l` as a check does is that check. */
  lemma CheckedIs(w: Reference, l: Ledger, x: nat, t: Ledger)
    requires x in l.canonicals && t == l.(canonicals := t.canonicals, validations := t.validations)
    requires t.canonicals == l.canonicals[x := ValidatedHead(w, l, x)]
    requires forall v :: Get(t.validations, v) == RowAfter(w, l, {x}, v)
    ensures Checked(w, l, {x}) == t
  {
    var c := Checked(w, l, {x});
    forall v: ValidationId
      ensures Get(c.validations, v) == Get(t.validations, v)
    {
      assert Get(c.validations, v) == RowAfter(w, l, {x}, v);
    }
    GetsAgree(c.validations, t.validations);
    MapsAgree(c.canonicals, t.canonicals);
  }

  lemma CheckedOne(w: Reference, l: Ledger, x: nat)
    requires x in l.canonicals
    ensures Checked(w, l, {x}).canonicals == l.canonicals[x := ValidatedHead(w, l, x)]
  {
    MapsAgree(Checked(w, l, {x}).canonicals, l.canonicals[x := ValidatedHead(w, l, x)]);
  }

  lemma SnapshotLeavesOne(l: Ledger, j: nat, x: nat)
    requires j in l.canonicals && j in l.log && x in l.canonicals && j != x
    ensures Snapshotted(l, j).canonicals[x] == l.canonicals[x] && Snapshotted(l, j).validations == l.validations
  {
  }

  lemma SnapshotReadsOwnHead(l: Ledger, c: Ledger, j: nat, x: nat, head: Canonical)
    requires j in l.canonicals && j in l.log && j != x && x in l.canonicals
    requires c == l.(canonicals := l.canonicals[x := head], validations := c.validations)
    ensures var m, u := Snapshotted(l, j), Snapshotted(c, j);
            u == m.(canonicals := m.canonicals[x := head], validations := c.validations)
  {
    var m, u := Snapshotted(l, j), Snapshotted(c, j);
    MapsAgree(u.canonicals, m.canonicals[x := head]);
  }

  lemma SnapshotKeepsWanted(w: Reference, l: Ledger, j: nat, x: nat, v: ValidationId)
    requires j in l.canonicals && j in l.log && x in l.canonicals && j != x
    ensures RowAfter(w, Snapshotted(l, j), {x}, v) == RowAfter(w, l, {x}, v)
    ensures ValidatedHead(w, Snapshotted(l, j), x) == ValidatedHead(w, l, x)
  {
    SnapshotLeavesOne(l, j, x);
    SameHeadVerdict(w, l, Snapshotted(l, j), x);
  }

  /** Snapshots of other results commute with a check. */
  lemma CheckCommutes(w: Reference, l: Ledger, j: nat, x: nat)
    requires j in l.canonicals && j in l.log && x in l.canonicals && j != x
    ensures Checked(w, Snapshotted(l, j), {x}) == Snapshotted(Checked(w, l, {x}), j)
  {
    var m, c := Snapshotted(l, j), Checked(w, l, {x});
    var head := ValidatedHead(w, l, x);
    CheckedOne(w, l, x);
    SnapshotReadsOwnHead(l, c, j, x, head);
    forall v: ValidationId
      ensures Get(c.validations, v) == RowAfter(w, m, {x}, v)
    {
      assert Get(c.validations, v) == RowAfter(w, l, {x}, v);
      SnapshotKeepsWanted(w, l, j, x, v);
    }
    SnapshotKeepsWanted(w, l, j, x, ValidationId(x, Level.World));
    CheckedIs(w, m, x, Snapshotted(c, j));
  }

  lemma {:induction false} ChecksCommute(w: Reference, l: Ledger, ids: seq<nat>, x: nat)
    requires (forall i :: i in ids ==> i in l.canonicals && i in l.log && i != x) && x in l.canonicals
    ensures Checked(w, EachSnapshotted(l, ids), {x}) == EachSnapshotted(Checked(w, l, {x}), ids)
    decreases |ids|
  {
    if ids != [] {
      var init, j := ids[..|ids| - 1], ids[|ids| - 1];
      ChecksCommute(w, l, init, x);
      CheckCommutes(w, EachSnapshotted(l, init), j, x);
    }
  }

  lemma {:induction false} SnapshotsLeave(l: Ledger, ids: seq<nat>, x: nat)
    requires forall i :: i in ids ==> i in l.canonicals && i in l.log
    requires x in l.canonicals && x in l.log && x !in ids
    ensures var t := EachSnapshotted(l, ids); t.canonicals[x] == l.canonicals[x] && t.log[x] == l.log[x]
    decreases |ids|
  {
    if ids != [] {
      SnapshotsLeave(l, ids[..|ids| - 1], x);
    }
  }

  /** An unchanged verdict on a head in sync enqueues nothing, which is why the batch may skip it. */
  lemma UnchangedVerdictIsQuiet(w: Reference, l: Ledger, t: Ledger, id: nat)
    requires id in l.canonicals && id in l.log && Closed(l, id) && Overridden(l, id) && !VerdictChanges(w, l, id)
    requires id in t.canonicals && id in t.log && t.canonicals[id] == ValidatedHead(w, l, id) && t.log[id] == l.log[id]
    ensures Snapshotted(t, id) == t
  {
    OverriddenHasEvidence(l, id);
    SnapshotQuiet(t, id);
  }

  lemma OverriddenHasEvidence(l: Ledger, id: nat)
    requires id in l.canonicals && Overridden(l, id)
    ensures ActiveKeys(l, id) != {}
  {
    var k :| k in l.observations && l.observations[k].canonical == id && l.observations[k].active
             && l.observations[k].source == CUBINGCHINA && l.observations[k].value == l.canonicals[id].facts.value;
    assert k in ActiveKeys(l, id);
  }

  lemma ChangingStep(w: Reference, l: Ledger, init: seq<nat>, x: nat)
    requires forall i :: i in init + [x] ==> i in l.canonicals
    ensures forall i :: i in init ==> i in l.canonicals
    ensures Changing(w, l, init + [x]) == if VerdictChanges(w, l, x) then Changing(w, l, init) + [x] else Changing(w, l, init)
  {
    assert forall i :: i in init ==> i in init + [x];
    assert (init + [x])[..|init + [x]| - 1] == init && (init + [x])[|init + [x]| - 1] == x;
  }

  lemma SnapshotStep(l: Ledger, init: seq<nat>, x: nat)
    requires forall i :: i in init + [x] ==> i in l.canonicals && i in l.log
    ensures forall i :: i in init ==> i in l.canonicals && i in l.log
    ensures x in l.canonicals && x in l.log && EachSnapshotted(l, init + [x]) == Snapshotted(EachSnapshotted(l, init), x)
  {
    assert forall i :: i in init ==> i in init + [x];
    assert x in init + [x];
    assert (init + [x])[..|init + [x]| - 1] == init && (init + [x])[|init + [x]| - 1] == x;
  }

  lemma AllKnownInit(l: Ledger, init: seq<nat>, x: nat)
    requires AllKnown(l, init + [x])
    ensures AllKnown(l, init) && x in l.canonicals && x in l.log
  {
    assert forall i :: i in init ==> i in init + [x];
    assert x in init + [x];
  }

  /** Checking `x` after the batch is checking it within. */
  lemma CheckAfterBatch(w: Reference, l: Ledger, init: seq<nat>, x: nat)
    requires AllKnown(l, init) && x in l.canonicals && x in l.log && x !in init
    ensures var b, m' := BatchValidated(w, l, init), Checked(w, l, SetOf(init) + {x});
            && x in b.canonicals && x in b.log && b.observations == l.observations
            && b.canonicals[x] == l.canonicals[x] && b.log[x] == l.log[x]
            && Checked(w, b, {x}) == EachSnapshotted(m', Changing(w, l, init))
  {
    var m, changed := Checked(w, l, SetOf(init)), Changing(w, l, init);
    CheckInTurn(w, l, SetOf(init), x);
    ChecksCommute(w, m, changed, x);
    SnapshotsLeave(m, changed, x);
  }

  /** One more result: checked with the batch or on its own, the ledger is the same. */
  lemma BatchStep(w: Reference, l: Ledger, init: seq<nat>, x: nat)
    requires AllKnown(l, init + [x]) && x !in init && x in l.canonicals && x in l.log && Closed(l, x)
    ensures AllKnown(l, init) && x in BatchValidated(w, l, init).canonicals && x in BatchValidated(w, l, init).log
    ensures var b := BatchValidated(w, l, init);
            BatchValidated(w, l, init + [x]) == if Overridden(b, x) then Snapshotted(Checked(w, b, {x}), x) else Checked(w, b, {x})
  {
    AllKnownInit(l, init, x);
    var b := BatchValidated(w, l, init);
    assert SetOf(init + [x]) == SetOf(init) + {x};
    CheckAfterBatch(w, l, init, x);
    SameHeadVerdict(w, l, b, x);
    BatchWithOneMore(w, l, init, x, Checked(w, b, {x}));
  }

  /** The batch with one more result snapshots that result too, when its verdict changes. */
  lemma BatchWithOneMore(w: Reference, l: Ledger, init: seq<nat>, x: nat, c: Ledger)
    requires AllKnown(l, init + [x]) && AllKnown(l, init) && x in l.canonicals && x in l.log && Closed(l, x)
    requires SetOf(init + [x]) == SetOf(init) + {x}
    requires c == EachSnapshotted(Checked(w, l, SetOf(init) + {x}), Changing(w, l, init))
    requires x in c.canonicals && x in c.log
    requires c.canonicals[x] == ValidatedHead(w, l, x) && c.log[x] == l.log[x]
    ensures BatchValidated(w, l, init + [x]) == if Overridden(l, x) then Snapshotted(c, x) else c
  {
    ChangingStep(w, l, init, x);
    if VerdictChanges(w, l, x) {
      SnapshotStep(Checked(w, l, SetOf(init) + {x}), Changing(w, l, init), x);
    } else if Overridden(l, x) {
      UnchangedVerdictIsQuiet(w, l, c, x);
    }
  }

  /** A batch leaves the same validation rows, head verdicts, revisions and work as validating each of
      its results on its own. */
  lemma {:induction false} BatchIsEachAlone(w: Reference, l: Ledger, ids: seq<nat>)
    requires Referential(l) && AllKnown(l, ids) && NoDuplicates(ids) && AllClosed(l, ids)
    ensures BatchValidated(w, l, ids) == EachAlone(w, l, ids)
    decreases |ids|
  {
    if ids == [] {
      assert SetOf(ids) == {};
      CheckNothing(w, l);
    } else {
      var init, x := ids[..|ids| - 1], ids[|ids| - 1];
      assert ids == init + [x];
      ClosedInit(l, init, x);
      BatchStep(w, l, init, x);
      BatchIsEachAlone(w, l, init);
    }
  }

  ghost predicate AllClosed(l: Ledger, ids: seq<nat>)
    requires AllKnown(l, ids)
  {
    forall i :: i in ids ==> Closed(l, i)
  }

  lemma ClosedInit(l: Ledger, init: seq<nat>, x: nat)
    requires AllKnown(l, init + [x]) && AllClosed(l, init + [x]) && NoDuplicates(init + [x])
    ensures AllKnown(l, init) && AllClosed(l, init) && NoDuplicates(init) && x !in init
    ensures x in l.canonicals && x in l.log && Closed(l, x)
  {
    AllKnownInit(l, init, x);
    assert (init + [x])[|init|] == x;
    forall i | 0 <= i < |init|
      ensures init[i] != x && init[i] in init + [x]
    {
      assert (init + [x])[i] == init[i];
    }
    forall i, j | 0 <= i < j < |init|
      ensures init[i] != init[j]
    {
      assert (init + [x])[i] == init[i] && (init + [x])[j] == init[j];
    }
  }

  // -------- Invariant and chunking --------

  lemma CheckedOther(w: Reference, l: Ledger, id: nat, j: nat)
    requires Referential(l) && id in l.canonicals && j in l.canonicals && j != id && Closed(l, j)
    ensures Closed(Checked(w, l, {id}), j)
  {
    assert ActiveKeys(Checked(w, l, {id}), j) == ActiveKeys(l, j);
    SameResultClosed(l, Checked(w, l, {id}), j);
  }

  lemma SnapshotOther(l: Ledger, id: nat, j: nat)
    requires Referential(l) && id in l.canonicals && j in l.canonicals && j != id && Closed(l, j)
    ensures Closed(Snapshotted(l, id), j)
  {
    assert ActiveKeys(Snapshotted(l, id), j) == ActiveKeys(l, j);
    SameResultClosed(l, Snapshotted(l, id), j);
  }

  lemma AloneClosesOwn(w: Reference, l: Ledger, id: nat)
    requires Sound(l) && id in l.canonicals && Closed(l, id)
    ensures id in ValidatedAlone(w, l, id).log && Closed(ValidatedAlone(w, l, id), id)
  {
    var m := Checked(w, l, {id});
    CheckedShowsValue(w, l, {id}, id);
    CheckedSame(w, l, {id});
    if Overridden(l, id) {
      OverriddenHasEvidence(l, id);
      assert ActiveKeys(m, id) == ActiveKeys(l, id);
      assert LogWell(m, id) by {
        assert LogWell(l, id);
      }
      SnapshotCloses(m, id);
    } else {
      assert m.canonicals[id] == l.canonicals[id];
      assert ActiveKeys(m, id) == ActiveKeys(l, id);
    }
  }

  lemma AloneKeepsInv(w: Reference, l: Ledger, id: nat)
    requires LedgerInv(l) && id in l.canonicals
    ensures LedgerInv(ValidatedAlone(w, l, id))
  {
    AloneIsSound(w, l, id);
    AloneClosesOwn(w, l, id);
    forall j | j in l.canonicals && j != id
      ensures Closed(ValidatedAlone(w, l, id), j)
    {
      AloneLeavesOther(w, l, id, j);
    }
  }

  lemma AloneIsSound(w: Reference, l: Ledger, id: nat)
    requires Sound(l) && id in l.canonicals
    ensures Sound(ValidatedAlone(w, l, id))
  {
    CheckedSound(w, l, {id});
    SnapshotSound(Checked(w, l, {id}), id);
  }

  lemma AloneLeavesOther(w: Reference, l: Ledger, id: nat, j: nat)
    requires Referential(l) && id in l.canonicals && j in l.canonicals && j != id && Closed(l, j)
    ensures Closed(ValidatedAlone(w, l, id), j)
  {
    CheckedOther(w, l, id, j);
    SameEvidence(l, Checked(w, l, {id}));
    SnapshotOther(Checked(w, l, {id}), id, j);
  }

  lemma {:induction false} EachAloneKeepsInv(w: Reference, l: Ledger, ids: seq<nat>)
    requires LedgerInv(l) && AllKnown(l, ids)
    ensures LedgerInv(EachAlone(w, l, ids)) && AllKnown(EachAlone(w, l, ids), ids)
    decreases |ids|
  {
    if ids != [] {
      var init := ids[..|ids| - 1];
      assert forall i :: i in init ==> i in ids;
      EachAloneKeepsInv(w, l, init);
      AloneKeepsInv(w, EachAlone(w, l, init), ids[|ids| - 1]);
    }
  }

  lemma {:induction false} EachAloneSplits(w: Reference, l: Ledger, first: seq<nat>, rest: seq<nat>)
    requires LedgerInv(l) && AllKnown(l, first) && AllKnown(l, rest)
    ensures AllKnown(l, first + rest) && AllKnown(EachAlone(w, l, first), rest)
    ensures EachAlone(w, l, first + rest) == EachAlone(w, EachAlone(w, l, first), rest)
    decreases |rest|
  {
    EachAloneKeepsInv(w, l, first);
    if rest == [] {
      assert first + rest == first;
    } else {
      var init := rest[..|rest| - 1];
      assert (first + rest)[..|first + rest| - 1] == first + init;
      assert forall i :: i in init ==> i in rest;
      EachAloneSplits(w, l, first, init);
    }
  }

  /** The scope refresh in batches of `size`. */
  ghost function InBatches(w: Reference, l: Ledger, ids: seq<nat>, size: nat): Ledger
    requires AllKnown(l, ids) && size >= 1
    decreases |ids|
  {
    if |ids| <= size then BatchValidated(w, l, ids)
    else
      assert AllKnown(l, ids[..size]) && AllKnown(l, ids[size..]);
      InBatches(w, BatchValidated(w, l, ids[..size]), ids[size..], size)
  }

  lemma BatchOfClosed(w: Reference, l: Ledger, ids: seq<nat>)
    requires LedgerInv(l) && AllKnown(l, ids) && NoDuplicates(ids)
    ensures BatchValidated(w, l, ids) == EachAlone(w, l, ids)
    ensures LedgerInv(BatchValidated(w, l, ids))
  {
    assert AllClosed(l, ids);
    BatchIsEachAlone(w, l, ids);
    EachAloneKeepsInv(w, l, ids);
  }

  lemma BatchOff(l: Ledger, ids: seq<nat>, size: nat)
    requires AllKnown(l, ids) && NoDuplicates(ids) && size < |ids|
    ensures ids == ids[..size] + ids[size..]
    ensures AllKnown(l, ids[..size]) && AllKnown(l, ids[size..]) && NoDuplicates(ids[..size]) && NoDuplicates(ids[size..])
  {
  }

  /** A first batch, then the rest one by one. */
  lemma FirstBatch(w: Reference, l: Ledger, ids: seq<nat>, size: nat)
    requires LedgerInv(l) && AllKnown(l, ids) && NoDuplicates(ids) && size < |ids|
    ensures AllKnown(l, ids[..size])
    ensures var b := BatchValidated(w, l, ids[..size]);
            LedgerInv(b) && AllKnown(b, ids[size..]) && NoDuplicates(ids[size..]) && EachAlone(w, b, ids[size..]) == EachAlone(w, l, ids)
  {
    BatchOff(l, ids, size);
    BatchOfClosed(w, l, ids[..size]);
    EachAloneSplits(w, l, ids[..size], ids[size..]);
  }

  /** Whatever the batch size, revalidating a scope leaves what one-by-one validation leaves. */
  lemma {:induction false} BatchSizeIsInvisible(w: Reference, l: Ledger, ids: seq<nat>, size: nat)
    requires LedgerInv(l) && AllKnown(l, ids) && NoDuplicates(ids) && size >= 1
    ensures InBatches(w, l, ids, size) == EachAlone(w, l, ids)
    decreases |ids|
  {
    if |ids| <= size {
      BatchOfClosed(w, l, ids);
    } else {
      FirstBatch(w, l, ids, size);
      BatchSizeIsInvisible(w, BatchValidated(w, l, ids[..size]), ids[size..], size);
    }
  }

  // -------- Which results a scope refresh looks at --------

  predicate InScope(l: Ledger, event: string, kind: Kind, id: nat) {
    id in l.canonicals && l.canonicals[id].facts.event == event && l.canonicals[id].facts.kind == kind
  }

  /** Every result of the event and kind with an id below `n`, in id order. */
  function ScopeIds(l: Ledger, event: string, kind: Kind, n: nat): (ids: seq<nat>)
    ensures forall i: nat :: i in ids <==> i < n && InScope(l, event, kind, i)
    ensures forall i, j :: 0 <= i < j < |ids| ==> ids[i] < ids[j]
  {
    if n == 0 then []
    else
      var init := ScopeIds(l, event, kind, n - 1);
      assert forall i :: 0 <= i < |init| ==> init[i] in init;
      if InScope(l, event, kind, n - 1) then init + [n - 1] else init
  }

  /** Active CubingChina evidence, whatever its value. */
  predicate HasActiveCubingChina(l: Ledger, id: nat) {
    exists k :: k in l.observations && l.observations[k].canonical == id && l.observations[k].active && l.observations[k].source == CUBINGCHINA
  }

  predicate HasValidation(l: Ledger, id: nat) {
    exists v :: v in l.validations && v.result == id
  }

  /** The refresh selects results with active CubingChina evidence or an existing validation row. */
  predicate Selected(l: Ledger, id: nat) {
    HasActiveCubingChina(l, id) || HasValidation(l, id)
  }

  function Selection(l: Ledger, ids: seq<nat>): (selected: seq<nat>)
    ensures forall i :: i in selected <==> i in ids && Selected(l, i)
    ensures NoDuplicates(ids) ==> NoDuplicates(selected)
  {
    if ids == [] then []
    else
      var init, last := ids[..|ids| - 1], ids[|ids| - 1];
      assert ids == init + [last];
      SelectionStep(init, last, Selection(l, init));
      Selection(l, init) + if Selected(l, last) then [last] else []
  }

  lemma SelectionStep(init: seq<nat>, last: nat, selected: seq<nat>)
    requires forall i :: i in selected ==> i in init
    ensures NoDuplicates(init + [last]) ==> NoDuplicates(init) && last !in init
    ensures NoDuplicates(selected) && last !in init ==> NoDuplicates(selected + [last])
  {
    var ids := init + [last];
    assert ids[|init|] == last && forall i :: 0 <= i < |init| ==> ids[i] == init[i];
  }

  /** A result outside the selection is already as a validation would leave it. */
  lemma UnselectedIsFixed(w: Reference, l: Ledger, id: nat)
    requires Referential(l) && id in l.canonicals && !Selected(l, id)
    ensures ValidatedAlone(w, l, id) == l
  {
    var t := Checked(w, l, {id});
    assert !Judged(l, id);
    forall v: ValidationId
      ensures Get(t.validations, v) == Get(l.validations, v)
    {
      assert Get(t.validations, v) == RowAfter(w, l, {id}, v);
      assert v.result == id ==> v !in l.validations;
    }
    GetsAgree(t.validations, l.validations);
    MapsAgree(t.canonicals, l.canonicals);
  }

  lemma CheckedKeepsRows(w: Reference, l: Ledger, id: nat, j: nat)
    requires id in l.canonicals && j != id
    ensures HasValidation(Checked(w, l, {id}), j) <==> HasValidation(l, j)
  {
    var t := Checked(w, l, {id});
    forall v: ValidationId | v.result == j
      ensures v in t.validations <==> v in l.validations
    {
      assert Get(t.validations, v) == RowAfter(w, l, {id}, v);
    }
  }

  lemma SnapshotKeepsEvidence(l: Ledger, id: nat)
    requires id in l.canonicals && id in l.log
    ensures Snapshotted(l, id).validations == l.validations && Snapshotted(l, id).observations == l.observations
  {
  }

  /** Validating one result selects and deselects no other. */
  lemma AloneKeepsSelection(w: Reference, l: Ledger, id: nat, j: nat)
    requires id in l.canonicals && id in l.log && j != id && Referential(l)
    ensures Selected(ValidatedAlone(w, l, id), j) <==> Selected(l, j)
  {
    var m, t := Checked(w, l, {id}), ValidatedAlone(w, l, id);
    CheckedKeepsRows(w, l, id, j);
    SnapshotKeepsEvidence(m, id);
    assert t.validations == m.validations;
    assert HasActiveCubingChina(t, j) == HasActiveCubingChina(l, j);
  }

  lemma {:induction false} EachKeepsSelection(w: Reference, l: Ledger, ids: seq<nat>, j: nat)
    requires Referential(l) && AllKnown(l, ids) && j !in ids
    ensures Selected(EachAlone(w, l, ids), j) <==> Selected(l, j)
    decreases |ids|
  {
    if ids != [] {
      var init := ids[..|ids| - 1];
      assert forall i :: i in init ==> i in ids;
      EachKeepsSelection(w, l, init, j);
      AloneKeepsSelection(w, EachAlone(w, l, init), ids[|ids| - 1], j);
    }
  }

  lemma SelectionSnoc(l: Ledger, init: seq<nat>, last: nat)
    ensures Selection(l, init + [last]) == if Selected(l, last) then Selection(l, init) + [last] else Selection(l, init)
  {
    assert (init + [last])[..|init|] == init;
  }

  lemma EachAloneSnoc(w: Reference, l: Ledger, init: seq<nat>, last: nat)
    requires Referential(l) && AllKnown(l, init + [last])
    ensures AllKnown(l, init) && last in l.canonicals
    ensures EachAlone(w, l, init + [last]) == ValidatedAlone(w, EachAlone(w, l, init), last)
  {
    AllKnownInit(l, init, last);
    assert (init + [last])[..|init|] == init;
  }

  /** Looking only at the selected results of a scope leaves what looking at all of them would. */
  lemma {:induction false} SelectionLosesNothing(w: Reference, l: Ledger, ids: seq<nat>)
    requires Referential(l) && AllKnown(l, ids) && NoDuplicates(ids)
    ensures AllKnown(l, Selection(l, ids))
    ensures EachAlone(w, l, Selection(l, ids)) == EachAlone(w, l, ids)
    decreases |ids|
  {
    if ids != [] {
      var init, last := ids[..|ids| - 1], ids[|ids| - 1];
      assert ids == init + [last];
      SelectionStep(init, last, []);
      EachAloneSnoc(w, l, init, last);
      SelectionLosesNothing(w, l, init);
      SelectionSnoc(l, init, last);
      if Selected(l, last) {
        EachAloneSnoc(w, l, Selection(l, init), last);
      } else {
        EachKeepsSelection(w, l, init, last);
        UnselectedIsFixed(w, EachAlone(w, l, init), last);
      }
    }
  }
}
