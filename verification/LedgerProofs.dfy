/** What every reconciliation, retraction and validation keeps of the ledger, over whole runs. */
module LedgerProofs {
  import opened RecordDomain
  import opened Evidence
  import opened RecordValidation
  import opened Reconciliation

  // -------- The invariant --------

  ghost predicate KeysUnique(l: Ledger) {
    forall i, j :: i in l.canonicals && j in l.canonicals && l.canonicals[i].facts.identityKey == l.canonicals[j].facts.identityKey ==> i == j
  }

  /** A result's revisions open with ACTIVE; a retraction is followed by ACTIVE, anything else by a
      correction or a retraction. */
  ghost predicate Spells(rows: seq<Logged>) {
    && (rows != [] ==> rows[0].action == Action.Active)
    && forall i :: 0 < i < |rows| ==>
         if rows[i - 1].action == Action.Retracted then rows[i].action == Action.Active
         else rows[i].action == Action.Corrected || rows[i].action == Action.Retracted
  }

  /** Revisions are numbered 1 to head and each carries the status of its action. */
  ghost predicate RowsWell(rows: seq<Logged>) {
    && Spells(rows)
    && forall i :: 0 <= i < |rows| ==> rows[i].revision == i + 1 && rows[i].status == StatusFor(rows[i].action)
  }

  /** Exactly one work item per revision, with the revision's action. */
  ghost predicate WorkMatches(rows: seq<Logged>, work: map<RowId, Action>, id: nat) {
    && (forall n: nat {:trigger RowId(id, n)} :: RowId(id, n) in work <==> 1 <= n <= |rows|)
    && (forall n: nat {:trigger RowId(id, n)} :: 1 <= n <= |rows| ==> work[RowId(id, n)] == rows[n - 1].action)
  }

  ghost predicate LogWell(l: Ledger, id: nat) {
    && id in l.log && id in l.canonicals
    && RowsWell(l.log[id]) && WorkMatches(l.log[id], l.work, id)
    && l.canonicals[id].revision == |l.log[id]|
  }

  ghost predicate Logs(l: Ledger) {
    && (forall id :: id in l.canonicals ==> LogWell(l, id))
    && (forall k :: k in l.work ==> k.result in l.canonicals)
  }

  ghost predicate Sound(l: Ledger) {
    Referential(l) && KeysUnique(l) && Logs(l)
  }

  /** The head is RETRACTED exactly when no active observation points at it; otherwise it shows the value
      of the active observation that is greatest by trust, last observation time and id. */
  ghost predicate Shows(l: Ledger, id: nat)
    requires id in l.canonicals
  {
    var head, keys := l.canonicals[id], ActiveKeys(l, id);
    if keys == {} then
      head.status == Status.Retracted && head.current.None? && head.facts.validation == Validation.Pending && head.facts.reason == ALL_RETRACTED
    else
      && head.status != Status.Retracted && head.current.Some?
      && IsHeaviest(l.observations, keys, head.current.value)
      && head.facts.value == l.observations[head.current.value].value
  }

  /** The head is what its latest revision froze. */
  ghost predicate InSync(l: Ledger, id: nat)
    requires id in l.canonicals && id in l.log
  {
    var head, rows := l.canonicals[id], l.log[id];
    rows != [] && head.facts == rows[|rows| - 1].facts && head.status == rows[|rows| - 1].status
  }

  ghost predicate Closed(l: Ledger, id: nat)
    requires id in l.canonicals && id in l.log
  {
    Shows(l, id) && InSync(l, id)
  }

  ghost predicate LedgerInv(l: Ledger) {
    Sound(l) && forall id :: id in l.canonicals ==> Closed(l, id)
  }

  // -------- One head refreshed and snapshotted --------

  lemma SnapshotRows(head: Canonical, rows: seq<Logged>, work: map<RowId, Action>, id: nat, action: Action)
    requires RowsWell(rows) && WorkMatches(rows, work, id)
    requires NeededAction(head, rows) == Some(action)
    ensures RowsWell(rows + [NewRow(head, rows, action)])
    ensures WorkMatches(rows + [NewRow(head, rows, action)], work[RowId(id, |rows| + 1) := action], id)
  {
  }

  lemma SnapshotKeepsLogs(l: Ledger, id: nat, j: nat)
    requires LogWell(l, j) && LogWell(l, id)
    ensures LogWell(Snapshotted(l, id), j)
  {
    var head, rows := l.canonicals[id], l.log[id];
    if NeededAction(head, rows).Some? {
      var action := NeededAction(head, rows).value;
      SnapshotRows(head, rows, l.work, id, action);
      if j != id {
        forall n: nat
          ensures RowId(j, n) in Snapshotted(l, id).work <==> RowId(j, n) in l.work
          ensures RowId(j, n) in l.work ==> Snapshotted(l, id).work[RowId(j, n)] == l.work[RowId(j, n)]
        {
        }
      }
    }
  }

  /** A retracted head that is refreshed again without evidence has nothing new to freeze. */
  ghost predicate ReadyToClose(l: Ledger, id: nat)
    requires id in l.canonicals && id in l.log
  {
    ActiveKeys(l, id) == {} ==>
      && l.log[id] != []
      && (l.log[id][|l.log[id]| - 1].status == Status.Retracted ==>
            && l.canonicals[id].facts == l.log[id][|l.log[id]| - 1].facts
            && l.canonicals[id].facts.validation == Validation.Pending && l.canonicals[id].facts.reason == ALL_RETRACTED)
  }

  /** The head shows its evidence, its status aside. */
  ghost predicate ShowsValue(l: Ledger, id: nat)
    requires id in l.canonicals
  {
    var head, keys := l.canonicals[id], ActiveKeys(l, id);
    if keys == {} then head.current.None? && head.facts.validation == Validation.Pending && head.facts.reason == ALL_RETRACTED
    else head.current.Some? && IsHeaviest(l.observations, keys, head.current.value)
         && head.facts.value == l.observations[head.current.value].value
  }

  lemma RefreshedShowsValue(l: Ledger, id: nat)
    requires Referential(l) && id in l.canonicals
    ensures ShowsValue(Refreshed(l, id), id)
    ensures ReadyToClose(l, id) ==> ReadyToClose(Refreshed(l, id), id)
  {
    assert ActiveKeys(Refreshed(l, id), id) == ActiveKeys(l, id);
  }

  lemma CheckedFacts(w: Reference, l: Ledger, ids: set<nat>, id: nat)
    requires ids <= l.canonicals.Keys && id in l.canonicals
    ensures var t := Checked(w, l, ids);
            && t.canonicals[id].facts == l.canonicals[id].facts.(validation := t.canonicals[id].facts.validation, reason := t.canonicals[id].facts.reason)
            && t.canonicals[id] == l.canonicals[id].(facts := t.canonicals[id].facts)
            && (ActiveKeys(l, id) == {} ==> t.canonicals[id] == l.canonicals[id])
  {
    if Judged(l, id) {
      var k :| k in l.observations && l.observations[k].canonical == id && l.observations[k].active
               && l.observations[k].source == CUBINGCHINA && l.observations[k].value == l.canonicals[id].facts.value;
      assert k in ActiveKeys(l, id);
    }
  }

  lemma CheckedShowsValue(w: Reference, l: Ledger, ids: set<nat>, id: nat)
    requires ids <= l.canonicals.Keys && id in l.canonicals && id in l.log && ShowsValue(l, id)
    ensures ShowsValue(Checked(w, l, ids), id)
    ensures ReadyToClose(l, id) ==> ReadyToClose(Checked(w, l, ids), id)
  {
    CheckedFacts(w, l, ids, id);
    assert ActiveKeys(Checked(w, l, ids), id) == ActiveKeys(l, id);
  }

  lemma SnapshotCloses(l: Ledger, id: nat)
    requires LogWell(l, id) && ShowsValue(l, id) && ReadyToClose(l, id)
    ensures Closed(Snapshotted(l, id), id)
  {
    assert ActiveKeys(Snapshotted(l, id), id) == ActiveKeys(l, id);
  }

  /** Same evidence, heads and revisions for result `j`. */
  ghost predicate SameResult(l: Ledger, t: Ledger, j: nat) {
    && j in l.canonicals && j in t.canonicals && j in l.log && j in t.log
    && t.canonicals[j] == l.canonicals[j] && t.log[j] == l.log[j]
    && ActiveKeys(t, j) == ActiveKeys(l, j)
    && forall k :: k in ActiveKeys(l, j) ==> t.observations[k] == l.observations[k]
  }

  lemma SameResultClosed(l: Ledger, t: Ledger, j: nat)
    requires SameResult(l, t, j) && Closed(l, j)
    ensures Closed(t, j)
  {
    if ActiveKeys(l, j) != {} {
      var h := l.canonicals[j].current.value;
      assert h in ActiveKeys(l, j);
      forall k | k in ActiveKeys(t, j) && k in t.observations
        ensures k == h || Outweighs(t.observations[h], t.observations[k])
      {
      }
    }
  }

  lemma RefreshLeavesOthers(w: Reference, l: Ledger, id: nat, j: nat)
    requires Referential(l) && id in l.canonicals && j in l.canonicals && j != id
    ensures SameResult(l, RefreshedAndEnqueued(w, l, id), j)
  {
    RefreshLeavesRow(w, l, id, j);
    SameObservationsKeys(l, RefreshedAndEnqueued(w, l, id), j);
  }

  ghost predicate SameRow(l: Ledger, t: Ledger, j: nat) {
    && j in l.canonicals && j in t.canonicals && t.canonicals[j] == l.canonicals[j]
    && j in l.log && j in t.log && t.log[j] == l.log[j] && t.observations == l.observations
  }

  lemma RefreshedSameRow(l: Ledger, id: nat, j: nat)
    requires id in l.canonicals && PksDiffer(l.observations) && j in l.canonicals && j in l.log && j != id
    ensures SameRow(l, Refreshed(l, id), j)
  {
  }

  lemma LatestSameRow(w: Reference, l: Ledger, id: nat, j: nat)
    requires id in l.canonicals && j in l.canonicals && j in l.log && j != id
    ensures SameRow(l, ValidatedLatest(w, l, id), j)
  {
  }

  lemma SnapshotSameRow(l: Ledger, id: nat, j: nat)
    requires id in l.canonicals && id in l.log && j in l.canonicals && j in l.log && j != id
    ensures SameRow(l, Snapshotted(l, id), j)
  {
  }

  lemma RefreshLeavesRow(w: Reference, l: Ledger, id: nat, j: nat)
    requires id in l.canonicals && id in l.log && PksDiffer(l.observations) && j in l.canonicals && j in l.log && j != id
    ensures SameRow(l, RefreshedAndEnqueued(w, l, id), j)
  {
    RefreshedSameRow(l, id, j);
    LatestSameRow(w, Refreshed(l, id), id, j);
    SnapshotSameRow(ValidatedLatest(w, Refreshed(l, id), id), id, j);
  }

  lemma SameObservationsKeys(l: Ledger, t: Ledger, j: nat)
    requires l.observations == t.observations
    ensures ActiveKeys(t, j) == ActiveKeys(l, j)
    ensures forall k :: k in ActiveKeys(l, j) ==> k in t.observations && t.observations[k] == l.observations[k]
  {
  }

  ghost predicate SameKeys(l: Ledger, t: Ledger) {
    && t.canonicals.Keys == l.canonicals.Keys
    && forall i :: i in l.canonicals ==> t.canonicals[i].facts.identityKey == l.canonicals[i].facts.identityKey
  }

  lemma SameKeysUnique(l: Ledger, t: Ledger)
    requires KeysUnique(l) && SameKeys(l, t)
    ensures KeysUnique(t)
  {
  }

  ghost predicate SameLogs(l: Ledger, t: Ledger) {
    && t.canonicals.Keys == l.canonicals.Keys && t.log == l.log && t.work == l.work
    && forall i :: i in l.canonicals ==> t.canonicals[i].revision == l.canonicals[i].revision
  }

  lemma SameLogsWell(l: Ledger, t: Ledger)
    requires Logs(l) && SameLogs(l, t)
    ensures Logs(t)
  {
    forall id | id in t.canonicals
      ensures LogWell(t, id)
    {
      assert LogWell(l, id);
    }
  }

  lemma RefreshedSame(l: Ledger, id: nat)
    requires id in l.canonicals && PksDiffer(l.observations)
    ensures SameKeys(l, Refreshed(l, id)) && SameLogs(l, Refreshed(l, id))
  {
  }

  lemma CheckedSame(w: Reference, l: Ledger, ids: set<nat>)
    requires ids <= l.canonicals.Keys
    ensures SameKeys(l, Checked(w, l, ids)) && SameLogs(l, Checked(w, l, ids))
  {
    forall i | i in l.canonicals
      ensures Checked(w, l, ids).canonicals[i].facts.identityKey == l.canonicals[i].facts.identityKey
      ensures Checked(w, l, ids).canonicals[i].revision == l.canonicals[i].revision
    {
      CheckedFacts(w, l, ids, i);
    }
  }

  lemma SnapshotSame(l: Ledger, id: nat)
    requires id in l.canonicals && id in l.log
    ensures SameKeys(l, Snapshotted(l, id))
  {
  }

  lemma SnapshotLogs(l: Ledger, id: nat)
    requires Logs(l) && id in l.canonicals
    ensures Logs(Snapshotted(l, id))
  {
    var t := Snapshotted(l, id);
    assert LogWell(l, id);
    forall j | j in t.canonicals
      ensures LogWell(t, j)
    {
      assert LogWell(l, j);
      SnapshotKeepsLogs(l, id, j);
    }
  }

  /** Refreshing and snapshotting a head keeps the tables sound and closes that head. */
  lemma RefreshCloses(w: Reference, l: Ledger, id: nat)
    requires Sound(l) && id in l.canonicals && ReadyToClose(l, id)
    ensures Sound(RefreshedAndEnqueued(w, l, id)) && Closed(RefreshedAndEnqueued(w, l, id), id)
  {
    var v := ValidatedLatest(w, Refreshed(l, id), id);
    ValidatedIsSound(w, l, id);
    ValidatedShowsValue(w, l, id);
    SnapshotSound(v, id);
    assert LogWell(v, id);
    SnapshotCloses(v, id);
  }

  /** Refreshing and validating keeps the tables sound. */
  lemma ValidatedIsSound(w: Reference, l: Ledger, id: nat)
    requires Sound(l) && id in l.canonicals
    ensures Sound(ValidatedLatest(w, Refreshed(l, id), id))
  {
    RefreshSound(l, id);
    LatestIsSound(w, Refreshed(l, id), id);
  }

  lemma LatestIsSound(w: Reference, l: Ledger, id: nat)
    requires Sound(l) && id in l.canonicals
    ensures Sound(ValidatedLatest(w, l, id))
  {
    if w.snapshot.Some? {
      CheckedSound(w, l, {id});
    }
  }

  /** Refreshing and validating makes the head show its evidence. */
  lemma ValidatedShowsValue(w: Reference, l: Ledger, id: nat)
    requires Referential(l) && id in l.canonicals && ReadyToClose(l, id)
    ensures var v := ValidatedLatest(w, Refreshed(l, id), id);
            id in v.canonicals && id in v.log && ShowsValue(v, id) && ReadyToClose(v, id)
  {
    RefreshedShowsValue(l, id);
    if w.snapshot.Some? {
      CheckedShowsValue(w, Refreshed(l, id), {id}, id);
    }
  }

  lemma RefreshSound(l: Ledger, id: nat)
    requires Sound(l) && id in l.canonicals
    ensures Sound(Refreshed(l, id))
  {
    var r := Refreshed(l, id);
    RefreshedSame(l, id);
    SameEvidence(l, r);
    SameKeysUnique(l, r);
    SameLogsWell(l, r);
  }

  lemma CheckedSound(w: Reference, l: Ledger, ids: set<nat>)
    requires Sound(l) && ids <= l.canonicals.Keys
    ensures Sound(Checked(w, l, ids))
  {
    CheckedSame(w, l, ids);
    SameEvidence(l, Checked(w, l, ids));
    SameKeysUnique(l, Checked(w, l, ids));
    SameLogsWell(l, Checked(w, l, ids));
  }

  lemma SnapshotReferential(l: Ledger, id: nat)
    requires Referential(l) && id in l.canonicals
    ensures Referential(Snapshotted(l, id))
  {
    SameEvidence(l, Snapshotted(l, id));
  }

  lemma SnapshotSound(l: Ledger, id: nat)
    requires Sound(l) && id in l.canonicals
    ensures Sound(Snapshotted(l, id))
  {
    SnapshotReferential(l, id);
    SnapshotSame(l, id);
    SameKeysUnique(l, Snapshotted(l, id));
    SnapshotLogs(l, id);
  }

  // -------- Storing a claim --------

  lemma CreatedKeys(l: Ledger, d: Claim)
    requires KeysUnique(l) && ByIdentity(l, ProposedKey(d)).None?
    ensures KeysUnique(Created(l, d))
  {
  }

  lemma CreatedLogs(l: Ledger, d: Claim)
    requires Logs(l) && l.nextId !in l.canonicals
    ensures Logs(Created(l, d))
  {
    var t := Created(l, d);
    forall j | j in t.canonicals
      ensures LogWell(t, j)
    {
      if j in l.canonicals {
        assert LogWell(l, j);
      } else {
        forall n: nat
          ensures RowId(j, n) !in l.work
        {
          assert RowId(j, n).result == j;
        }
      }
    }
  }

  lemma CreatedOthers(l: Ledger, d: Claim, j: nat)
    requires Referential(l) && j in l.canonicals
    ensures SameResult(l, Created(l, d), j)
  {
    assert ActiveKeys(Created(l, d), j) == ActiveKeys(l, j);
  }

  lemma Unmoved(l: Ledger, j: nat)
    requires Referential(l) && j in l.canonicals
    ensures SameResult(l, l, j)
  {
  }

  lemma LocatedSound(l: Ledger, d: Claim)
    requires Sound(l)
    ensures Sound(Located(l, d).0) && Located(l, d).1 in Located(l, d).0.canonicals
    ensures forall j :: j in l.canonicals ==> SameResult(l, Located(l, d).0, j)
  {
    Locates(l, d);
    if Found(l, d).None? && ByIdentity(l, ProposedKey(d)).None? {
      CreatedKeys(l, d);
      CreatedLogs(l, d);
    }
    forall j | j in l.canonicals
      ensures SameResult(l, Located(l, d).0, j)
    {
      CreatedOthers(l, d, j);
      Unmoved(l, j);
    }
  }

  lemma RekeyedKeys(l: Ledger, id: nat, key: string)
    requires KeysUnique(l) && id in l.canonicals && ByIdentity(l, key).None?
    ensures KeysUnique(Rekeyed(l, id, key))
  {
  }

  /** Replacing the facts of one head leaves the evidence, the logs and the other results alone. */
  lemma HeadReplaced(l: Ledger, id: nat, head: Canonical)
    requires Referential(l) && Logs(l) && id in l.canonicals && head.revision == l.canonicals[id].revision
    ensures Referential(WithHead(l, id, head)) && Logs(WithHead(l, id, head))
    ensures forall j :: j in l.canonicals && j != id ==> SameResult(l, WithHead(l, id, head), j)
    ensures ActiveKeys(WithHead(l, id, head), id) == ActiveKeys(l, id)
  {
    var t := WithHead(l, id, head);
    SameEvidence(l, t);
    SameLogsWell(l, t);
    forall j | j in l.canonicals && j != id
      ensures SameResult(l, t, j)
    {
      assert ActiveKeys(t, j) == ActiveKeys(l, j);
    }
  }

  lemma ResolvedSound(l: Ledger, id: nat, d: Claim)
    requires Sound(l) && id in l.canonicals
    ensures var r := Resolved(l, id, d);
            && Sound(r.0) && r.1 in r.0.canonicals
            && forall j :: j in l.canonicals && j != r.1 ==> SameResult(l, r.0, j)
  {
    if NaturalHolder(l, d).None? && Upgradable(l, id, d) {
      var key := NaturalKey(d).value;
      RekeyedKeys(l, id, key);
      HeadReplaced(l, id, l.canonicals[id].(facts := l.canonicals[id].facts.(identityKey := key)));
    } else {
      forall j | j in l.canonicals
        ensures SameResult(l, l, j)
      {
        Unmoved(l, j);
      }
    }
  }

  lemma ObservationReferential(l: Ledger, id: nat, d: Claim)
    requires Referential(l) && id in l.canonicals
    ensures Referential(WithObservation(l, id, d))
  {
  }

  lemma ObservationOthers(l: Ledger, id: nat, d: Claim, j: nat)
    requires Referential(l) && id in l.canonicals && j in l.canonicals && j != id && PreviousResult(l, d) != Some(j)
    ensures SameResult(l, WithObservation(l, id, d), j)
  {
    assert ActiveKeys(WithObservation(l, id, d), j) == ActiveKeys(l, j);
  }

  lemma SameResultTrans(l: Ledger, m: Ledger, t: Ledger, j: nat)
    requires SameResult(l, m, j) && SameResult(m, t, j)
    ensures SameResult(l, t, j)
  {
  }

  lemma StoredOthers(l: Ledger, id: nat, d: Claim, j: nat)
    requires Referential(l) && Logs(l) && id in l.canonicals && j in l.canonicals && j != id && PreviousResult(l, d) != Some(j)
    ensures SameResult(l, WithObservation(ContextUpdated(l, id, d), id, d), j)
  {
    var m := ContextUpdated(l, id, d);
    HeadReplaced(l, id, m.canonicals[id]);
    ObservationOthers(m, id, d, j);
    SameResultTrans(l, m, WithObservation(m, id, d), j);
  }

  ghost function Stored(l: Ledger, id: nat, d: Claim): Ledger
    requires id in l.canonicals
  {
    WithObservation(ContextUpdated(l, id, d), id, d)
  }

  lemma StoredTables(l: Ledger, id: nat, d: Claim)
    requires id in l.canonicals
    ensures SameKeys(l, Stored(l, id, d)) && SameLogs(l, Stored(l, id, d))
    ensures ActiveKeys(Stored(l, id, d), id) != {}
  {
    assert ObservationKey(d) in ActiveKeys(Stored(l, id, d), id);
  }

  lemma StoredReferential(l: Ledger, id: nat, d: Claim)
    requires Referential(l) && id in l.canonicals
    ensures Referential(Stored(l, id, d))
  {
    var m := ContextUpdated(l, id, d);
    SameEvidence(l, m);
    ObservationReferential(m, id, d);
  }

  lemma StoredSound(l: Ledger, id: nat, d: Claim)
    requires Sound(l) && id in l.canonicals
    ensures Sound(Stored(l, id, d))
  {
    StoredTables(l, id, d);
    StoredReferential(l, id, d);
    SameKeysUnique(l, Stored(l, id, d));
    SameLogsWell(l, Stored(l, id, d));
  }

  /** Storing a claim leaves the tables sound and gives its target active evidence. */
  lemma MergedSound(l: Ledger, d: Claim)
    requires Sound(l)
    ensures Sound(Merged(l, d)) && Target(l, d).1 in Merged(l, d).canonicals
    ensures ActiveKeys(Merged(l, d), Target(l, d).1) != {}
  {
    var (l1, id1) := Located(l, d);
    LocatedSound(l, d);
    ResolvedSound(l1, id1, d);
    var (l2, id) := Resolved(l1, id1, d);
    StoredSound(l2, id, d);
    StoredTables(l2, id, d);
  }

  /** Every result but the one the claim joins and the one it leaves is untouched. */
  lemma MergedOthers(l: Ledger, d: Claim, j: nat)
    requires Sound(l) && j in l.canonicals && j !in Disturbed(l, d)
    ensures SameResult(l, Merged(l, d), j)
  {
    var (l1, id1) := Located(l, d);
    LocatedSound(l, d);
    ResolvedSound(l1, id1, d);
    var (l2, id) := Resolved(l1, id1, d);
    assert SameResult(l, l1, j) && SameResult(l1, l2, j);
    StoredOthers(l2, id, d, j);
    SameResultTrans(l, l1, l2, j);
    SameResultTrans(l, l2, Merged(l, d), j);
  }

  /** The results a claim disturbs: the one it joins and the one it leaves. */
  ghost function Disturbed(l: Ledger, d: Claim): set<nat>
    requires Referential(l)
  {
    {Target(l, d).1} + if PreviousResult(l, d).Some? then {PreviousResult(l, d).value} else {}
  }

  // -------- Transactions --------

  ghost predicate ClosedExcept(l: Ledger, open: set<nat>) {
    && l.log.Keys == l.canonicals.Keys
    && forall j :: j in l.canonicals && j !in open ==> Closed(l, j)
  }

  /** Whatever is created is the claim's own target. */
  lemma TargetKeys(l: Ledger, d: Claim)
    requires Sound(l)
    ensures Target(l, d).0.canonicals.Keys <= l.canonicals.Keys + {Target(l, d).1}
  {
    var (l1, id) := Located(l, d);
    if Found(l, d).None? && ByIdentity(l, ProposedKey(d)).None? {
      CreatedKeys(l, d);
      assert l1.canonicals[l.nextId].facts.identityKey == ProposedKey(d);
      assert NaturalKey(d).Some? ==> ByIdentity(l1, ProposedKey(d)).Some?;
    }
  }

  lemma MergedClosed(l: Ledger, d: Claim)
    requires LedgerInv(l)
    ensures Sound(Merged(l, d)) && ClosedExcept(Merged(l, d), Disturbed(l, d))
  {
    var m := Merged(l, d);
    MergedSound(l, d);
    TargetKeys(l, d);
    forall j | j in m.canonicals && j !in Disturbed(l, d)
      ensures Closed(m, j)
    {
      MergedOthers(l, d, j);
      SameResultClosed(l, m, j);
    }
  }

  lemma TargetKeepsHeads(l: Ledger, d: Claim, j: nat)
    requires Sound(l) && j in l.canonicals && j != Target(l, d).1
    ensures SameResult(l, Target(l, d).0, j)
  {
    var (l1, id1) := Located(l, d);
    LocatedSound(l, d);
    ResolvedSound(l1, id1, d);
    SameResultTrans(l, l1, Target(l, d).0, j);
  }

  /** Heads and logs of every result but the target survive storing a claim. */
  lemma MergedKeepsHeads(l: Ledger, d: Claim, j: nat)
    requires Sound(l) && j in l.canonicals && j != Target(l, d).1
    ensures var m := Merged(l, d);
            j in m.canonicals && j in m.log && m.canonicals[j] == l.canonicals[j] && m.log[j] == l.log[j]
  {
    TargetKeepsHeads(l, d, j);
  }

  /** The result a claim leaves can be refreshed: if it is already retracted it has nothing new to say. */
  lemma LeftResultIsReady(l: Ledger, d: Claim, j: nat)
    requires LedgerInv(l) && j in l.canonicals && j != Target(l, d).1
    ensures j in Merged(l, d).canonicals && j in Merged(l, d).log && ReadyToClose(Merged(l, d), j)
  {
    MergedKeepsHeads(l, d, j);
    assert Closed(l, j);
  }

  lemma ReadyFrame(l: Ledger, t: Ledger, j: nat)
    requires SameResult(l, t, j) && ReadyToClose(l, j)
    ensures ReadyToClose(t, j)
  {
  }

  lemma OtherStaysClosed(w: Reference, l: Ledger, id: nat, j: nat)
    requires Referential(l) && id in l.canonicals && j in l.canonicals && j != id && Closed(l, j)
    ensures j in RefreshedAndEnqueued(w, l, id).canonicals && j in RefreshedAndEnqueued(w, l, id).log
    ensures Closed(RefreshedAndEnqueued(w, l, id), j)
  {
    RefreshLeavesOthers(w, l, id, j);
    SameResultClosed(l, RefreshedAndEnqueued(w, l, id), j);
  }

  /** Closing one head shrinks the set of open ones. */
  lemma CloseOne(w: Reference, l: Ledger, open: set<nat>, id: nat)
    requires Referential(l) && ClosedExcept(l, open) && id in l.canonicals
    requires var t := RefreshedAndEnqueued(w, l, id); t.canonicals.Keys == l.canonicals.Keys && t.log.Keys == l.log.Keys && Closed(t, id)
    ensures ClosedExcept(RefreshedAndEnqueued(w, l, id), open - {id})
  {
    forall j | j in l.canonicals && j !in open - {id} && j != id
      ensures j in RefreshedAndEnqueued(w, l, id).canonicals && Closed(RefreshedAndEnqueued(w, l, id), j)
    {
      OtherStaysClosed(w, l, id, j);
    }
  }

  lemma CloseNext(w: Reference, l: Ledger, open: set<nat>, id: nat)
    requires Sound(l) && ClosedExcept(l, open) && id in l.canonicals && ReadyToClose(l, id)
    ensures Sound(RefreshedAndEnqueued(w, l, id)) && ClosedExcept(RefreshedAndEnqueued(w, l, id), open - {id})
  {
    RefreshTables(w, l, id);
    RefreshCloses(w, l, id);
    CloseOne(w, l, open, id);
  }

  /** Every reconciliation keeps the ledger: identity upgrades and moves of evidence included. */
  lemma ReconcileKeepsInv(w: Reference, l: Ledger, d: Claim)
    requires LedgerInv(l)
    ensures LedgerInv(Reconciled(w, l, d))
  {
    var id := Target(l, d).1;
    var m := Merged(l, d);
    var n := RefreshedAndEnqueued(w, m, id);
    var previous := PreviousResult(l, d);
    MergedSound(l, d);
    MergedClosed(l, d);
    CloseNext(w, m, Disturbed(l, d), id);
    if previous.Some? && previous.value != id {
      LeftResultIsReady(l, d, previous.value);
      RefreshLeavesOthers(w, m, id, previous.value);
      ReadyFrame(m, n, previous.value);
      RefreshFrame(w, m, id);
      CloseNext(w, n, Disturbed(l, d) - {id}, previous.value);
    }
  }

  lemma WithdrawnSound(l: Ledger, key: string, observedAt: int)
    requires Sound(l) && key in l.observations
    ensures Sound(Withdrawn(l, key, observedAt))
  {
    var t := Withdrawn(l, key, observedAt);
    WithdrawnReferential(l, key, observedAt);
    WithdrawnSame(l, key, observedAt);
    SameKeysUnique(l, t);
    SameLogsWell(l, t);
  }

  lemma WithdrawnReferential(l: Ledger, key: string, observedAt: int)
    requires Referential(l) && key in l.observations
    ensures Referential(Withdrawn(l, key, observedAt))
  {
  }

  lemma WithdrawnSame(l: Ledger, key: string, observedAt: int)
    requires key in l.observations
    ensures SameKeys(l, Withdrawn(l, key, observedAt)) && SameLogs(l, Withdrawn(l, key, observedAt))
  {
  }

  lemma WithdrawnOthers(l: Ledger, key: string, observedAt: int, j: nat)
    requires key in l.observations && j in l.canonicals && j in l.log && j != l.observations[key].canonical
    ensures SameResult(l, Withdrawn(l, key, observedAt), j)
  {
    assert ActiveKeys(Withdrawn(l, key, observedAt), j) == ActiveKeys(l, j);
  }

  lemma RetractKeepsInv(w: Reference, l: Ledger, key: string, observedAt: int)
    requires LedgerInv(l)
    ensures LedgerInv(RetractedClaim(w, l, key, observedAt))
  {
    if key in l.observations && l.observations[key].active {
      var id := l.observations[key].canonical;
      var m := Withdrawn(l, key, observedAt);
      WithdrawnSound(l, key, observedAt);
      assert key in ActiveKeys(l, id);
      assert Closed(l, id);
      forall j | j in m.canonicals && j != id
        ensures Closed(m, j)
      {
        WithdrawnOthers(l, key, observedAt, j);
        SameResultClosed(l, m, j);
      }
      CloseNext(w, m, {id}, id);
    }
  }

  // -------- Repeating a reconciliation --------

  /** Refreshing and validating the head again would change nothing. */
  ghost predicate Fixed(w: Reference, l: Ledger, id: nat)
    requires id in l.canonicals && PksDiffer(l.observations)
  {
    var r := Refreshed(l, id);
    if w.snapshot.None? then r == l else Checked(w, r, {id}) == l
  }

  lemma SnapshotQuiet(l: Ledger, id: nat)
    requires id in l.canonicals && id in l.log && InSync(l, id)
    requires l.canonicals[id].current.Some? && l.canonicals[id].status != Status.Retracted
    ensures Snapshotted(l, id) == l
  {
    assert NeededAction(l.canonicals[id], l.log[id]).None?;
    assert l.canonicals[id := l.canonicals[id]] == l.canonicals;
  }

  lemma FixedIsQuiet(w: Reference, l: Ledger, id: nat)
    requires id in l.canonicals && id in l.log && PksDiffer(l.observations)
    requires Closed(l, id) && Fixed(w, l, id) && ActiveKeys(l, id) != {}
    ensures RefreshedAndEnqueued(w, l, id) == l
  {
    SnapshotQuiet(l, id);
  }

  /** Two ledgers give a result the same evidence. */
  ghost predicate SameEvidenceFor(l: Ledger, t: Ledger, id: nat) {
    ActiveKeys(l, id) == ActiveKeys(t, id) && forall k :: k in ActiveKeys(l, id) ==> l.observations[k] == t.observations[k]
  }

  lemma SameHeaviest(l: Ledger, t: Ledger, id: nat)
    requires SameEvidenceFor(l, t, id) && ActiveKeys(l, id) != {} && PksDiffer(l.observations) && PksDiffer(t.observations)
    ensures Heaviest(l.observations, ActiveKeys(l, id)) == Heaviest(t.observations, ActiveKeys(t, id))
    ensures FirstTime(l.observations, ActiveKeys(l, id)) == FirstTime(t.observations, ActiveKeys(t, id))
    ensures LastTime(l.observations, ActiveKeys(l, id)) == LastTime(t.observations, ActiveKeys(t, id))
    ensures TrustedValues(l.observations, ActiveKeys(l, id)) == TrustedValues(t.observations, ActiveKeys(t, id))
  {
    var keys := ActiveKeys(l, id);
    HeaviestIsUnique(t.observations, keys, Heaviest(l.observations, keys), Heaviest(t.observations, keys));
  }

  /** Refreshing reads nothing a refresh or a validation writes. */
  lemma RefreshAgain(l: Ledger, t: Ledger, id: nat)
    requires id in l.canonicals && id in t.canonicals && PksDiffer(l.observations) && PksDiffer(t.observations)
    requires SameEvidenceFor(l, t, id) && ActiveKeys(l, id) != {}
    requires var r, h := RefreshedHead(l, id), t.canonicals[id];
             && h.facts == r.facts.(validation := h.facts.validation, reason := h.facts.reason)
             && h.lastAt == r.lastAt && h.current == r.current
    ensures RefreshedHead(t, id) == t.canonicals[id].(facts := RefreshedHead(l, id).facts)
  {
    SameHeaviest(l, t, id);
  }

  lemma SameVerdict(w: Reference, l: Ledger, t: Ledger, id: nat)
    requires id in l.canonicals && id in t.canonicals && SameEvidenceFor(l, t, id) && l.canonicals[id].facts == t.canonicals[id].facts
    ensures Judged(l, id) == Judged(t, id) && Overridden(l, id) == Overridden(t, id)
    ensures ValidatedHead(w, l, id).facts == ValidatedHead(w, t, id).facts
    ensures forall v: ValidationId :: v.result == id ==> DesiredRow(w, l, v) == DesiredRow(w, t, v)
  {
    var value := l.canonicals[id].facts.value;
    EvidenceFor(l, t, id, value);
    EvidenceFor(t, l, id, value);
  }

  lemma EvidenceFor(l: Ledger, t: Ledger, id: nat, value: int)
    requires SameEvidenceFor(l, t, id)
    ensures HasCubingChina(l, id, value) ==> HasCubingChina(t, id, value)
    ensures HasTrusted(l, id, value) ==> HasTrusted(t, id, value)
  {
    assert forall k :: k in ActiveKeys(l, id) ==> k in ActiveKeys(t, id);
  }

  /** `t` shows result `id` as a refresh of `m` left it. */
  ghost predicate LeftBy(w: Reference, m: Ledger, t: Ledger, id: nat)
    requires id in m.canonicals && PksDiffer(m.observations)
  {
    var v := ValidatedLatest(w, Refreshed(m, id), id);
    && id in t.canonicals && SameEvidenceFor(m, t, id)
    && t.canonicals[id].facts == v.canonicals[id].facts
    && t.canonicals[id].lastAt == v.canonicals[id].lastAt && t.canonicals[id].current == v.canonicals[id].current
    && forall x: ValidationId :: x.result == id ==> Get(t.validations, x) == Get(v.validations, x)
  }

  lemma RefreshLeaves(w: Reference, m: Ledger, id: nat)
    requires id in m.canonicals && id in m.log && PksDiffer(m.observations)
    ensures LeftBy(w, m, RefreshedAndEnqueued(w, m, id), id)
  {
    RefreshTables(w, m, id);
    assert ActiveKeys(RefreshedAndEnqueued(w, m, id), id) == ActiveKeys(m, id);
  }

  lemma LeftIsFixed(w: Reference, m: Ledger, t: Ledger, id: nat)
    requires id in m.canonicals && PksDiffer(m.observations) && PksDiffer(t.observations)
    requires LeftBy(w, m, t, id) && ActiveKeys(m, id) != {}
    ensures Fixed(w, t, id)
  {
    var rm, rt := Refreshed(m, id), Refreshed(t, id);
    if w.snapshot.Some? {
      CheckedFacts(w, rm, {id}, id);
    }
    RefreshAgain(m, t, id);
    if w.snapshot.None? {
      assert t.canonicals[id := t.canonicals[id]] == t.canonicals;
    } else {
      LeftIsChecked(w, m, t, id);
    }
  }

  lemma LeftIsChecked(w: Reference, m: Ledger, t: Ledger, id: nat)
    requires id in m.canonicals && PksDiffer(m.observations) && PksDiffer(t.observations) && w.snapshot.Some?
    requires LeftBy(w, m, t, id) && RefreshedHead(t, id) == t.canonicals[id].(facts := RefreshedHead(m, id).facts)
    ensures Checked(w, Refreshed(t, id), {id}) == t
  {
    var rm, rt := Refreshed(m, id), Refreshed(t, id);
    var c := Checked(w, rt, {id});
    assert SameEvidenceFor(rm, rt, id) by {
      assert ActiveKeys(rm, id) == ActiveKeys(m, id) && ActiveKeys(rt, id) == ActiveKeys(t, id);
    }
    SameVerdict(w, rm, rt, id);
    forall x: ValidationId
      ensures Get(c.validations, x) == Get(t.validations, x)
    {
      assert Get(c.validations, x) == RowAfter(w, rt, {id}, x);
    }
    GetsAgree(c.validations, t.validations);
    MapsAgree(c.canonicals, t.canonicals);
  }

  lemma GetsAgree<K, V>(a: map<K, V>, b: map<K, V>)
    requires forall k :: Get(a, k) == Get(b, k)
    ensures a == b
  {
    forall k ensures k in a <==> k in b {
      assert Get(a, k) == Get(b, k);
    }
    forall k | k in a ensures a[k] == b[k] {
      assert Get(a, k) == Get(b, k);
    }
  }

  /** After a claim is reconciled the ledger already says everything the claim says. */
  ghost predicate Says(l: Ledger, id: nat, d: Claim) {
    && id in l.canonicals && ObservationKey(d) in l.observations
    && Observed(l, id, d) == l.observations[ObservationKey(d)]
    && Updated(l.canonicals[id].facts, d) == l.canonicals[id].facts
    && OrElse(l.canonicals[id].scope, NaturalKey(d)) == l.canonicals[id].scope
    && (NaturalHolder(l, d).Some? ==> NaturalHolder(l, d) == Some(id))
    && !Upgradable(l, id, d)
  }

  lemma SaidClaimMergesToNothing(l: Ledger, id: nat, d: Claim)
    requires Referential(l) && Says(l, id, d)
    ensures Target(l, d).1 == id && Merged(l, d) == l && PreviousResult(l, d) == Some(id)
  {
    assert l.canonicals[id := l.canonicals[id]] == l.canonicals;
    assert l.observations[ObservationKey(d) := l.observations[ObservationKey(d)]] == l.observations;
  }

  ghost predicate SameDescription(l: Ledger, t: Ledger, j: nat)
    requires j in l.canonicals && j in t.canonicals
  {
    var a, b := l.canonicals[j], t.canonicals[j];
    a.facts.identityKey == b.facts.identityKey && a.facts.context == b.facts.context && a.facts.zone == b.facts.zone && a.scope == b.scope
  }

  lemma RefreshKeepsDescription(w: Reference, l: Ledger, id: nat, j: nat)
    requires id in l.canonicals && id in l.log && PksDiffer(l.observations) && j in l.canonicals
    ensures j in RefreshedAndEnqueued(w, l, id).canonicals && SameDescription(l, RefreshedAndEnqueued(w, l, id), j)
  {
    var r := Refreshed(l, id);
    RefreshedKeepsDescription(l, id, j);
    LatestKeepsDescription(w, r, id, j);
    SnapshotKeepsDescription(ValidatedLatest(w, r, id), id, j);
  }

  lemma RefreshedKeepsDescription(l: Ledger, id: nat, j: nat)
    requires id in l.canonicals && PksDiffer(l.observations) && j in l.canonicals
    ensures j in Refreshed(l, id).canonicals && SameDescription(l, Refreshed(l, id), j)
  {
  }

  lemma LatestKeepsDescription(w: Reference, l: Ledger, id: nat, j: nat)
    requires id in l.canonicals && j in l.canonicals
    ensures j in ValidatedLatest(w, l, id).canonicals && SameDescription(l, ValidatedLatest(w, l, id), j)
  {
    if w.snapshot.Some? {
      CheckedFacts(w, l, {id}, j);
    }
  }

  lemma SnapshotKeepsDescription(l: Ledger, id: nat, j: nat)
    requires id in l.canonicals && id in l.log && j in l.canonicals
    ensures j in Snapshotted(l, id).canonicals && SameDescription(l, Snapshotted(l, id), j)
  {
  }

  lemma UpdatedIsIdempotent(facts: Facts, d: Claim)
    ensures Updated(Updated(facts, d), d) == Updated(facts, d)
  {
  }

  lemma ResolvedIdentity(l: Ledger, id: nat, d: Claim)
    requires KeysUnique(l) && id in l.canonicals
    ensures var r := Resolved(l, id, d);
            && r.1 in r.0.canonicals && !Upgradable(r.0, r.1, d)
            && forall i :: i in r.0.canonicals && NaturalKey(d) == Some(r.0.canonicals[i].facts.identityKey) ==> i == r.1
  {
    NaturalIsNotSource(d);
  }

  lemma StoredSays(l: Ledger, id: nat, d: Claim)
    requires id in l.canonicals && !Upgradable(l, id, d)
    requires forall i :: i in l.canonicals && NaturalKey(d) == Some(l.canonicals[i].facts.identityKey) ==> i == id
    ensures var m := Stored(l, id, d);
            && Observed(m, id, d) == m.observations[ObservationKey(d)]
            && Updated(m.canonicals[id].facts, d) == m.canonicals[id].facts
            && OrElse(m.canonicals[id].scope, NaturalKey(d)) == m.canonicals[id].scope
            && !Upgradable(m, id, d)
            && forall i :: i in m.canonicals && NaturalKey(d) == Some(m.canonicals[i].facts.identityKey) ==> i == id
  {
    UpdatedIsIdempotent(l.canonicals[id].facts, d);
    forall i | i in l.canonicals
      ensures Stored(l, id, d).canonicals[i].facts.identityKey == l.canonicals[i].facts.identityKey
    {
    }
  }

  lemma MergedSays(l: Ledger, d: Claim)
    requires Sound(l)
    ensures var m, id := Merged(l, d), Target(l, d).1;
            && id in m.canonicals && ObservationKey(d) in m.observations
            && Observed(m, id, d) == m.observations[ObservationKey(d)]
            && Updated(m.canonicals[id].facts, d) == m.canonicals[id].facts
            && OrElse(m.canonicals[id].scope, NaturalKey(d)) == m.canonicals[id].scope
            && !Upgradable(m, id, d)
            && forall i :: i in m.canonicals && NaturalKey(d) == Some(m.canonicals[i].facts.identityKey) ==> i == id
  {
    var (l1, id1) := Located(l, d);
    LocatedSound(l, d);
    ResolvedIdentity(l1, id1, d);
    var (l2, id) := Resolved(l1, id1, d);
    StoredSays(l2, id, d);
  }

  /** The descriptions and observations a claim needs survive the refreshes that follow it. */
  lemma SaysFrame(m: Ledger, t: Ledger, id: nat, d: Claim)
    requires id in m.canonicals && ObservationKey(d) in m.observations
    requires Observed(m, id, d) == m.observations[ObservationKey(d)]
    requires Updated(m.canonicals[id].facts, d) == m.canonicals[id].facts
    requires OrElse(m.canonicals[id].scope, NaturalKey(d)) == m.canonicals[id].scope && !Upgradable(m, id, d)
    requires forall i :: i in m.canonicals && NaturalKey(d) == Some(m.canonicals[i].facts.identityKey) ==> i == id
    requires t.observations == m.observations && t.canonicals.Keys == m.canonicals.Keys
    requires forall j :: j in m.canonicals ==> SameDescription(m, t, j)
    ensures Says(t, id, d)
  {
    assert SameDescription(m, t, id);
    if NaturalHolder(t, d).Some? {
      var i := NaturalHolder(t, d).value;
      assert SameDescription(m, t, i);
    }
  }

  lemma ReconciledSays(w: Reference, l: Ledger, d: Claim)
    requires Sound(l)
    ensures Says(Reconciled(w, l, d), Target(l, d).1, d)
  {
    var m, id, t := Merged(l, d), Target(l, d).1, Reconciled(w, l, d);
    var n := RefreshedAndEnqueued(w, m, id);
    var previous := PreviousResult(l, d);
    MergedSays(l, d);
    RefreshTables(w, m, id);
    RefreshFrame(w, m, id);
    if previous.Some? && previous.value != id {
      RefreshTables(w, n, previous.value);
    }
    forall j | j in m.canonicals
      ensures j in t.canonicals && SameDescription(m, t, j)
    {
      RefreshKeepsDescription(w, m, id, j);
      if previous.Some? && previous.value != id {
        RefreshKeepsDescription(w, n, previous.value, j);
      }
    }
    SaysFrame(m, t, id, d);
  }

  lemma OtherRefreshLeaves(w: Reference, m: Ledger, n: Ledger, id: nat, other: nat)
    requires id in m.canonicals && PksDiffer(m.observations) && LeftBy(w, m, n, id)
    requires Referential(n) && other in n.canonicals && id != other
    ensures LeftBy(w, m, RefreshedAndEnqueued(w, n, other), id)
  {
    var t := RefreshedAndEnqueued(w, n, other);
    RefreshLeavesOthers(w, n, other, id);
    forall x: ValidationId | x.result == id
      ensures Get(t.validations, x) == Get(n.validations, x)
    {
      if w.snapshot.Some? {
        assert Get(t.validations, x) == RowAfter(w, Refreshed(n, other), {other}, x);
      }
    }
  }

  lemma ReconciledIsFixed(w: Reference, l: Ledger, d: Claim)
    requires Sound(l)
    ensures var t, id := Reconciled(w, l, d), Target(l, d).1;
            id in t.canonicals && Fixed(w, t, id) && ActiveKeys(t, id) != {}
  {
    var m, id, t := Merged(l, d), Target(l, d).1, Reconciled(w, l, d);
    var n := RefreshedAndEnqueued(w, m, id);
    var previous := PreviousResult(l, d);
    MergedSound(l, d);
    RefreshFrame(w, m, id);
    RefreshLeaves(w, m, id);
    if previous.Some? && previous.value != id {
      OtherRefreshLeaves(w, m, n, id, previous.value);
    }
    LeftIsFixed(w, m, t, id);
  }

  /** Reconciling the same claim again changes nothing: no revision, no work, no row. */
  lemma RepeatedClaimChangesNothing(w: Reference, l: Ledger, d: Claim)
    requires LedgerInv(l)
    ensures Reconciled(w, Reconciled(w, l, d), d) == Reconciled(w, l, d)
  {
    var t, id := Reconciled(w, l, d), Target(l, d).1;
    ReconcileKeepsInv(w, l, d);
    ReconciledSays(w, l, d);
    ReconciledIsFixed(w, l, d);
    assert Closed(t, id);
    SaidClaimMergesToNothing(t, id, d);
    FixedIsQuiet(w, t, id);
  }
}
