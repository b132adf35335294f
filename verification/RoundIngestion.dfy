/** Incremental maintenance of one round: stored rows follow the feed, and the posted evidence follows
    the stored rows without ever being recomputed as a whole. */
module RoundIngestion {
  import opened RecordDomain
  import opened Evidence
  import opened CubingChina
  import opened RoundFeed
  import opened Postings

  datatype Stored = Stored(row: Row, active: bool)

  function ActiveRows(states: map<string, Stored>): (rows: Rows)
    ensures forall id :: id in rows <==> id in states && states[id].active
    ensures forall id :: id in rows ==> rows[id] == states[id].row
  {
    map id | id in states && states[id].active :: states[id].row
  }

  datatype Report = Report(rows: nat, additions: nat, changes: nat, removals: nat, dirty: set<Kind>, duplicate: bool, initial: bool)

  class Round {
    var codes: map<string, string>
    var target: RoundTarget
    var states: map<string, Stored>
    var book: Book
    var processed: set<Payload>

    constructor (codes: map<string, string>, target: RoundTarget)
      ensures Valid() && CurrentView() == View(map[], {}) && book == map[]
      ensures this.codes == codes && this.target == target
    {
      this.codes := codes;
      this.target := target;
      states := map[];
      book := map[];
      processed := {};
    }

    ghost predicate Valid()
      reads this
    {
      RowsKeyed(ActiveRows(states)) && InView(target, ActiveRows(states), book)
    }

    ghost function CurrentView(): View
      reads this
    {
      View(ActiveRows(states), processed)
    }

    /** Reconcile every current claim whose fingerprint the previous row did not already carry. */
    method PostChanged(olds: seq<Claim>, claims: seq<Claim>) returns (dirty: set<Kind>)
      modifies this`book
      ensures Plays(old(book), Posts(olds, claims), book, dirty)
    {
      dirty := {};
      for i := 0 to |claims|
        invariant book == Play(old(book), Posts(olds, claims[..i])) && dirty == Dirtied(old(book), Posts(olds, claims[..i]))
      {
        PostsStep(olds, claims, i, old(book));
        if !AlreadyClaimed(olds, claims[i]) {
          book := book[ObservationKey(claims[i]) := Posted(claims[i], true)];
          dirty := dirty + {claims[i].kind};
        }
      }
      assert claims[..|claims|] == claims;
    }

    /** Retract every previous claim whose key the current row no longer derives. */
    method RetractMissing(olds: seq<Claim>, claims: seq<Claim>, observedAt: int) returns (dirty: set<Kind>)
      modifies this`book
      ensures Plays(old(book), Drops(olds, claims, observedAt), book, dirty)
    {
      dirty := {};
      for i := 0 to |olds|
        invariant book == Play(old(book), Drops(olds[..i], claims, observedAt))
        invariant dirty == Dirtied(old(book), Drops(olds[..i], claims, observedAt))
      {
        DropsStep(olds, claims, i, observedAt, old(book));
        var key := ObservationKey(olds[i]);
        if !ClaimsKey(claims, key) {
          if key in book && book[key].active {
            dirty := dirty + {olds[i].kind};
            book := book[key := book[key].(active := false)];
          }
        }
      }
      assert olds[..|olds|] == olds;
    }

    method RetractPrevious(previous: Option<Row>, olds: seq<Claim>, claims: seq<Claim>, observedAt: int) returns (dirty: set<Kind>)
      requires previous.None? ==> olds == []
      modifies this`book
      ensures Plays(old(book), Drops(olds, claims, observedAt), book, dirty)
    {
      if previous.None? {
        NoClaimsNoDrops(claims, observedAt, book);
        return {};
      }
      dirty := RetractMissing(olds, claims, observedAt);
    }

    /** Bring one row's evidence from what the previous row derived to what the current one derives. */
    method Synchronize(previous: Option<Row>, current: Row, observedAt: int) returns (dirty: set<Kind>)
      requires Keyed(previous, Some(current), current.resultId)
      modifies this`book
      ensures Plays(old(book), RowOps(target, previous, Some(current), observedAt), book, dirty)
      ensures MovesRow(target, previous, current, old(book), book, dirty)
    {
      var claims := Claims(target, Some(current), observedAt);
      var olds := Claims(target, previous, observedAt);
      var posted := PostChanged(olds, claims);
      ghost var middle := book;
      var dropped := RetractPrevious(previous, olds, claims, observedAt);
      RowPlays(target, previous, current, observedAt, old(book), middle, book, posted, dropped);
      dirty := posted + dropped;
    }

    method SynchronizeChanged(previous: Rows, current: Rows, id: string, observedAt: int) returns (dirty: set<Kind>)
      requires RowsKeyed(previous) && RowsKeyed(current) && id in current
      modifies this`book
      ensures Plays(old(book), RowOps(target, Get(previous, id), Get(current, id), observedAt), book, dirty)
    {
      dirty := Synchronize(Get(previous, id), current[id], observedAt);
    }

    /** Withdraw every claim a removed row derived. */
    method RetractRow(row: Row, observedAt: int) returns (dirty: set<Kind>)
      modifies this`book
      ensures Plays(old(book), RowOps(target, Some(row), None, observedAt), book, dirty)
    {
      RemovalOnlyDrops(target, row, observedAt);
      var olds := Claims(target, Some(row), observedAt);
      dirty := RetractMissing(olds, [], observedAt);
    }

    /** Added and changed rows, each against its own previous row. */
    method SynchronizeRows(previous: Rows, current: Rows, ids: set<string>, observedAt: int)
      returns (dirty: set<Kind>, ghost order: seq<string>)
      requires RowsKeyed(previous) && RowsKeyed(current) && ids <= current.Keys
      modifies this`book
      ensures Synchronized(target, previous, current, order, ids, observedAt, old(book), book, dirty)
    {
      dirty, order := {}, [];
      var pending := ids;
      NothingSynchronized(target, previous, current, observedAt, book);
      assert ids - pending == {};
      while pending != {}
        invariant pending <= ids
        invariant Synchronized(target, previous, current, order, ids - pending, observedAt, old(book), book, dirty)
        decreases pending
      {
        var id :| id in pending;
        OneMoreSynchronized(target, previous, current, order, ids - pending, id, observedAt, old(book), book, dirty);
        var more := SynchronizeChanged(previous, current, id, observedAt);
        assert ids - pending + {id} == ids - (pending - {id});
        dirty := dirty + more;
        order := order + [id];
        pending := pending - {id};
      }
      assert ids - pending == ids;
    }

    /** Rows the snapshot no longer has. */
    method RetractRows(previous: Rows, ghost current: Rows, ids: set<string>, observedAt: int)
      returns (dirty: set<Kind>, ghost order: seq<string>)
      requires ids == previous.Keys - current.Keys
      modifies this`book
      ensures Synchronized(target, previous, current, order, ids, observedAt, old(book), book, dirty)
    {
      dirty, order := {}, [];
      var pending := ids;
      NothingSynchronized(target, previous, current, observedAt, book);
      assert ids - pending == {};
      while pending != {}
        invariant pending <= ids
        invariant Synchronized(target, previous, current, order, ids - pending, observedAt, old(book), book, dirty)
        decreases pending
      {
        var id :| id in pending;
        OneMoreSynchronized(target, previous, current, order, ids - pending, id, observedAt, old(book), book, dirty);
        var more := RetractRow(previous[id], observedAt);
        assert ids - pending + {id} == ids - (pending - {id});
        dirty := dirty + more;
        order := order + [id];
        pending := pending - {id};
      }
      assert ids - pending == ids;
    }

    /** One bad row rejects the snapshot; otherwise every result id sent is there, with the last row sent for it. */
    method NormalizeSnapshot(raws: seq<RawResult>, users: Users) returns (rows: Outcome<Rows>)
      ensures rows == NormalSnapshot(codes, target, users, raws)
      ensures LastWins(codes, target, users, raws, rows)
    {
      NormalSnapshotExactly(codes, target, users, raws);
      var normalized: Rows := map[];
      for i := 0 to |raws|
        invariant Ok(normalized) == NormalSnapshot(codes, target, users, raws[..i])
      {
        NormalSnapshotStep(codes, target, users, raws, i);
        var row := NormalResult(codes, target, users, raws[i]);
        if row.PayloadError? {
          return PayloadError;
        }
        normalized := normalized[row.value.resultId := row.value];
      }
      assert raws[..|raws|] == raws;
      return Ok(normalized);
    }

    /** Apply a full snapshot of the round: additions and changes synchronised, missing rows retracted. */
    method ProcessRoundSnapshot(raws: seq<RawResult>, users: Users, observedAt: int) returns (report: Outcome<Report>, ghost order: seq<string>)
      requires Valid()
      modifies this`states, this`book, this`processed
      ensures Valid()
      ensures CurrentView() == Delivered(codes, target, old(CurrentView()), SnapshotDelivery(raws, users))
      ensures Follows(target, old(ActiveRows(states)), ActiveRows(states), order, observedAt, old(book), book)
      ensures report.PayloadError? <==> SnapshotPayload(raws, users) !in old(processed) && NormalSnapshot(codes, target, users, raws).PayloadError?
      ensures report.Ok? ==> (report.value.duplicate <==> SnapshotPayload(raws, users) in old(processed))
      ensures report.Ok? ==> DirtyExactly(target, old(ActiveRows(states)), ActiveRows(states), report.value.dirty)
      ensures report.Ok? && !report.value.duplicate ==> Counted(old(ActiveRows(states)), ActiveRows(states), report.value)
    {
      var payload := SnapshotPayload(raws, users);
      if payload in processed {
        order := [];
        NothingMoved(target, ActiveRows(states), observedAt, book);
        SnapshotIgnored(codes, target, CurrentView(), raws, users);
        return Ok(Report(|raws|, 0, 0, 0, {}, true, false)), order;
      }
      var normalized := NormalizeSnapshot(raws, users);
      report, order := TakeSnapshot(normalized, raws, users, observedAt);
    }

    /** Apply a new payload unless it was rejected. */
    method TakeSnapshot(normalized: Outcome<Rows>, raws: seq<RawResult>, users: Users, observedAt: int)
      returns (report: Outcome<Report>, ghost order: seq<string>)
      requires Valid() && SnapshotPayload(raws, users) !in processed && normalized == NormalSnapshot(codes, target, users, raws)
      modifies this`states, this`book, this`processed
      ensures Valid()
      ensures CurrentView() == Delivered(codes, target, old(CurrentView()), SnapshotDelivery(raws, users))
      ensures Follows(target, old(ActiveRows(states)), ActiveRows(states), order, observedAt, old(book), book)
      ensures report.PayloadError? <==> normalized.PayloadError?
      ensures report.Ok? ==> !report.value.duplicate
      ensures report.Ok? ==> DirtyExactly(target, old(ActiveRows(states)), ActiveRows(states), report.value.dirty)
      ensures report.Ok? ==> Counted(old(ActiveRows(states)), ActiveRows(states), report.value)
    {
      if normalized.PayloadError? {
        order := [];
        NothingMoved(target, ActiveRows(states), observedAt, book);
        SnapshotIgnored(codes, target, CurrentView(), raws, users);
        return PayloadError, order;
      }
      SnapshotTaken(codes, target, CurrentView(), raws, users);
      report, order := ApplySnapshot(normalized.value, observedAt);
      processed := processed + {SnapshotPayload(raws, users)};
    }

    /** Diff the snapshot against the active rows, synchronise what differs, and store the result. */
    method ApplySnapshot(current: Rows, observedAt: int) returns (report: Outcome<Report>, ghost order: seq<string>)
      requires Valid() && RowsKeyed(current)
      modifies this`states, this`book
      ensures ActiveRows(states) == current
      ensures report.Ok? && !report.value.duplicate && Counted(old(ActiveRows(states)), current, report.value)
      ensures Moved(target, old(ActiveRows(states)), current, order, observedAt, old(book), book, report.value.dirty)
    {
      var previous := ActiveRows(states);
      var initial := states == map[];
      var diff := DiffSnapshots(previous, current);
      DiffDiffers(previous, current);
      var dirty;
      dirty, order := MoveEvidence(previous, current, diff.additions + diff.changes, diff.removals, observedAt);
      var persisted := if initial then current.Keys else diff.additions + diff.changes;
      StoreRows(current, persisted, diff.removals);
      report := Ok(Report(|current|, |diff.additions|, |diff.changes|, |diff.removals|, dirty, false, initial));
    }

    /** Store the rows that differ and deactivate the ones the snapshot no longer has. */
    method StoreRows(current: Rows, ids: set<string>, removals: set<string>)
      requires ids <= current.Keys && removals == ActiveRows(states).Keys - current.Keys
      requires forall id :: id in current && id !in ids ==> id in ActiveRows(states) && ActiveRows(states)[id] == current[id]
      modifies this`states
      ensures ActiveRows(states) == current
    {
      SnapshotStates(states, current, ids, removals);
      states := Persisted(states, current, ids);
      states := Deactivated(states, removals);
    }

    method MoveEvidence(previous: Rows, current: Rows, touched: set<string>, removals: set<string>, observedAt: int)
      returns (dirty: set<Kind>, ghost order: seq<string>)
      requires RowsKeyed(previous) && RowsKeyed(current) && InView(target, previous, book)
      requires Differ(previous, current, touched, removals)
      modifies this`book
      ensures Moved(target, previous, current, order, observedAt, old(book), book, dirty)
    {
      ghost var rest;
      var more;
      dirty, order := SynchronizeRows(previous, current, touched, observedAt);
      ghost var middle := book;
      more, rest := RetractRows(previous, current, removals, observedAt);
      BothSynchronized(target, previous, current, order, rest, touched, removals, observedAt, old(book), middle, book, dirty, more);
      order, dirty := order + rest, dirty + more;
      FullySynchronized(target, previous, current, order, touched, removals, observedAt, old(book), book, dirty);
    }

    /** Apply one pushed row. */
    method ProcessResultUpdate(raw: RawResult, users: Users, observedAt: int) returns (report: Outcome<Report>, ghost order: seq<string>)
      requires Valid()
      modifies this`states, this`book, this`processed
      ensures Valid()
      ensures CurrentView() == Delivered(codes, target, old(CurrentView()), UpdateDelivery(raw, users))
      ensures Follows(target, old(ActiveRows(states)), ActiveRows(states), order, observedAt, old(book), book)
      ensures report.PayloadError? <==> UpdatePayload(raw) !in old(processed) && NormalResult(codes, target, users, raw).PayloadError?
      ensures report.Ok? ==> DirtyExactly(target, old(ActiveRows(states)), ActiveRows(states), report.value.dirty)
    {
      order := [];
      if UpdatePayload(raw) in processed {
        NothingMoved(target, ActiveRows(states), observedAt, book);
        return Ok(Report(0, 0, 0, 0, {}, true, false)), order;
      }
      var normalized := NormalResult(codes, target, users, raw);
      if normalized.PayloadError? {
        NothingMoved(target, ActiveRows(states), observedAt, book);
        return PayloadError, order;
      }
      var dirty;
      dirty, order := ApplyUpdate(normalized.value, observedAt);
      processed := processed + {UpdatePayload(raw)};
      report := Ok(Report(0, 0, 0, 0, dirty, false, false));
    }

    method ApplyUpdate(row: Row, observedAt: int) returns (dirty: set<Kind>, ghost order: seq<string>)
      requires Valid()
      modifies this`states, this`book
      ensures ActiveRows(states) == old(ActiveRows(states))[row.resultId := row]
      ensures Moved(target, old(ActiveRows(states)), ActiveRows(states), order, observedAt, old(book), book, dirty)
    {
      var previous := ActiveRows(states);
      if row.resultId !in previous || previous[row.resultId] != row {
        dirty, order := MoveOne(previous, row, observedAt);
        StoredRow(states, row);
        states := states[row.resultId := Stored(row, true)];
      } else {
        dirty, order := {}, [];
        assert previous[row.resultId := row] == previous;
        NothingMoved(target, previous, observedAt, book);
      }
    }

    method MoveOne(previous: Rows, row: Row, observedAt: int) returns (dirty: set<Kind>, ghost order: seq<string>)
      requires RowsKeyed(previous) && InView(target, previous, book) && Get(previous, row.resultId) != Some(row)
      modifies this`book
      ensures Moved(target, previous, previous[row.resultId := row], order, observedAt, old(book), book, dirty)
    {
      OneMoved(target, previous, row, observedAt, book);
      dirty := Synchronize(Get(previous, row.resultId), row, observedAt);
      order := [row.resultId];
    }
  }

  /** Synchronising the one row an update names moves the evidence of the round. */
  lemma OneMoved(t: RoundTarget, previous: Rows, row: Row, observedAt: int, book: Book)
    requires RowsKeyed(previous) && InView(t, previous, book) && Get(previous, row.resultId) != Some(row)
    ensures var ops := RowOps(t, Get(previous, row.resultId), Some(row), observedAt);
            Moved(t, previous, previous[row.resultId := row], [row.resultId], observedAt, book, Play(book, ops), Dirtied(book, ops))
  {
    var current, id := previous[row.resultId := row], row.resultId;
    var ops := RowOps(t, Get(previous, id), Some(row), observedAt);
    OneDiffers(previous, row);
    NothingSynchronized(t, previous, current, observedAt, book);
    OneMoreSynchronized(t, previous, current, [], {}, id, observedAt, book, book, {});
    assert [] + [id] == [id] && {} + {id} == {id} + {} && {} + Dirtied(book, ops) == Dirtied(book, ops);
    FullySynchronized(t, previous, current, [id], {id}, {}, observedAt, book, Play(book, ops), Dirtied(book, ops));
  }

  lemma StoredRow(states: map<string, Stored>, row: Row)
    ensures ActiveRows(states[row.resultId := Stored(row, true)]) == ActiveRows(states)[row.resultId := row]
  {
    MapsAgree(ActiveRows(states[row.resultId := Stored(row, true)]), ActiveRows(states)[row.resultId := row]);
  }

  lemma SnapshotTaken(codes: map<string, string>, t: RoundTarget, v: View, raws: seq<RawResult>, users: Users)
    requires SnapshotPayload(raws, users) !in v.processed && NormalSnapshot(codes, t, users, raws).Ok?
    ensures var rows := NormalSnapshot(codes, t, users, raws).value;
            && RowsKeyed(rows)
            && Delivered(codes, t, v, SnapshotDelivery(raws, users)) == View(rows, v.processed + {SnapshotPayload(raws, users)})
  {
  }

  lemma SnapshotIgnored(codes: map<string, string>, t: RoundTarget, v: View, raws: seq<RawResult>, users: Users)
    requires SnapshotPayload(raws, users) in v.processed || NormalSnapshot(codes, t, users, raws).PayloadError?
    ensures Delivered(codes, t, v, SnapshotDelivery(raws, users)) == v
  {
  }

  /** The report counts the rows of the snapshot and how they differ from the active rows before it. */
  predicate Counted(before: Rows, after: Rows, report: Report) {
    && report.rows == |after|
    && report.additions == |DiffSnapshots(before, after).additions|
    && report.changes == |DiffSnapshots(before, after).changes|
    && report.removals == |DiffSnapshots(before, after).removals|
  }

  lemma SnapshotStates(states: map<string, Stored>, current: Rows, ids: set<string>, removals: set<string>)
    requires ids <= current.Keys && removals == ActiveRows(states).Keys - current.Keys
    requires forall id :: id in current && id !in ids ==> id in ActiveRows(states) && ActiveRows(states)[id] == current[id]
    ensures ActiveRows(Deactivated(Persisted(states, current, ids), removals)) == current
  {
    MapsAgree(ActiveRows(Deactivated(Persisted(states, current, ids), removals)), current);
  }

  function Persisted(states: map<string, Stored>, current: Rows, ids: set<string>): map<string, Stored>
    requires ids <= current.Keys
  {
    map id | id in states.Keys + ids :: if id in ids then Stored(current[id], true) else states[id]
  }

  function Deactivated(states: map<string, Stored>, ids: set<string>): map<string, Stored> {
    map id | id in states :: if id in ids then states[id].(active := false) else states[id]
  }
}
