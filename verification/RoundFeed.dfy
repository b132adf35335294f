/** The stored rows of one round against its feed: payloads already processed are skipped, so the rows follow the
    feed exactly when no overtaken payload recurs. */
module RoundFeed {
  import opened RecordDomain
  import opened CubingChina

  /** What the source-observation table remembers of a payload: its content. */
  datatype Payload =
    | SnapshotPayload(rows: seq<RawResult>, users: Users)
    | UpdatePayload(raw: RawResult)

  datatype Delivery =
    | SnapshotDelivery(rows: seq<RawResult>, users: Users)
    | UpdateDelivery(raw: RawResult, users: Users)

  function PayloadOf(d: Delivery): Payload {
    match d
    case SnapshotDelivery(rows, users) => SnapshotPayload(rows, users)
    case UpdateDelivery(raw, _) => UpdatePayload(raw)
  }

  type Rows = map<string, Row>

  predicate RowsKeyed(rows: Rows) {
    forall id :: id in rows ==> rows[id].resultId == id
  }

  // -------- What a delivery means --------

  /** The rows after a delivery is applied; a malformed one is rolled back. */
  function Applied(codes: map<string, string>, t: RoundTarget, rows: Rows, d: Delivery): (r: Outcome<Rows>)
    ensures r.Ok? && RowsKeyed(rows) ==> RowsKeyed(r.value)
  {
    match d
    case SnapshotDelivery(raws, users) => NormalSnapshot(codes, t, users, raws)
    case UpdateDelivery(raw, users) =>
      var row := NormalResult(codes, t, users, raw);
      if row.Ok? then Ok(rows[row.value.resultId := row.value]) else PayloadError
  }

  datatype View = View(rows: Rows, processed: set<Payload>)

  /** A payload already processed is skipped. */
  function Delivered(codes: map<string, string>, t: RoundTarget, v: View, d: Delivery): View {
    var applied := Applied(codes, t, v.rows, d);
    if PayloadOf(d) in v.processed || applied.PayloadError? then v
    else View(applied.value, v.processed + {PayloadOf(d)})
  }

  function DeliveredAll(codes: map<string, string>, t: RoundTarget, ds: seq<Delivery>): View {
    if ds == [] then View(map[], {}) else Delivered(codes, t, DeliveredAll(codes, t, ds[..|ds| - 1]), ds[|ds| - 1])
  }

  /** The last valid snapshot overlaid with every valid update after it. */
  function Overlaid(codes: map<string, string>, t: RoundTarget, ds: seq<Delivery>): Rows {
    if ds == [] then map[]
    else
      var before := Overlaid(codes, t, ds[..|ds| - 1]);
      var applied := Applied(codes, t, before, ds[|ds| - 1]);
      if applied.Ok? then applied.value else before
  }

  // -------- When the rows follow the feed --------

  /** The delivery's payload can be normalised; for an update this does not depend on the users sent along. */
  predicate WellFormed(codes: map<string, string>, t: RoundTarget, d: Delivery) {
    match d
    case SnapshotDelivery(raws, users) => NormalSnapshot(codes, t, users, raws).Ok?
    case UpdateDelivery(raw, users) => NormalResult(codes, t, users, raw).Ok?
  }

  /** The content of a delivery has been overtaken: the rows are no longer those of the snapshot, or the
      updated result holds another row, or none. */
  predicate IsOvertaken(codes: map<string, string>, t: RoundTarget, rows: Rows, d: Delivery)
    requires WellFormed(codes, t, d)
  {
    match d
    case SnapshotDelivery(raws, users) => rows != NormalSnapshot(codes, t, users, raws).value
    case UpdateDelivery(raw, users) => Get(rows, raw.id) != Some(NormalResult(codes, t, users, raw).value)
  }

  /** A delivery is lost when it repeats an earlier one whose content has been overtaken since. */
  ghost predicate IsLost(codes: map<string, string>, t: RoundTarget, ds: seq<Delivery>, i: nat)
    requires i < |ds|
  {
    && DeliveredBefore(codes, t, ds, i, PayloadOf(ds[i]))
    && WellFormed(codes, t, ds[i])
    && IsOvertaken(codes, t, Overlaid(codes, t, ds[..i]), ds[i])
  }

  ghost predicate AlwaysOverlaid(codes: map<string, string>, t: RoundTarget, ds: seq<Delivery>) {
    forall i {:trigger ds[..i]} :: 0 <= i <= |ds| ==> DeliveredAll(codes, t, ds[..i]).rows == Overlaid(codes, t, ds[..i])
  }

  lemma PrefixStep(codes: map<string, string>, t: RoundTarget, ds: seq<Delivery>, i: nat)
    requires i < |ds|
    ensures DeliveredAll(codes, t, ds[..i + 1]) == Delivered(codes, t, DeliveredAll(codes, t, ds[..i]), ds[i])
    ensures var before := Overlaid(codes, t, ds[..i]);
            var applied := Applied(codes, t, before, ds[i]);
            Overlaid(codes, t, ds[..i + 1]) == if applied.Ok? then applied.value else before
  {
    assert ds[..i + 1][..i] == ds[..i];
  }

  lemma DeliveredProcesses(codes: map<string, string>, t: RoundTarget, v: View, d: Delivery, p: Payload)
    ensures p in Delivered(codes, t, v, d).processed <==> p in v.processed || (PayloadOf(d) == p && WellFormed(codes, t, d))
  {
    AppliedExactly(codes, t, v.rows, d);
  }

  /** Some delivery before position `i` was well formed and had this payload. */
  ghost predicate DeliveredBefore(codes: map<string, string>, t: RoundTarget, ds: seq<Delivery>, i: nat, p: Payload)
    requires i <= |ds|
  {
    exists j :: 0 <= j < i && PayloadOf(ds[j]) == p && WellFormed(codes, t, ds[j])
  }

  lemma DeliveredBeforeStep(codes: map<string, string>, t: RoundTarget, ds: seq<Delivery>, i: nat, p: Payload)
    requires i < |ds|
    ensures DeliveredBefore(codes, t, ds, i + 1, p) <==>
            DeliveredBefore(codes, t, ds, i, p) || (PayloadOf(ds[i]) == p && WellFormed(codes, t, ds[i]))
  {
    if PayloadOf(ds[i]) == p && WellFormed(codes, t, ds[i]) {
      assert 0 <= i < i + 1;
    }
  }

  /** What the source-observation table has marked processed is what was delivered well-formed. */
  lemma {:induction false} ProcessedExactly(codes: map<string, string>, t: RoundTarget, ds: seq<Delivery>, i: nat, p: Payload)
    requires i <= |ds|
    ensures p in DeliveredAll(codes, t, ds[..i]).processed <==> DeliveredBefore(codes, t, ds, i, p)
  {
    if i > 0 {
      ProcessedExactly(codes, t, ds, i - 1, p);
      PrefixStep(codes, t, ds, i - 1);
      DeliveredProcesses(codes, t, DeliveredAll(codes, t, ds[..i - 1]), ds[i - 1], p);
      DeliveredBeforeStep(codes, t, ds, i - 1, p);
    }
  }

  /** Applying a delivery succeeds when it is well formed, and changes nothing unless its content has been overtaken. */
  lemma AppliedExactly(codes: map<string, string>, t: RoundTarget, rows: Rows, d: Delivery)
    ensures Applied(codes, t, rows, d).Ok? <==> WellFormed(codes, t, d)
    ensures WellFormed(codes, t, d) ==> (Applied(codes, t, rows, d).value == rows <==> !IsOvertaken(codes, t, rows, d))
  {
    if d.UpdateDelivery? && WellFormed(codes, t, d) {
      var row := NormalResult(codes, t, d.users, d.raw).value;
      if Get(rows, d.raw.id) == Some(row) {
        assert rows[d.raw.id := row] == rows;
      }
    }
  }

  lemma FollowsStep(codes: map<string, string>, t: RoundTarget, ds: seq<Delivery>, i: nat)
    requires i < |ds| && !IsLost(codes, t, ds, i)
    requires DeliveredAll(codes, t, ds[..i]).rows == Overlaid(codes, t, ds[..i])
    ensures DeliveredAll(codes, t, ds[..i + 1]).rows == Overlaid(codes, t, ds[..i + 1])
  {
    PrefixStep(codes, t, ds, i);
    ProcessedExactly(codes, t, ds, i, PayloadOf(ds[i]));
    AppliedExactly(codes, t, Overlaid(codes, t, ds[..i]), ds[i]);
  }

  lemma {:induction false} FollowsWhenNothingLost(codes: map<string, string>, t: RoundTarget, ds: seq<Delivery>, i: nat)
    requires i <= |ds| && forall k :: 0 <= k < |ds| ==> !IsLost(codes, t, ds, k)
    ensures DeliveredAll(codes, t, ds[..i]).rows == Overlaid(codes, t, ds[..i])
  {
    if i > 0 {
      FollowsWhenNothingLost(codes, t, ds, i - 1);
      FollowsStep(codes, t, ds, i - 1);
    }
  }

  lemma LostIsMissed(codes: map<string, string>, t: RoundTarget, ds: seq<Delivery>, i: nat)
    requires i < |ds| && IsLost(codes, t, ds, i)
    ensures DeliveredAll(codes, t, ds[..i]).rows != Overlaid(codes, t, ds[..i])
            || DeliveredAll(codes, t, ds[..i + 1]).rows != Overlaid(codes, t, ds[..i + 1])
  {
    PrefixStep(codes, t, ds, i);
    ProcessedExactly(codes, t, ds, i, PayloadOf(ds[i]));
    AppliedExactly(codes, t, Overlaid(codes, t, ds[..i]), ds[i]);
  }

  /** The active rows are the last snapshot overlaid with later updates after every delivery, if and only if
      no delivery repeats an earlier well-formed payload whose content has been overtaken in between. */
  lemma AlwaysOverlaidExactly(codes: map<string, string>, t: RoundTarget, ds: seq<Delivery>)
    ensures AlwaysOverlaid(codes, t, ds) <==> forall i :: 0 <= i < |ds| ==> !IsLost(codes, t, ds, i)
  {
    if forall i :: 0 <= i < |ds| ==> !IsLost(codes, t, ds, i) {
      forall i | 0 <= i <= |ds|
        ensures DeliveredAll(codes, t, ds[..i]).rows == Overlaid(codes, t, ds[..i])
      {
        FollowsWhenNothingLost(codes, t, ds, i);
      }
    } else {
      var i :| 0 <= i < |ds| && IsLost(codes, t, ds, i);
      LostIsMissed(codes, t, ds, i);
    }
  }

  /** When no payload recurs the rows always follow the feed. */
  lemma DistinctPayloadsOverlay(codes: map<string, string>, t: RoundTarget, ds: seq<Delivery>)
    requires forall i, j :: 0 <= i < j < |ds| ==> PayloadOf(ds[i]) != PayloadOf(ds[j])
    ensures AlwaysOverlaid(codes, t, ds)
  {
    AlwaysOverlaidExactly(codes, t, ds);
  }

  /** Two different snapshots and then the first again: the third delivery is skipped and the rows stay
      those of the second. */
  lemma RecurringSnapshotIsLost(codes: map<string, string>, t: RoundTarget, a: Delivery, b: Delivery)
    requires a.SnapshotDelivery? && b.SnapshotDelivery? && PayloadOf(a) != PayloadOf(b)
    requires WellFormed(codes, t, a) && WellFormed(codes, t, b)
    requires Applied(codes, t, map[], a) != Applied(codes, t, map[], b)
    ensures DeliveredAll(codes, t, [a, b, a]).rows == Applied(codes, t, map[], b).value
    ensures Overlaid(codes, t, [a, b, a]) == Applied(codes, t, map[], a).value
    ensures !AlwaysOverlaid(codes, t, [a, b, a])
  {
    var ds := [a, b, a];
    assert ds[..0] == [] && ds[0] == a && ds[1] == b && ds[2] == a && ds[..3] == ds;
    PrefixStep(codes, t, ds, 0);
    PrefixStep(codes, t, ds, 1);
    PrefixStep(codes, t, ds, 2);
  }

  const EXAMPLE_ROUND :=
    RoundTarget(1, "Open2026", "Open", "open", None, None, "333", "3x3x3", "f", Some(1), "Final", "a", 0)
  const EXAMPLE_RESULT :=
    RawResult(true, 1, "333", "f", "7", 12, "a", [500, 510, 520, 530, 540], Some(500), Some(520), "", "")

  /** A result entered, taken out and entered again by snapshots with the same content: it stays out. */
  lemma ReinstatedResultIsLost()
    ensures var a, b := SnapshotDelivery([EXAMPLE_RESULT], map[]), SnapshotDelivery([], map[]);
            && DeliveredAll(map[], EXAMPLE_ROUND, [a, b, a]).rows == map[]
            && "7" in Overlaid(map[], EXAMPLE_ROUND, [a, b, a])
  {
    var a, b := SnapshotDelivery([EXAMPLE_RESULT], map[]), SnapshotDelivery([], map[]);
    NormalSnapshotExactly(map[], EXAMPLE_ROUND, map[], [EXAMPLE_RESULT]);
    RecurringSnapshotIsLost(map[], EXAMPLE_ROUND, a, b);
  }
}
