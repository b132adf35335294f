/** The evidence one round posts: what is reconciled and retracted when its rows change, row by row and in any order,
    and that it moves the posted evidence from what the old rows derive to what the new ones do. */
module Postings {
  import opened RecordDomain
  import opened Evidence
  import opened CubingChina
  import opened RoundFeed

  /** The claim last reconciled under an observation key, and whether it has been withdrawn since. */
  datatype Posted = Posted(claim: Claim, active: bool)
  type Book = map<string, Posted>

  // -------- The view --------

  function Shown(book: Book, key: string): Option<Claim> {
    if key in book && book[key].active then Some(Fingerprint(book[key].claim)) else None
  }

  /** The claim a set of active rows derives under a key, up to material fingerprint. */
  function Wanted(t: RoundTarget, rows: Rows, id: string, kind: Kind): Option<Claim> {
    if id in rows then DerivedClaim(t, rows[id], kind, 0) else None
  }

  /** The active observations of the round are those derived afresh from the active rows. */
  ghost predicate InView(t: RoundTarget, rows: Rows, book: Book) {
    forall id, kind {:trigger Wanted(t, rows, id, kind)} :: Shown(book, KeyOf(t, id, kind)) == Wanted(t, rows, id, kind)
  }

  ghost predicate ClaimChanges(t: RoundTarget, before: Rows, after: Rows, id: string, kind: Kind) {
    Wanted(t, before, id, kind) != Wanted(t, after, id, kind)
  }

  lemma FingerprintIgnoresTime(t: RoundTarget, row: Row, kind: Kind, observedAt: int)
    ensures var d := DerivedClaim(t, row, kind, observedAt);
            d.Some? <==> DerivedClaim(t, row, kind, 0).Some?
    ensures DerivedClaim(t, row, kind, observedAt).Some? ==>
              Fingerprint(DerivedClaim(t, row, kind, observedAt).value) == DerivedClaim(t, row, kind, 0).value
  {
  }

  // -------- What a delivery posts --------

  /** One call into the ledger: reconcile a claim, or retract the observation of a key. */
  datatype Posting = Post(claim: Claim) | Drop(kind: Kind, key: string, observedAt: int)

  function PostingKey(p: Posting): string {
    if p.Post? then ObservationKey(p.claim) else p.key
  }

  function PostingKind(p: Posting): Kind {
    if p.Post? then p.claim.kind else p.kind
  }

  function Withdrawn(book: Book, key: string): Book {
    if key in book && book[key].active then book[key := book[key].(active := false)] else book
  }

  function Played(book: Book, p: Posting): Book {
    match p
    case Post(claim) => book[ObservationKey(claim) := Posted(claim, true)]
    case Drop(_, key, _) => Withdrawn(book, key)
  }

  function Play(book: Book, ops: seq<Posting>): Book {
    if ops == [] then book else Played(Play(book, ops[..|ops| - 1]), ops[|ops| - 1])
  }

  /** A posting counts as a change unless it withdraws what was not active. */
  predicate Takes(book: Book, p: Posting) {
    p.Drop? ==> p.key in book && book[p.key].active
  }

  /** The kinds some posting changed. */
  function Dirtied(book: Book, ops: seq<Posting>): set<Kind> {
    if ops == [] then {}
    else
      var init, p := ops[..|ops| - 1], ops[|ops| - 1];
      Dirtied(book, init) + if Takes(Play(book, init), p) then {PostingKind(p)} else {}
  }

  lemma PlaySnoc(book: Book, ops: seq<Posting>, p: Posting)
    ensures Play(book, ops + [p]) == Played(Play(book, ops), p)
    ensures Dirtied(book, ops + [p]) == Dirtied(book, ops) + if Takes(Play(book, ops), p) then {PostingKind(p)} else {}
  {
    assert (ops + [p])[..|ops|] == ops;
  }

  lemma {:induction false} PlayConcat(book: Book, first: seq<Posting>, second: seq<Posting>)
    ensures Play(book, first + second) == Play(Play(book, first), second)
    ensures Dirtied(book, first + second) == Dirtied(book, first) + Dirtied(Play(book, first), second)
    decreases |second|
  {
    if second == [] {
      assert first + second == first;
    } else {
      assert (first + second)[..|first + second| - 1] == first + second[..|second| - 1];
      PlayConcat(book, first, second[..|second| - 1]);
    }
  }

  /** What a posting leaves under its key. */
  function Effect(p: Posting): Option<Claim> {
    if p.Post? then Some(Fingerprint(p.claim)) else None
  }

  /** When every posting of a key leaves the same claim there, that is what it shows. */
  lemma {:induction false} PlayShows(book: Book, ops: seq<Posting>, key: string, want: Option<Claim>)
    requires forall p :: p in ops && PostingKey(p) == key ==> Effect(p) == want
    requires Shown(book, key) == want || exists p :: p in ops && PostingKey(p) == key
    ensures Shown(Play(book, ops), key) == want
    decreases |ops|
  {
    if ops != [] {
      var init, last := ops[..|ops| - 1], ops[|ops| - 1];
      assert ops == init + [last];
      assert last in ops && forall p :: p in init ==> p in ops;
      if PostingKey(last) != key {
        PlayShows(book, init, key, want);
      }
    }
  }

  lemma {:induction false} PlayElsewhere(book: Book, ops: seq<Posting>, key: string)
    requires forall p :: p in ops ==> PostingKey(p) != key
    ensures Get(Play(book, ops), key) == Get(book, key)
    decreases |ops|
  {
    if ops != [] {
      var init, last := ops[..|ops| - 1], ops[|ops| - 1];
      assert ops == init + [last];
      assert last in ops && forall p :: p in init ==> p in ops;
      PlayElsewhere(book, init, key);
    }
  }

  /** A key that shows something else afterwards was changed by some posting. */
  lemma {:induction false} ChangeDirties(book: Book, ops: seq<Posting>, key: string, kind: Kind)
    requires forall p :: p in ops && PostingKey(p) == key ==> PostingKind(p) == kind
    requires Shown(Play(book, ops), key) != Shown(book, key)
    ensures kind in Dirtied(book, ops)
    decreases |ops|
  {
    if ops != [] {
      var init, last := ops[..|ops| - 1], ops[|ops| - 1];
      assert ops == init + [last];
      assert last in ops && forall p :: p in init ==> p in ops;
      if Shown(Play(book, init), key) != Shown(book, key) {
        ChangeDirties(book, init, key, kind);
      }
    }
  }

  lemma {:induction false} DirtiedByPosting(book: Book, ops: seq<Posting>, kind: Kind)
    requires kind in Dirtied(book, ops)
    ensures exists p :: p in ops && PostingKind(p) == kind
    decreases |ops|
  {
    var init, last := ops[..|ops| - 1], ops[|ops| - 1];
    assert ops == init + [last];
    if kind in Dirtied(book, init) {
      DirtiedByPosting(book, init, kind);
      var p :| p in init && PostingKind(p) == kind;
      assert p in ops;
    } else {
      assert last in ops;
    }
  }

  // -------- One row --------

  /** A previous claim under the same key with the same fingerprint. */
  predicate AlreadyClaimed(olds: seq<Claim>, claim: Claim) {
    exists j :: 0 <= j < |olds| && ObservationKey(olds[j]) == ObservationKey(claim) && Fingerprint(olds[j]) == Fingerprint(claim)
  }

  predicate ClaimsKey(claims: seq<Claim>, key: string) {
    exists j :: 0 <= j < |claims| && ObservationKey(claims[j]) == key
  }

  function Posts(olds: seq<Claim>, claims: seq<Claim>): seq<Posting> {
    if claims == [] then []
    else
      var init, last := claims[..|claims| - 1], claims[|claims| - 1];
      Posts(olds, init) + if AlreadyClaimed(olds, last) then [] else [Post(last)]
  }

  function Drops(olds: seq<Claim>, claims: seq<Claim>, observedAt: int): seq<Posting> {
    if olds == [] then []
    else
      var init, last := olds[..|olds| - 1], olds[|olds| - 1];
      Drops(init, claims, observedAt)
      + if ClaimsKey(claims, ObservationKey(last)) then [] else [Drop(last.kind, ObservationKey(last), observedAt)]
  }

  /** One more current claim looked at. */
  lemma PostsStep(olds: seq<Claim>, claims: seq<Claim>, i: nat, book: Book)
    requires i < |claims|
    ensures var ops, more := Posts(olds, claims[..i]), Posts(olds, claims[..i + 1]);
            if AlreadyClaimed(olds, claims[i]) then more == ops
            else Play(book, more) == Play(book, ops)[ObservationKey(claims[i]) := Posted(claims[i], true)]
                 && Dirtied(book, more) == Dirtied(book, ops) + {claims[i].kind}
  {
    assert claims[..i + 1][..i] == claims[..i];
    PlaySnoc(book, Posts(olds, claims[..i]), Post(claims[i]));
  }

  lemma DropsSnoc(olds: seq<Claim>, claims: seq<Claim>, i: nat, observedAt: int)
    requires i < |olds|
    ensures Drops(olds[..i + 1], claims, observedAt) ==
            if ClaimsKey(claims, ObservationKey(olds[i])) then Drops(olds[..i], claims, observedAt)
            else Drops(olds[..i], claims, observedAt) + [Drop(olds[i].kind, ObservationKey(olds[i]), observedAt)]
  {
    assert olds[..i + 1][..i] == olds[..i];
  }

  /** One more previous claim looked at. */
  lemma DropsStep(olds: seq<Claim>, claims: seq<Claim>, i: nat, observedAt: int, book: Book)
    requires i < |olds|
    ensures var ops, more, key := Drops(olds[..i], claims, observedAt), Drops(olds[..i + 1], claims, observedAt), ObservationKey(olds[i]);
            var now := Play(book, ops);
            if ClaimsKey(claims, key) then more == ops
            else Play(book, more) == Withdrawn(now, key)
                 && Dirtied(book, more) == Dirtied(book, ops) + if key in now && now[key].active then {olds[i].kind} else {}
  {
    DropsSnoc(olds, claims, i, observedAt);
    PlaySnoc(book, Drops(olds[..i], claims, observedAt), Drop(olds[i].kind, ObservationKey(olds[i]), observedAt));
  }

  lemma {:induction false} InPosts(olds: seq<Claim>, claims: seq<Claim>, p: Posting)
    ensures p in Posts(olds, claims) <==> p.Post? && p.claim in claims && !AlreadyClaimed(olds, p.claim)
    decreases |claims|
  {
    if claims != [] {
      var init, last := claims[..|claims| - 1], claims[|claims| - 1];
      assert claims == init + [last];
      InPosts(olds, init, p);
    }
  }

  lemma {:induction false} InDrops(olds: seq<Claim>, claims: seq<Claim>, observedAt: int, p: Posting)
    ensures p in Drops(olds, claims, observedAt) <==>
              exists d :: d in olds && !ClaimsKey(claims, ObservationKey(d)) && p == Drop(d.kind, ObservationKey(d), observedAt)
    decreases |olds|
  {
    if olds != [] {
      var init, last := olds[..|olds| - 1], olds[|olds| - 1];
      assert olds == init + [last];
      InDrops(init, claims, observedAt, p);
    }
  }

  function Claims(t: RoundTarget, row: Option<Row>, observedAt: int): seq<Claim> {
    if row.Some? then ResultObservations(t, row.value, observedAt) else []
  }

  /** Reconcile the current claims the previous row did not already carry, then retract the previous ones
      whose key the current row no longer derives. */
  function RowOps(t: RoundTarget, previous: Option<Row>, current: Option<Row>, observedAt: int): seq<Posting> {
    var olds, claims := Claims(t, previous, observedAt), Claims(t, current, observedAt);
    Posts(olds, claims) + Drops(olds, claims, observedAt)
  }

  lemma RemovalOnlyDrops(t: RoundTarget, row: Row, observedAt: int)
    ensures RowOps(t, Some(row), None, observedAt) == Drops(Claims(t, Some(row), observedAt), [], observedAt)
  {
    assert Posts(Claims(t, Some(row), observedAt), []) == [];
  }

  /** What a row derives for a kind, up to material fingerprint. */
  function WantedOf(t: RoundTarget, row: Option<Row>, kind: Kind): Option<Claim> {
    if row.Some? then DerivedClaim(t, row.value, kind, 0) else None
  }

  lemma ClaimIsWanted(t: RoundTarget, row: Option<Row>, observedAt: int, d: Claim)
    requires d in Claims(t, row, observedAt)
    ensures WantedOf(t, row, d.kind) == Some(Fingerprint(d))
    ensures ObservationKey(d) == KeyOf(t, row.value.resultId, d.kind)
  {
    var i :| 0 <= i < |Claims(t, row, observedAt)| && Claims(t, row, observedAt)[i] == d;
    FingerprintIgnoresTime(t, row.value, d.kind, observedAt);
    DerivedKey(t, row.value, d.kind, observedAt);
  }

  lemma WantedIsClaimed(t: RoundTarget, row: Option<Row>, observedAt: int, kind: Kind) returns (d: Claim)
    requires WantedOf(t, row, kind).Some?
    ensures d in Claims(t, row, observedAt) && d.kind == kind
  {
    FingerprintIgnoresTime(t, row.value, kind, observedAt);
    d := DerivedClaim(t, row.value, kind, observedAt).value;
  }

  /** Both rows are rows of result `id`. */
  predicate Keyed(previous: Option<Row>, current: Option<Row>, id: string) {
    && (previous.Some? ==> previous.value.resultId == id)
    && (current.Some? ==> current.value.resultId == id)
  }

  lemma ClaimsKeyExactly(t: RoundTarget, row: Option<Row>, id: string, observedAt: int, kind: Kind)
    requires row.Some? ==> row.value.resultId == id
    ensures ClaimsKey(Claims(t, row, observedAt), KeyOf(t, id, kind)) <==> WantedOf(t, row, kind).Some?
  {
    var claims := Claims(t, row, observedAt);
    if ClaimsKey(claims, KeyOf(t, id, kind)) {
      var j :| 0 <= j < |claims| && ObservationKey(claims[j]) == KeyOf(t, id, kind);
      ClaimIsWanted(t, row, observedAt, claims[j]);
      KeysAreDistinct(t, id, claims[j].kind, id, kind);
    }
    if WantedOf(t, row, kind).Some? {
      var d := WantedIsClaimed(t, row, observedAt, kind);
      ClaimIsWanted(t, row, observedAt, d);
    }
  }

  lemma AlreadyClaimedExactly(t: RoundTarget, row: Option<Row>, id: string, observedAt: int, d: Claim)
    requires row.Some? ==> row.value.resultId == id
    requires ObservationKey(d) == KeyOf(t, id, d.kind)
    ensures AlreadyClaimed(Claims(t, row, observedAt), d) <==> WantedOf(t, row, d.kind) == Some(Fingerprint(d))
  {
    var olds := Claims(t, row, observedAt);
    if AlreadyClaimed(olds, d) {
      var j :| 0 <= j < |olds| && ObservationKey(olds[j]) == ObservationKey(d) && Fingerprint(olds[j]) == Fingerprint(d);
      ClaimIsWanted(t, row, observedAt, olds[j]);
    }
    if WantedOf(t, row, d.kind) == Some(Fingerprint(d)) {
      var same := WantedIsClaimed(t, row, observedAt, d.kind);
      ClaimIsWanted(t, row, observedAt, same);
    }
  }

  /** A row's postings use its own keys, leave there what the current row derives, and exist exactly for the
      kinds whose claim differs. */
  lemma PostingIsRight(t: RoundTarget, previous: Option<Row>, current: Option<Row>, id: string, observedAt: int, p: Posting)
    requires Keyed(previous, current, id) && p in RowOps(t, previous, current, observedAt)
    ensures PostingKey(p) == KeyOf(t, id, PostingKind(p)) && Effect(p) == WantedOf(t, current, PostingKind(p))
    ensures WantedOf(t, previous, PostingKind(p)) != WantedOf(t, current, PostingKind(p))
  {
    var olds, claims := Claims(t, previous, observedAt), Claims(t, current, observedAt);
    InPosts(olds, claims, p);
    InDrops(olds, claims, observedAt, p);
    if p in Posts(olds, claims) {
      ClaimIsWanted(t, current, observedAt, p.claim);
      AlreadyClaimedExactly(t, previous, id, observedAt, p.claim);
    } else {
      var d :| d in olds && !ClaimsKey(claims, ObservationKey(d)) && p == Drop(d.kind, ObservationKey(d), observedAt);
      ClaimIsWanted(t, previous, observedAt, d);
      ClaimsKeyExactly(t, current, id, observedAt, d.kind);
    }
  }

  lemma NewClaimIsPosted(t: RoundTarget, previous: Option<Row>, current: Option<Row>, id: string, observedAt: int, kind: Kind)
    returns (p: Posting)
    requires Keyed(previous, current, id) && WantedOf(t, current, kind).Some?
    requires WantedOf(t, previous, kind) != WantedOf(t, current, kind)
    ensures p in Posts(Claims(t, previous, observedAt), Claims(t, current, observedAt)) && PostingKey(p) == KeyOf(t, id, kind)
  {
    var d := WantedIsClaimed(t, current, observedAt, kind);
    ClaimIsWanted(t, current, observedAt, d);
    AlreadyClaimedExactly(t, previous, id, observedAt, d);
    p := Post(d);
    InPosts(Claims(t, previous, observedAt), Claims(t, current, observedAt), p);
  }

  lemma OldClaimIsDropped(t: RoundTarget, previous: Option<Row>, current: Option<Row>, id: string, observedAt: int, kind: Kind)
    returns (p: Posting)
    requires Keyed(previous, current, id) && WantedOf(t, current, kind).None? && WantedOf(t, previous, kind).Some?
    ensures p in Drops(Claims(t, previous, observedAt), Claims(t, current, observedAt), observedAt) && PostingKey(p) == KeyOf(t, id, kind)
  {
    var d := WantedIsClaimed(t, previous, observedAt, kind);
    ClaimIsWanted(t, previous, observedAt, d);
    ClaimsKeyExactly(t, current, id, observedAt, kind);
    p := Drop(kind, ObservationKey(d), observedAt);
    InDrops(Claims(t, previous, observedAt), Claims(t, current, observedAt), observedAt, p);
  }

  lemma ChangeIsPosted(t: RoundTarget, previous: Option<Row>, current: Option<Row>, id: string, observedAt: int, kind: Kind)
    returns (p: Posting)
    requires Keyed(previous, current, id) && WantedOf(t, previous, kind) != WantedOf(t, current, kind)
    ensures p in RowOps(t, previous, current, observedAt) && PostingKey(p) == KeyOf(t, id, kind)
  {
    if WantedOf(t, current, kind).Some? {
      p := NewClaimIsPosted(t, previous, current, id, observedAt, kind);
    } else {
      p := OldClaimIsDropped(t, previous, current, id, observedAt, kind);
    }
  }

  predicate SameElsewhere(t: RoundTarget, id: string, before: Book, after: Book) {
    forall key :: key in before.Keys + after.Keys && key != KeyOf(t, id, Single) && key != KeyOf(t, id, Average) ==>
      key in before && key in after && before[key] == after[key]
  }

  /** The row's keys show what the row derives. */
  ghost predicate RowShown(t: RoundTarget, row: Option<Row>, id: string, book: Book) {
    forall kind :: Shown(book, KeyOf(t, id, kind)) == WantedOf(t, row, kind)
  }

  /** The kinds whose shown evidence differs between two books. */
  ghost predicate DirtyKinds(t: RoundTarget, id: string, before: Book, after: Book, dirty: set<Kind>) {
    forall kind :: kind in dirty <==> Shown(before, KeyOf(t, id, kind)) != Shown(after, KeyOf(t, id, kind))
  }

  lemma RowOpsMove(t: RoundTarget, previous: Option<Row>, current: Option<Row>, id: string, observedAt: int, book: Book)
    requires Keyed(previous, current, id) && RowShown(t, previous, id, book)
    ensures var ops := RowOps(t, previous, current, observedAt);
            && RowShown(t, current, id, Play(book, ops)) && SameElsewhere(t, id, book, Play(book, ops))
            && DirtyKinds(t, id, book, Play(book, ops), Dirtied(book, ops))
  {
    var ops := RowOps(t, previous, current, observedAt);
    forall kind
      ensures Shown(Play(book, ops), KeyOf(t, id, kind)) == WantedOf(t, current, kind)
      ensures kind in Dirtied(book, ops) <==> Shown(book, KeyOf(t, id, kind)) != Shown(Play(book, ops), KeyOf(t, id, kind))
    {
      SlotMoves(t, previous, current, id, observedAt, book, kind);
    }
    forall key | key != KeyOf(t, id, Single) && key != KeyOf(t, id, Average)
      ensures Get(Play(book, ops), key) == Get(book, key)
    {
      KeyUntouched(t, previous, current, id, observedAt, book, key);
    }
    SameGets(t, id, book, Play(book, ops));
  }

  /** If the row's keys showed what the previous row derived, they show what the current one derives, nothing else
      moved, and the kinds that changed are reported. */
  ghost predicate MovesRow(t: RoundTarget, previous: Option<Row>, current: Row, book: Book, book': Book, dirty: set<Kind>) {
    RowShown(t, previous, current.resultId, book) ==>
      && RowShown(t, Some(current), current.resultId, book')
      && SameElsewhere(t, current.resultId, book, book')
      && DirtyKinds(t, current.resultId, book, book', dirty)
  }

  /** These postings were made, and exactly the kinds they changed are reported. */
  ghost predicate Plays(book: Book, ops: seq<Posting>, book': Book, dirty: set<Kind>) {
    book' == Play(book, ops) && dirty == Dirtied(book, ops)
  }

  lemma NoClaimsNoDrops(claims: seq<Claim>, observedAt: int, book: Book)
    ensures Plays(book, Drops([], claims, observedAt), book, {})
  {
  }

  /** First what is posted, then what is dropped. */
  lemma RowPlays(t: RoundTarget, previous: Option<Row>, current: Row, observedAt: int, book: Book, middle: Book, book': Book,
                 posted: set<Kind>, dropped: set<Kind>)
    requires Keyed(previous, Some(current), current.resultId)
    requires Plays(book, Posts(Claims(t, previous, observedAt), Claims(t, Some(current), observedAt)), middle, posted)
    requires Plays(middle, Drops(Claims(t, previous, observedAt), Claims(t, Some(current), observedAt), observedAt), book', dropped)
    ensures Plays(book, RowOps(t, previous, Some(current), observedAt), book', posted + dropped)
    ensures MovesRow(t, previous, current, book, book', posted + dropped)
  {
    var olds, claims := Claims(t, previous, observedAt), Claims(t, Some(current), observedAt);
    PlayConcat(book, Posts(olds, claims), Drops(olds, claims, observedAt));
    RowMoves(t, previous, current, observedAt, book);
  }

  lemma RowMoves(t: RoundTarget, previous: Option<Row>, current: Row, observedAt: int, book: Book)
    requires Keyed(previous, Some(current), current.resultId)
    ensures var ops := RowOps(t, previous, Some(current), observedAt);
            MovesRow(t, previous, current, book, Play(book, ops), Dirtied(book, ops))
  {
    if RowShown(t, previous, current.resultId, book) {
      RowOpsMove(t, previous, Some(current), current.resultId, observedAt, book);
    }
  }

  lemma SameGets(t: RoundTarget, id: string, before: Book, after: Book)
    requires forall key :: key != KeyOf(t, id, Single) && key != KeyOf(t, id, Average) ==> Get(after, key) == Get(before, key)
    ensures SameElsewhere(t, id, before, after)
  {
    forall key | key in before.Keys + after.Keys && key != KeyOf(t, id, Single) && key != KeyOf(t, id, Average)
      ensures key in before && key in after && before[key] == after[key]
    {
      assert Get(after, key) == Get(before, key);
    }
  }

  lemma KeyUntouched(t: RoundTarget, previous: Option<Row>, current: Option<Row>, id: string, observedAt: int, book: Book, key: string)
    requires Keyed(previous, current, id) && key != KeyOf(t, id, Single) && key != KeyOf(t, id, Average)
    ensures Get(Play(book, RowOps(t, previous, current, observedAt)), key) == Get(book, key)
  {
    var ops := RowOps(t, previous, current, observedAt);
    forall p | p in ops
      ensures PostingKey(p) != key
    {
      PostingIsRight(t, previous, current, id, observedAt, p);
    }
    PlayElsewhere(book, ops, key);
  }

  lemma SlotMoves(t: RoundTarget, previous: Option<Row>, current: Option<Row>, id: string, observedAt: int, book: Book, kind: Kind)
    requires Keyed(previous, current, id) && RowShown(t, previous, id, book)
    ensures var ops := RowOps(t, previous, current, observedAt);
            && Shown(Play(book, ops), KeyOf(t, id, kind)) == WantedOf(t, current, kind)
            && (kind in Dirtied(book, ops) <==> WantedOf(t, previous, kind) != WantedOf(t, current, kind))
  {
    var ops, key := RowOps(t, previous, current, observedAt), KeyOf(t, id, kind);
    forall p | p in ops && PostingKey(p) == key
      ensures PostingKind(p) == kind && Effect(p) == WantedOf(t, current, kind)
    {
      PostingIsRight(t, previous, current, id, observedAt, p);
      KeysAreDistinct(t, id, PostingKind(p), id, kind);
    }
    if WantedOf(t, previous, kind) != WantedOf(t, current, kind) {
      var p := ChangeIsPosted(t, previous, current, id, observedAt, kind);
    }
    PlayShows(book, ops, key, WantedOf(t, current, kind));
    if WantedOf(t, previous, kind) != WantedOf(t, current, kind) {
      ChangeDirties(book, ops, key, kind);
    }
    if kind in Dirtied(book, ops) {
      DirtiedByPosting(book, ops, kind);
      var p :| p in ops && PostingKind(p) == kind;
      PostingIsRight(t, previous, current, id, observedAt, p);
    }
  }

  // -------- The whole round --------

  /** The postings of these results, one after another. */
  function OrderOps(t: RoundTarget, before: Rows, after: Rows, order: seq<string>, observedAt: int): seq<Posting> {
    if order == [] then []
    else
      var init, id := order[..|order| - 1], order[|order| - 1];
      OrderOps(t, before, after, init, observedAt) + RowOps(t, Get(before, id), Get(after, id), observedAt)
  }

  lemma {:induction false} InOrderOps(t: RoundTarget, before: Rows, after: Rows, order: seq<string>, observedAt: int, p: Posting)
    ensures p in OrderOps(t, before, after, order, observedAt) <==>
              exists id :: id in order && p in RowOps(t, Get(before, id), Get(after, id), observedAt)
    decreases |order|
  {
    if order != [] {
      var init, id := order[..|order| - 1], order[|order| - 1];
      assert order == init + [id];
      InOrderOps(t, before, after, init, observedAt, p);
    }
  }

  /** Every result whose row differs, once, in some order. */
  ghost predicate ListsChanges(before: Rows, after: Rows, order: seq<string>) {
    && (forall i, j :: 0 <= i < j < |order| ==> order[i] != order[j])
    && forall id :: id in order <==> Get(before, id) != Get(after, id)
  }

  lemma WantedAt(t: RoundTarget, rows: Rows, id: string, kind: Kind)
    ensures Wanted(t, rows, id, kind) == WantedOf(t, Get(rows, id), kind)
  {
  }

  /** A posting of the round is a posting of the one result its key names. */
  lemma RoundPosting(t: RoundTarget, before: Rows, after: Rows, order: seq<string>, observedAt: int, p: Posting) returns (id: string)
    requires RowsKeyed(before) && RowsKeyed(after) && p in OrderOps(t, before, after, order, observedAt)
    ensures id in order && PostingKey(p) == KeyOf(t, id, PostingKind(p)) && Effect(p) == Wanted(t, after, id, PostingKind(p))
    ensures ClaimChanges(t, before, after, id, PostingKind(p))
  {
    InOrderOps(t, before, after, order, observedAt, p);
    id :| id in order && p in RowOps(t, Get(before, id), Get(after, id), observedAt);
    PostingIsRight(t, Get(before, id), Get(after, id), id, observedAt, p);
    WantedAt(t, before, id, PostingKind(p));
    WantedAt(t, after, id, PostingKind(p));
  }

  lemma RoundChangeIsPosted(t: RoundTarget, before: Rows, after: Rows, order: seq<string>, observedAt: int, id: string, kind: Kind)
    requires RowsKeyed(before) && RowsKeyed(after) && ListsChanges(before, after, order)
    requires ClaimChanges(t, before, after, id, kind)
    ensures exists p :: p in OrderOps(t, before, after, order, observedAt) && PostingKey(p) == KeyOf(t, id, kind)
  {
    WantedAt(t, before, id, kind);
    WantedAt(t, after, id, kind);
    var p := ChangeIsPosted(t, Get(before, id), Get(after, id), id, observedAt, kind);
    InOrderOps(t, before, after, order, observedAt, p);
  }

  lemma RoundSlot(t: RoundTarget, before: Rows, after: Rows, order: seq<string>, observedAt: int, book: Book, id: string, kind: Kind)
    requires RowsKeyed(before) && RowsKeyed(after) && ListsChanges(before, after, order) && InView(t, before, book)
    ensures var ops := OrderOps(t, before, after, order, observedAt);
            && Shown(Play(book, ops), KeyOf(t, id, kind)) == Wanted(t, after, id, kind)
            && (ClaimChanges(t, before, after, id, kind) ==> kind in Dirtied(book, ops))
  {
    var ops, key := OrderOps(t, before, after, order, observedAt), KeyOf(t, id, kind);
    assert Shown(book, key) == Wanted(t, before, id, kind);
    forall p | p in ops && PostingKey(p) == key
      ensures PostingKind(p) == kind && Effect(p) == Wanted(t, after, id, kind)
    {
      var other := RoundPosting(t, before, after, order, observedAt, p);
      KeysAreDistinct(t, other, PostingKind(p), id, kind);
    }
    if ClaimChanges(t, before, after, id, kind) {
      RoundChangeIsPosted(t, before, after, order, observedAt, id, kind);
    }
    PlayShows(book, ops, key, Wanted(t, after, id, kind));
    if ClaimChanges(t, before, after, id, kind) {
      ChangeDirties(book, ops, key, kind);
    }
  }

  /** The dirty kinds are exactly those for which some row's derived claim differs. */
  ghost predicate DirtyExactly(t: RoundTarget, before: Rows, after: Rows, dirty: set<Kind>) {
    forall kind :: kind in dirty <==> exists id :: ClaimChanges(t, before, after, id, kind)
  }

  /** Whatever the order, posting the rows that differ moves the evidence from the old rows to the new ones,
      and dirties exactly the kinds that changed. */
  lemma OrderOpsMove(t: RoundTarget, before: Rows, after: Rows, order: seq<string>, observedAt: int, book: Book)
    requires RowsKeyed(before) && RowsKeyed(after) && ListsChanges(before, after, order) && InView(t, before, book)
    ensures var ops := OrderOps(t, before, after, order, observedAt);
            InView(t, after, Play(book, ops)) && DirtyExactly(t, before, after, Dirtied(book, ops))
  {
    var ops := OrderOps(t, before, after, order, observedAt);
    forall id, kind
      ensures Shown(Play(book, ops), KeyOf(t, id, kind)) == Wanted(t, after, id, kind)
      ensures ClaimChanges(t, before, after, id, kind) ==> kind in Dirtied(book, ops)
    {
      RoundSlot(t, before, after, order, observedAt, book, id, kind);
    }
    forall kind | kind in Dirtied(book, ops)
      ensures exists id :: ClaimChanges(t, before, after, id, kind)
    {
      DirtiedByPosting(book, ops, kind);
      var p :| p in ops && PostingKind(p) == kind;
      var id := RoundPosting(t, before, after, order, observedAt, p);
    }
  }

  lemma OrderSnoc(t: RoundTarget, before: Rows, after: Rows, order: seq<string>, id: string, observedAt: int)
    ensures OrderOps(t, before, after, order + [id], observedAt) ==
            OrderOps(t, before, after, order, observedAt) + RowOps(t, Get(before, id), Get(after, id), observedAt)
  {
    assert (order + [id])[..|order|] == order;
  }

  /** A list of distinct result ids that are exactly these. */
  ghost predicate Lists(order: seq<string>, ids: set<string>) {
    && (forall i, j :: 0 <= i < j < |order| ==> order[i] != order[j])
    && forall id :: id in order <==> id in ids
  }

  lemma ListsSnoc(order: seq<string>, ids: set<string>, id: string)
    requires Lists(order, ids) && id !in ids
    ensures Lists(order + [id], ids + {id})
  {
    forall i | 0 <= i < |order|
      ensures order[i] != id
    {
      assert order[i] in order;
    }
  }

  lemma ListsDiffering(previous: Rows, current: Rows, order: seq<string>, touched: set<string>, removals: set<string>)
    requires Lists(order, touched + removals) && Differ(previous, current, touched, removals)
    ensures ListsChanges(previous, current, order)
  {
    forall id
      ensures id in order <==> Get(previous, id) != Get(current, id)
    {
    }
  }

  lemma Regrouped(a: seq<Posting>, b: seq<Posting>, c: seq<Posting>)
    ensures a + b + c == a + (b + c)
  {
  }

  lemma {:induction false} OrderConcat(t: RoundTarget, before: Rows, after: Rows, first: seq<string>, second: seq<string>, observedAt: int)
    ensures OrderOps(t, before, after, first + second, observedAt) ==
            OrderOps(t, before, after, first, observedAt) + OrderOps(t, before, after, second, observedAt)
    decreases |second|
  {
    if second == [] {
      assert first + second == first;
    } else {
      var init, id := second[..|second| - 1], second[|second| - 1];
      assert second == init + [id] && first + second == first + init + [id];
      OrderConcat(t, before, after, first, init, observedAt);
      OrderSnoc(t, before, after, init, id, observedAt);
      OrderSnoc(t, before, after, first + init, id, observedAt);
      Regrouped(OrderOps(t, before, after, first, observedAt), OrderOps(t, before, after, init, observedAt),
                RowOps(t, Get(before, id), Get(after, id), observedAt));
    }
  }

  /** These results have been synchronised, in this order, and nothing else. */
  ghost predicate Synchronized(t: RoundTarget, before: Rows, after: Rows, order: seq<string>, ids: set<string>, observedAt: int,
                               was: Book, book: Book, dirty: set<Kind>) {
    && Lists(order, ids)
    && book == Play(was, OrderOps(t, before, after, order, observedAt))
    && dirty == Dirtied(was, OrderOps(t, before, after, order, observedAt))
  }

  lemma NothingSynchronized(t: RoundTarget, before: Rows, after: Rows, observedAt: int, book: Book)
    ensures Synchronized(t, before, after, [], {}, observedAt, book, book, {})
  {
  }

  lemma OneMoreSynchronized(t: RoundTarget, before: Rows, after: Rows, order: seq<string>, ids: set<string>, id: string, observedAt: int,
                            was: Book, book: Book, dirty: set<Kind>)
    requires Synchronized(t, before, after, order, ids, observedAt, was, book, dirty) && id !in ids
    ensures var more := RowOps(t, Get(before, id), Get(after, id), observedAt);
            Synchronized(t, before, after, order + [id], ids + {id}, observedAt, was, Play(book, more), dirty + Dirtied(book, more))
  {
    ListsSnoc(order, ids, id);
    OrderSnoc(t, before, after, order, id, observedAt);
    PlayConcat(was, OrderOps(t, before, after, order, observedAt), RowOps(t, Get(before, id), Get(after, id), observedAt));
  }

  lemma BothSynchronized(t: RoundTarget, before: Rows, after: Rows, first: seq<string>, second: seq<string>, a: set<string>, b: set<string>,
                         observedAt: int, was: Book, middle: Book, book: Book, dirty: set<Kind>, more: set<Kind>)
    requires Synchronized(t, before, after, first, a, observedAt, was, middle, dirty)
    requires Synchronized(t, before, after, second, b, observedAt, middle, book, more) && a !! b
    ensures Synchronized(t, before, after, first + second, a + b, observedAt, was, book, dirty + more)
  {
    ListsConcat(first, second, a, b);
    OrderConcat(t, before, after, first, second, observedAt);
    PlayConcat(was, OrderOps(t, before, after, first, observedAt), OrderOps(t, before, after, second, observedAt));
  }

  /** Once every result that differs is synchronised, the book shows the new rows. */
  lemma FullySynchronized(t: RoundTarget, before: Rows, after: Rows, order: seq<string>, touched: set<string>, removals: set<string>,
                          observedAt: int, was: Book, book: Book, dirty: set<Kind>)
    requires RowsKeyed(before) && RowsKeyed(after) && InView(t, before, was)
    requires Synchronized(t, before, after, order, touched + removals, observedAt, was, book, dirty)
    requires Differ(before, after, touched, removals)
    ensures Moved(t, before, after, order, observedAt, was, book, dirty)
  {
    ListsDiffering(before, after, order, touched, removals);
    OrderOpsMove(t, before, after, order, observedAt, was);
  }

  lemma ListsConcat(first: seq<string>, second: seq<string>, a: set<string>, b: set<string>)
    requires Lists(first, a) && Lists(second, b) && a !! b
    ensures Lists(first + second, a + b)
  {
    forall i, j | 0 <= i < |first| && 0 <= j < |second|
      ensures first[i] != second[j]
    {
      assert first[i] in first && second[j] in second;
    }
  }

  /** What a delivery does to the posted evidence: the postings of the rows that differ, in some order. */
  ghost predicate Follows(t: RoundTarget, before: Rows, after: Rows, order: seq<string>, observedAt: int, book: Book, book': Book) {
    ListsChanges(before, after, order) && book' == Play(book, OrderOps(t, before, after, order, observedAt))
  }

  /** The evidence has moved from the old rows to the new ones, by these postings, and the dirty kinds are reported. */
  ghost predicate Moved(t: RoundTarget, before: Rows, after: Rows, order: seq<string>, observedAt: int, book: Book, book': Book, dirty: set<Kind>) {
    && InView(t, after, book') && DirtyExactly(t, before, after, dirty)
    && Follows(t, before, after, order, observedAt, book, book')
  }

  lemma NothingMoved(t: RoundTarget, rows: Rows, observedAt: int, book: Book)
    requires InView(t, rows, book)
    ensures Moved(t, rows, rows, [], observedAt, book, book, {})
  {
  }

  /** The results that differ between the stored rows and a snapshot. */
  datatype SnapshotDiff = SnapshotDiff(additions: set<string>, changes: set<string>, removals: set<string>)

  function DiffSnapshots(previous: Rows, current: Rows): SnapshotDiff {
    SnapshotDiff(current.Keys - previous.Keys,
                 (set id | id in previous && id in current && previous[id] != current[id]),
                 previous.Keys - current.Keys)
  }

  ghost predicate Differ(previous: Rows, current: Rows, touched: set<string>, removals: set<string>) {
    && removals == previous.Keys - current.Keys
    && forall id :: id in touched <==> id in current && (id !in previous || previous[id] != current[id])
  }

  lemma DiffDiffers(previous: Rows, current: Rows)
    ensures var d := DiffSnapshots(previous, current); Differ(previous, current, d.additions + d.changes, d.removals)
  {
  }

  lemma OneDiffers(previous: Rows, row: Row)
    requires Get(previous, row.resultId) != Some(row)
    ensures Differ(previous, previous[row.resultId := row], {row.resultId}, {})
  {
  }
}
