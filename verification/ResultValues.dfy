/** Encoded attempt results: the order they rank in and the digits of a multi-blind value. */
module ResultValues {
  import opened RecordDomain

  const DNF := -1
  const DNS := -2
  const MULTI_BLIND := "333mbf"
  const FEWEST_MOVES := "333fm"

  /** Sentinel seconds of a multi-blind result without a time. */
  const NO_TIME := 99999

  datatype SortKey = SortKey(incomplete: int, value: int)

  predicate IsCompleteValue(value: Option<int>) {
    value.Some? && IsComplete(value.value)
  }

  /** Lexicographic order of the key pair. */
  predicate KeyLess(a: SortKey, b: SortKey) {
    a.incomplete < b.incomplete || (a.incomplete == b.incomplete && a.value < b.value)
  }

  function ComparisonKey(event: string, value: Option<int>): SortKey {
    if !IsCompleteValue(value) then SortKey(1, 0)
    else if event == MULTI_BLIND then SortKey(0, value.value)
    else if event == FEWEST_MOVES then SortKey(0, value.value)
    else SortKey(0, value.value)
  }

  predicate IsBetter(event: string, candidate: Option<int>, incumbent: Option<int>) {
    if !IsCompleteValue(candidate) then false
    else if !IsCompleteValue(incumbent) then true
    else KeyLess(ComparisonKey(event, candidate), ComparisonKey(event, incumbent))
  }

  /** The two orders the code offers are one order, on every value including DNF, DNS, zero and null. */
  lemma BetterIsKeyOrder(event: string, a: Option<int>, b: Option<int>)
    ensures IsBetter(event, a, b) <==> KeyLess(ComparisonKey(event, a), ComparisonKey(event, b))
    ensures !IsCompleteValue(a) ==> !IsBetter(event, a, b)
    ensures IsCompleteValue(a) && IsCompleteValue(b) ==> (IsBetter(event, a, b) <==> a.value < b.value)
  {
    if IsCompleteValue(a) {
      assert ComparisonKey(event, a) == SortKey(0, a.value);
    }
  }

  /** It is a strict weak order whose ties are equal complete values or two incomplete ones. */
  lemma BetterIsWeakOrder(event: string, a: Option<int>, b: Option<int>, c: Option<int>)
    ensures !(IsBetter(event, a, b) && IsBetter(event, b, a))
    ensures IsBetter(event, a, b) ==> IsBetter(event, a, c) || IsBetter(event, c, b)
    ensures !IsBetter(event, a, b) && !IsBetter(event, b, a) <==>
            (if IsCompleteValue(a) then a == b else !IsCompleteValue(b))
  {
    BetterIsKeyOrder(event, a, b);
    BetterIsKeyOrder(event, b, a);
    BetterIsKeyOrder(event, a, c);
    BetterIsKeyOrder(event, c, b);
  }

  // -------- Multi-blind --------

  datatype MultiBlind = MultiBlind(solved: int, attempted: int, centiseconds: Option<int>)

  function DecodeMultiBlind(value: int): MultiBlind {
    if value <= 0 then MultiBlind(0, 0, None)
    else
      var missed := value % 100;
      var seconds := (value / 100) % 100000;
      var points := 99 - ((value / 10000000) % 100);
      var solved := points + missed;
      MultiBlind(solved, solved + missed, if seconds == NO_TIME then None else Some(seconds * 100))
  }

  /** The digits of a multi-blind value: 99 minus points, seconds, missed. */
  datatype Digits = Digits(points: int, seconds: int, missed: int)

  predicate InRange(d: Digits) {
    0 <= d.points <= 99 && 0 <= d.seconds <= NO_TIME && 0 <= d.missed <= 99
  }

  function Encode(d: Digits): int {
    (99 - d.points) * 10000000 + d.seconds * 100 + d.missed
  }

  function Meaning(d: Digits): MultiBlind {
    MultiBlind(d.points + d.missed, d.points + 2 * d.missed, if d.seconds == NO_TIME then None else Some(d.seconds * 100))
  }

  /** More points, then less time, then fewer missed cubes. */
  predicate RanksAbove(a: Digits, b: Digits) {
    || a.points > b.points
    || (a.points == b.points && a.seconds < b.seconds)
    || (a.points == b.points && a.seconds == b.seconds && a.missed < b.missed)
  }

  lemma DigitsOf(high: int, middle: int, low: int)
    requires 0 <= middle < 100000 && 0 <= low < 100 && 0 <= high
    ensures var v := high * 10000000 + middle * 100 + low;
            v % 100 == low && (v / 100) % 100000 == middle && v / 10000000 == high
  {
    var v := high * 10000000 + middle * 100 + low;
    assert v == (high * 100000 + middle) * 100 + low;
    assert v / 100 == high * 100000 + middle;
    assert v == high * 10000000 + (middle * 100 + low);
  }

  /** Decoding inverts the encoding over its whole digit ranges, whenever the encoding is positive. */
  lemma DecodeInvertsEncode(d: Digits)
    requires InRange(d) && Encode(d) > 0
    ensures DecodeMultiBlind(Encode(d)) == Meaning(d)
  {
    DigitsOf(99 - d.points, d.seconds, d.missed);
  }

  /** The one encoding in range that is not positive is the impossible 99 points in no time. */
  lemma EncodePositiveExactly(d: Digits)
    requires InRange(d)
    ensures Encode(d) > 0 <==> d != Digits(99, 0, 0)
  {
  }

  lemma MeaningIsInjective(a: Digits, b: Digits)
    requires InRange(a) && InRange(b) && Meaning(a) == Meaning(b)
    ensures a == b
  {
  }

  function DigitsIn(value: int): (d: Digits)
    requires value > 0
    ensures InRange(d)
  {
    Digits(99 - (value / 10000000) % 100, (value / 100) % 100000, value % 100)
  }

  lemma LastNineDigits(billions: int, rest: int)
    requires billions >= 0 && 0 <= rest < 1000000000
    ensures (billions * 1000000000 + rest) % 1000000000 == rest
  {
  }

  lemma DigitsInEncode(value: int)
    requires value > 0
    ensures Encode(DigitsIn(value)) == value % 1000000000
  {
    var high, low := value / 10000000, value % 10000000;
    var middle, missed := low / 100, low % 100;
    var billions, points := high / 100, high % 100;
    assert value == high * 10000000 + middle * 100 + missed;
    DigitsOf(high, middle, missed);
    assert DigitsIn(value) == Digits(99 - points, middle, missed);
    LastNineDigits(billions, points * 10000000 + middle * 100 + missed);
    assert value == billions * 1000000000 + (points * 10000000 + middle * 100 + missed);
  }

  /** Two positive values decode alike exactly when they agree in their last nine digits. */
  lemma DecodesAlikeExactly(v: int, w: int)
    requires v > 0 && w > 0
    ensures DecodeMultiBlind(v) == DecodeMultiBlind(w) <==> v % 1000000000 == w % 1000000000
  {
    DigitsInEncode(v);
    DigitsInEncode(w);
    assert DecodeMultiBlind(v) == Meaning(DigitsIn(v));
    assert DecodeMultiBlind(w) == Meaning(DigitsIn(w));
    if DecodeMultiBlind(v) == DecodeMultiBlind(w) {
      MeaningIsInjective(DigitsIn(v), DigitsIn(w));
    }
    if v % 1000000000 == w % 1000000000 {
      EncodeIsInjective(DigitsIn(v), DigitsIn(w));
    }
  }

  lemma EncodeIsInjective(a: Digits, b: Digits)
    requires InRange(a) && InRange(b) && Encode(a) == Encode(b)
    ensures a == b
  {
    DigitsOf(99 - a.points, a.seconds, a.missed);
    DigitsOf(99 - b.points, b.seconds, b.missed);
  }

  /** The numeric order of positive encodings is the ranking rule. */
  lemma EncodedOrderIsRanking(a: Digits, b: Digits)
    requires InRange(a) && InRange(b) && Encode(a) > 0 && Encode(b) > 0
    ensures IsBetter(MULTI_BLIND, Some(Encode(a)), Some(Encode(b))) <==> RanksAbove(a, b)
  {
    BetterIsKeyOrder(MULTI_BLIND, Some(Encode(a)), Some(Encode(b)));
    if a.points == b.points && a.seconds == b.seconds {
    } else if a.points == b.points {
      assert a.seconds < b.seconds ==> a.seconds * 100 + 100 <= b.seconds * 100;
    }
  }
}
