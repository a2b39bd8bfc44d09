/**
 * The shipment quantity counter: what the plus and minus buttons make of the
 * form's current `amt` (which may be absent, hence the `|| 0`). The amount is a
 * JavaScript number, so a typed fraction such as 1.5 is possible.
 */
module Counter {
  import opened Common

  /** `handlePlus`: `(amt || 0) + 1`, with no upper bound. */
  function PlusValue(amt: Option<Number>): (r: Number)
    ensures r > OrZero(amt)
    ensures amt.Some? && amt.value >= 0.0 ==> r >= 1.0
  {
    OrZero(amt) + 1.0
  }

  /** `handleMinus`: `amt - 1` when `(amt || 0) > 1`, otherwise `amt` is left as it was. */
  function MinusValue(amt: Option<Number>): (r: Option<Number>)
    ensures OrZero(amt) > 1.0 ==> r == Some(OrZero(amt) - 1.0)
    ensures OrZero(amt) <= 1.0 ==> r == amt
  {
    var current := OrZero(amt);
    if current > 1.0 then Some(current - 1.0) else amt
  }

  /** A click on one of the two buttons. */
  datatype Click = Plus | Minus

  /** The value of `amt` after one click. */
  function Step(amt: Option<Number>, c: Click): Option<Number> {
    match c
    case Plus => Some(PlusValue(amt))
    case Minus => MinusValue(amt)
  }

  /** The value of `amt` after a sequence of clicks, in order. */
  function Run(amt: Option<Number>, clicks: seq<Click>): Option<Number>
    decreases |clicks|
  {
    if clicks == [] then amt else Run(Step(amt, clicks[0]), clicks[1..])
  }

  /** A number with no fractional part. */
  predicate IsWhole(x: Number) {
    x.Floor as real == x
  }

  /** A present, whole amount of at least one unit. */
  predicate WholeAtLeastOne(amt: Option<Number>) {
    amt.Some? && amt.value >= 1.0 && IsWhole(amt.value)
  }

  /** A present amount above zero. */
  predicate Positive(amt: Option<Number>) {
    amt.Some? && amt.value > 0.0
  }

  /** On a whole amount of at least 1, minus is `max(1, amt - 1)`: a no-op at the floor. */
  lemma MinusIsFloored(v: Number)
    requires v >= 1.0 && IsWhole(v)
    ensures MinusValue(Some(v)) == Some(if v - 1.0 >= 1.0 then v - 1.0 else 1.0)
  {
  }

  /**
   * Between 1 and 2 the floor does not hold: `currentVal > 1` lets the
   * subtraction through and the amount drops below one unit (but stays positive).
   */
  lemma MinusBelowOneFromFraction(v: Number)
    requires 1.0 < v < 2.0
    ensures MinusValue(Some(v)) == Some(v - 1.0)
    ensures 0.0 < MinusValue(Some(v)).value < 1.0
  {
  }

  /** The smallest witness of the above: a typed 1.5 followed by minus gives 0.5. */
  lemma MinusFromOneAndAHalf()
    ensures MinusValue(Some(1.5)) == Some(0.5)
  {
  }

  /** Minus undoes plus exactly on the positive amounts. */
  lemma MinusUndoesPlus(v: Number)
    ensures MinusValue(Some(PlusValue(Some(v)))) == Some(v) <==> v > 0.0
  {
  }

  /** Plus undoes minus above the floor. */
  lemma PlusUndoesMinus(v: Number)
    requires v > 1.0
    ensures Step(MinusValue(Some(v)), Plus) == Some(v)
  {
  }

  /** One click keeps a whole amount of at least 1 whole and at least 1. */
  lemma StepKeepsFloor(amt: Option<Number>, c: Click)
    requires WholeAtLeastOne(amt)
    ensures WholeAtLeastOne(Step(amt, c))
    ensures Step(amt, c).value <= amt.value + 1.0
  {
    var n := amt.value.Floor;
    assert amt.value == n as real;
    if c == Plus {
      assert Step(amt, c).value == (n + 1) as real;
    } else if n > 1 {
      assert Step(amt, c).value == (n - 1) as real;
    }
  }

  /** Starting from a whole amount of at least 1, no sequence of clicks leaves the whole amounts of at least 1. */
  lemma {:induction false} RunKeepsFloor(amt: Option<Number>, clicks: seq<Click>)
    requires WholeAtLeastOne(amt)
    ensures WholeAtLeastOne(Run(amt, clicks))
    decreases |clicks|
  {
    if clicks != [] {
      StepKeepsFloor(amt, clicks[0]);
      RunKeepsFloor(Step(amt, clicks[0]), clicks[1..]);
    }
  }

  /** Starting from any positive amount, whole or not, no sequence of clicks reaches zero or below. */
  lemma {:induction false} RunKeepsPositive(amt: Option<Number>, clicks: seq<Click>)
    requires Positive(amt)
    ensures Positive(Run(amt, clicks))
    decreases |clicks|
  {
    if clicks != [] {
      RunKeepsPositive(Step(amt, clicks[0]), clicks[1..]);
    }
  }

  /** After any run from a whole `v >= 1` the quantity is present, at least 1, and at most one higher per click. */
  lemma {:induction false} RunBounded(v: Number, clicks: seq<Click>)
    requires v >= 1.0 && IsWhole(v)
    ensures Run(Some(v), clicks).Some?
    ensures 1.0 <= Run(Some(v), clicks).value <= v + |clicks| as real
    decreases |clicks|
  {
    if clicks != [] {
      var next := Step(Some(v), clicks[0]);
      StepKeepsFloor(Some(v), clicks[0]);
      RunBounded(next.value, clicks[1..]);
    }
  }
}
