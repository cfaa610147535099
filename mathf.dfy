/** The engine's scalar helpers (`Mathf`) that the scripts call, written
    out exactly as the engine defines them, over reals. */
module Mathf {

  /** x lies on the closed segment between a and b, in either order. */
  predicate Between(a: real, b: real, x: real) {
    (a <= x <= b) || (b <= x <= a)
  }

  function Abs(f: real): (r: real)
    ensures r >= 0.0 && (r == f || r == -f)
  {
    if f < 0.0 then -f else f
  }

  /** `Mathf.Sign`: 1 for zero and positive arguments, -1 otherwise. */
  function Sign(f: real): (r: real)
    ensures (r == 1.0 <==> f >= 0.0) && (r == -1.0 <==> f < 0.0)
  {
    if f >= 0.0 then 1.0 else -1.0
  }

  /** `Mathf.Max` of two values. */
  function Max(a: real, b: real): (r: real)
    ensures r >= a && r >= b && (r == a || r == b)
  {
    if a > b then a else b
  }

  /** `Mathf.Clamp`: the lower bound is tested first, so when min > max
      a value below min still comes back as min. */
  function Clamp(value: real, min: real, max: real): (r: real)
    ensures min <= max ==> min <= r <= max
    ensures min <= value <= max ==> r == value
    ensures min <= max && value <= min ==> r == min
    ensures min <= max && value >= max ==> r == max
  {
    if value < min then min else if value > max then max else value
  }

  /** `Mathf.Clamp01`. */
  function Clamp01(value: real): (r: real)
    ensures 0.0 <= r <= 1.0
    ensures 0.0 <= value <= 1.0 ==> r == value
    ensures value <= 0.0 ==> r == 0.0
    ensures value >= 1.0 ==> r == 1.0
  {
    if value < 0.0 then 0.0 else if value > 1.0 then 1.0 else value
  }

  /** `Mathf.MoveTowards`: step from current towards target by maxDelta,
      landing exactly on target when it is within reach. */
  function MoveTowards(current: real, target: real, maxDelta: real): (r: real)
    ensures Abs(target - current) <= maxDelta ==> r == target
    ensures maxDelta >= 0.0 ==> Between(current, target, r)
    ensures maxDelta >= 0.0 ==> Abs(r - current) <= maxDelta
    ensures maxDelta >= 0.0 ==> r == target || Abs(r - current) == maxDelta
  {
    if Abs(target - current) <= maxDelta then target
    else current + Sign(target - current) * maxDelta
  }

  /** `Mathf.Lerp`: the interpolation parameter is clamped to [0, 1]
      first, so the result never leaves the segment from a to b. */
  function Lerp(a: real, b: real, t: real): (r: real)
    ensures Between(a, b, r)
    ensures t <= 0.0 ==> r == a
    ensures t >= 1.0 ==> r == b
  {
    var c := Clamp01(t);
    LerpBetween(a, b, c);
    a + (b - a) * c
  }

  lemma LerpBetween(a: real, b: real, c: real)
    requires 0.0 <= c <= 1.0
    ensures Between(a, b, a + (b - a) * c)
  {
    var d := b - a;
    assert d * c + d * (1.0 - c) == d;
    if d >= 0.0 {
      MulNonNegative(d, c);
      MulNonNegative(d, 1.0 - c);
    } else {
      MulNonNegative(-d, c);
      MulNonNegative(-d, 1.0 - c);
    }
  }

  lemma MulNonNegative(x: real, y: real)
    requires x >= 0.0 && y >= 0.0
    ensures x * y >= 0.0
  {
  }

  lemma DivNonPositive(x: real, d: real)
    requires x <= 0.0 && d > 0.0
    ensures x / d <= 0.0
  {
  }

  lemma DivNonNegative(x: real, d: real)
    requires x >= 0.0 && d > 0.0
    ensures x / d >= 0.0
  {
  }

  lemma DivAtLeastOne(x: real, d: real)
    requires x >= d && d > 0.0
    ensures x / d >= 1.0
  {
  }

  lemma DivAtMostOne(x: real, d: real)
    requires x <= d && d > 0.0
    ensures x / d <= 1.0
  {
  }

  lemma MulDiv(a: real, b: real, c: real)
    requires c != 0.0
    ensures (a / c) * b == a * (b / c)
  {
  }

  lemma MulDivCancel(a: real, b: real)
    requires a != 0.0
    ensures (a * b) / a == b
  {
  }
}
