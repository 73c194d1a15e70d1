/** Arithmetic helpers shared by both simulation engines: clamping, rounding
    to two decimal places and Python's floor division. */
module Numeric {

  /** A result of `random.random()`. */
  type Draw = r: real | 0.0 <= r < 1.0

  function Min(a: real, b: real): real { if a <= b then a else b }
  function Max(a: real, b: real): real { if a <= b then b else a }

  /** `max(lo, min(hi, v))`, the clamp both engines write out. */
  function Clamp(v: real, lo: real, hi: real): (r: real)
    ensures lo <= hi ==> lo <= r <= hi
    ensures lo <= v <= hi ==> r == v
    ensures lo <= hi && v < lo ==> r == lo
    ensures lo <= hi && hi < v ==> r == hi
  {
    Max(lo, Min(hi, v))
  }

  /** `round(x, 2)`, modelled as rounding half up to the nearest hundredth. */
  function Round2(x: real): real
  {
    (x * 100.0 + 0.5).Floor as real / 100.0
  }

  /** `k` hundredths as a real number. */
  function Cents(k: int): real { k as real / 100.0 }

  lemma FloorBounds(y: real)
    ensures y - 1.0 < y.Floor as real <= y
  {
  }

  /** Rounding moves a value by at most half a hundredth. */
  lemma Round2Near(x: real)
    ensures x - 0.005 < Round2(x) <= x + 0.005
  {
    FloorBounds(x * 100.0 + 0.5);
  }

  /** Rounding never crosses a bound that is itself a whole number of hundredths. */
  lemma Round2Bounds(x: real, lo: int, hi: int)
    requires Cents(lo) <= x <= Cents(hi)
    ensures Cents(lo) <= Round2(x) <= Cents(hi)
  {
    var y := x * 100.0 + 0.5;
    FloorBounds(y);
    assert lo as real + 0.5 <= y <= hi as real + 0.5;
    assert lo <= y.Floor <= hi;
  }

  /** A whole number of hundredths is left unchanged by rounding. */
  lemma Round2Cents(k: int)
    ensures Round2(Cents(k)) == Cents(k)
  {
    var y := Cents(k) * 100.0 + 0.5;
    assert y == k as real + 0.5;
    FloorBounds(y);
    assert y.Floor == k;
  }

  /** A fraction below one of a positive amount stays below that amount. */
  lemma ScaleBelow(r: real, t: real)
    requires 0.0 <= r < 1.0 && t > 0.0
    ensures 0.0 <= r * t < t
  {
    assert t - r * t == (1.0 - r) * t;
    assert (1.0 - r) * t > 0.0;
  }

  /** Python's `a // b` (floor division); Dafny's own `/` is Euclidean. */
  function FloorDiv(a: int, b: int): (q: int)
    requires b != 0
    ensures b > 0 ==> b * q <= a < b * q + b
    ensures b < 0 ==> b * q + b < a <= b * q
  {
    if b > 0 then a / b else (-a) / (-b)
  }
}
