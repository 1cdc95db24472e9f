/** Python's `round(x, places)` on the exact value: the nearest multiple of
    10^-places, a tie going to the even neighbour. */
module Rounding {

  function Pow10(n: nat): (p: nat)
    ensures p >= 1
  {
    if n == 0 then 1 else 10 * Pow10(n - 1)
  }

  /** The integer nearest to `y`, a tie going to the even one. */
  function HalfEven(y: real): (n: int)
    ensures -0.5 <= n as real - y <= 0.5
    ensures n == y.Floor || n == y.Floor + 1
    ensures y - y.Floor as real == 0.5 ==> n % 2 == 0
  {
    var f := y.Floor;
    var frac := y - f as real;
    if frac > 0.5 || (frac == 0.5 && f % 2 == 1) then f + 1 else f
  }

  /** The nearest multiple of `1 / scale`. */
  function RoundAt(x: real, scale: real): real
    requires scale > 0.0
  {
    HalfEven(x * scale) as real / scale
  }

  /** 10^places, as a real. */
  function Scale(places: nat): (s: real)
    ensures s >= 1.0
  {
    Pow10(places) as real
  }

  /** `round(x, places)`. */
  function Round(x: real, places: nat): real {
    RoundAt(x, Scale(places))
  }

  lemma HalfEvenOfInteger(n: int)
    ensures HalfEven(n as real) == n
  {
  }

  lemma HalfEvenMonotonic(a: real, b: real)
    requires a <= b
    ensures HalfEven(a) <= HalfEven(b)
  {
    var fa, fb := a.Floor, b.Floor;
    if fa == fb {
      assert a - fa as real <= b - fb as real;
    }
  }

  lemma ScaleMonotonic(x: real, y: real, s: real)
    requires x <= y && s > 0.0
    ensures x * s <= y * s
  {
  }

  lemma DivideMonotonic(x: real, y: real, s: real)
    requires x <= y && s > 0.0
    ensures x / s <= y / s
  {
  }

  lemma DivideInverts(x: real, n: real, s: real)
    requires x * s == n && s > 0.0
    ensures n / s == x
  {
  }

  lemma MultiplyInverts(n: real, s: real)
    requires s > 0.0
    ensures n / s * s == n
  {
  }

  lemma RoundAtIsNearest(x: real, s: real)
    requires s > 0.0
    ensures -0.5 <= (RoundAt(x, s) - x) * s <= 0.5
  {
    var n := HalfEven(x * s) as real;
    var r := RoundAt(x, s);
    MultiplyInverts(n, s);
    assert (r - x) * s == r * s - x * s;
  }

  /** The result is within half a unit of the last place of `x`. */
  lemma RoundIsNearest(x: real, places: nat)
    ensures -0.5 <= (Round(x, places) - x) * Scale(places) <= 0.5
  {
    RoundAtIsNearest(x, Scale(places));
  }

  lemma RoundAtExact(x: real, s: real, units: int)
    requires s > 0.0 && x * s == units as real
    ensures RoundAt(x, s) == x
  {
    HalfEvenOfInteger(units);
    DivideInverts(x, units as real, s);
  }

  /** A value that already has at most `places` decimals is left alone. */
  lemma RoundExact(x: real, places: nat, units: int)
    requires x * Scale(places) == units as real
    ensures Round(x, places) == x
  {
    RoundAtExact(x, Scale(places), units);
  }

  lemma RoundAtMonotonic(x: real, y: real, s: real)
    requires x <= y && s > 0.0
    ensures RoundAt(x, s) <= RoundAt(y, s)
  {
    ScaleMonotonic(x, y, s);
    HalfEvenMonotonic(x * s, y * s);
    DivideMonotonic(HalfEven(x * s) as real, HalfEven(y * s) as real, s);
  }

  /** Rounding never reorders two values. */
  lemma RoundMonotonic(x: real, y: real, places: nat)
    requires x <= y
    ensures Round(x, places) <= Round(y, places)
  {
    RoundAtMonotonic(x, y, Scale(places));
  }
}
