/** Exact-arithmetic stand-ins for the numeric built-ins the monitor applies to prices. */
module Numeric {

  /** The quantity `n / 100`: a value with exactly two decimals. */
  function Cents(n: int): real {
    n as real / 100.0
  }

  /** `round(x, 2)`: the nearest multiple of 1/100, a tie going to the even multiple. */
  function Round2(x: real): (r: real)
    ensures exists n :: r == Cents(n)
    ensures -0.005 <= r - x <= 0.005
  {
    var scaled := x * 100.0;
    var n := scaled.Floor;
    var fraction := scaled - n as real;
    var nearest :=
      if fraction < 0.5 then n
      else if fraction > 0.5 then n + 1
      else if n % 2 == 0 then n
      else n + 1;
    Cents(nearest)
  }

  /** A value that already has two decimals is left as it is by rounding. */
  lemma Round2KeepsCents(n: int)
    ensures Round2(Cents(n)) == Cents(n)
  {
    var scaled := Cents(n) * 100.0;
    assert scaled == n as real;
    assert scaled.Floor == n;
  }

  /** Percentage change `delta / base * 100`, or 0 when the base is zero (a falsy divisor). */
  function Percent(delta: real, base: real): (r: real)
    ensures base != 0.0 ==> r * base == delta * 100.0
    ensures base == 0.0 ==> r == 0.0
  {
    if base != 0.0 then delta / base * 100.0 else 0.0
  }

  /** `int(x)`: truncation toward zero. */
  function Truncate(x: real): (r: int)
    ensures 0.0 <= x ==> r as real <= x < r as real + 1.0
    ensures x < 0.0 ==> r as real - 1.0 < x <= r as real
  {
    if x >= 0.0 then x.Floor else -((-x).Floor)
  }
}
