/** Python's `round(x, n)` and the rounding done by `format(x, ".nf")`,
    on exact values: the nearest multiple of 10^-n, ties to even. */
module Rounding {
  import opened Numerals

  /** The integer nearest to `x`; on a tie, the even one. */
  function RoundHalfEven(x: real): (n: int)
    ensures x - 1.0 / 2.0 <= n as real <= x + 1.0 / 2.0
    ensures (n as real - x == 1.0 / 2.0 || x - n as real == 1.0 / 2.0) ==> n % 2 == 0
    ensures x >= 0.0 ==> n >= 0
  {
    var f := x.Floor;
    var d := x - f as real;
    if d < 1.0 / 2.0 then f
    else if d > 1.0 / 2.0 then f + 1
    else if f % 2 == 0 then f
    else f + 1
  }

  /** Any integer strictly closer than one half to `x` is the rounding of `x`. */
  lemma NearestIsRounding(x: real, n: int)
    requires x - 1.0 / 2.0 < n as real < x + 1.0 / 2.0
    ensures RoundHalfEven(x) == n
  {
  }

  /** Scaling by a positive factor and back is the identity. */
  lemma ScaleBack(a: real, p: real)
    requires p > 0.0
    ensures a / p * p == a
  {
  }

  /** Dividing by a positive factor keeps the order of the bounds. */
  lemma DivideBounds(lo: real, a: real, hi: real, p: real)
    requires p > 0.0 && lo <= a <= hi
    ensures lo / p <= a / p <= hi / p
  {
  }

  /** A real is "on the grid" of `places` decimals when it is a whole number of 10^-places. */
  predicate OnGrid(x: real, places: nat) {
    (x * Pow10(places) as real).Floor as real == x * Pow10(places) as real
  }

  /** An integer within one half of `x * p` lies, once divided by `p`, within `1/(2p)` of `x`. */
  lemma UnscaleBounds(x: real, p: real, n: real)
    requires p > 0.0 && x * p - 1.0 / 2.0 <= n <= x * p + 1.0 / 2.0
    ensures x - 1.0 / (2.0 * p) <= n / p <= x + 1.0 / (2.0 * p)
  {
    DivideBounds(x * p - 1.0 / 2.0, n, x * p + 1.0 / 2.0, p);
    assert (x * p - 1.0 / 2.0) / p == x - 1.0 / (2.0 * p);
    assert (x * p + 1.0 / 2.0) / p == x + 1.0 / (2.0 * p);
  }

  /** Dividing an integer by a positive scale lands on that scale's grid. */
  lemma GridPoint(n: int, places: nat)
    ensures OnGrid(n as real / Pow10(places) as real, places)
  {
    var p := Pow10(places) as real;
    ScaleBack(n as real, p);
    assert (n as real).Floor == n;
  }

  /** `round(x, places)`. */
  function RoundTo(x: real, places: nat): (r: real)
    ensures OnGrid(r, places)
    ensures x - 1.0 / (2 * Pow10(places)) as real <= r <= x + 1.0 / (2 * Pow10(places)) as real
  {
    var p := Pow10(places) as real;
    var n := RoundHalfEven(x * p);
    GridPoint(n, places);
    UnscaleBounds(x, p, n as real);
    assert (2 * Pow10(places)) as real == 2.0 * p;
    n as real / p
  }

  /** `v` is a whole number of pence within half a penny of `x`, as `round(x, 2)` promises. */
  predicate PenceNear(v: real, x: real) {
    (v * 100.0).Floor as real == v * 100.0 && x - 0.005 <= v <= x + 0.005
  }

  /** `round(x, 2)`, the per-holding rounding of both portfolio variants. */
  function Round2(x: real): (r: real)
    ensures OnGrid(r, 2)
    ensures x - 0.005 <= r <= x + 0.005
    ensures PenceNear(r, x)
  {
    assert Pow10(2) == 100;
    RoundTo(x, 2)
  }

  /** Rounding leaves a value already on the grid unchanged. */
  lemma RoundToOnGrid(x: real, places: nat)
    requires OnGrid(x, places)
    ensures RoundTo(x, places) == x
  {
    var p := Pow10(places) as real;
    var k := (x * p).Floor;
    assert x * p == k as real;
    NearestIsRounding(x * p, k);
    assert k as real / p == x;
  }

  /** Rounding twice is rounding once. */
  lemma RoundToIdempotent(x: real, places: nat)
    ensures RoundTo(RoundTo(x, places), places) == RoundTo(x, places)
  {
    RoundToOnGrid(RoundTo(x, places), places);
  }

  /** A whole number of pence is its own rounding. */
  lemma Round2Exact(pence: int)
    ensures Round2(pence as real / 100.0) == pence as real / 100.0
  {
    var x := pence as real / 100.0;
    assert x * 100.0 == pence as real;
    assert Pow10(2) == 100;
    RoundToOnGrid(x, 2);
  }
}
