/** Python's `round(x, k)` on exact numbers: nearest multiple of 10^-k, ties to even.
    `scale` is 10^k.  Everything downstream uses only the lemmas of this module. */
module Rounding {
  const GRID2 := 100.0
  const GRID4 := 10_000.0
  const GRID6 := 1_000_000.0
  const GRID8 := 100_000_000.0

  /** How far a number can be from its value to six places. */
  const HALF_MICRO := 0.0000005

  function RoundToInt(x: real): int {
    var n := x.Floor;
    var d := x - n as real;
    if d < 0.5 || (d == 0.5 && n % 2 == 0) then n else n + 1
  }

  function GridValue(n: int, scale: real): real
    requires scale > 0.0
  {
    n as real / scale
  }

  function Round(x: real, scale: real): real
    requires scale > 0.0
  {
    GridValue(RoundToInt(x * scale), scale)
  }

  /** x is a whole number of units 1/scale. */
  ghost predicate OnGrid(x: real, scale: real)
    requires scale > 0.0
  {
    exists n: int :: x == GridValue(n, scale)
  }

  lemma RoundToIntNear(x: real)
    ensures -0.5 <= RoundToInt(x) as real - x <= 0.5
  {
  }

  lemma RoundToIntMono(x: real, y: real)
    requires x <= y
    ensures RoundToInt(x) <= RoundToInt(y)
  {
    if x.Floor < y.Floor {
      assert y.Floor >= x.Floor + 1;
    }
  }

  lemma RoundToIntFixed(n: int)
    ensures RoundToInt(n as real) == n
  {
  }

  /** Half-way cases go to the even neighbour. */
  lemma TiesToEven(n: int)
    ensures RoundToInt(n as real + 0.5) % 2 == 0
  {
    assert (n as real + 0.5).Floor == n;
  }

  lemma DivideMono(a: real, b: real, s: real)
    requires s > 0.0 && a <= b
    ensures a / s <= b / s
  {
  }

  lemma MultiplyMono(a: real, b: real, s: real)
    requires s >= 0.0 && a <= b
    ensures a * s <= b * s
  {
    assert (b - a) * s >= 0.0;
  }

  lemma DivideDifference(a: real, b: real, s: real)
    requires s > 0.0
    ensures (a - b * s) / s == a / s - b
  {
  }

  lemma DivideMultiply(a: real, s: real)
    requires s > 0.0
    ensures a / s * s == a
  {
  }

  /** q is a / s as soon as q * s is a. */
  lemma IsQuotient(a: real, s: real, q: real)
    requires s != 0.0 && q * s == a
    ensures a / s == q
  {
  }

  lemma AddQuotients(a: real, b: real, s: real)
    requires s > 0.0
    ensures a / s + b / s == (a + b) / s
  {
  }

  /** The result is a grid value at most half a unit away. */
  lemma RoundNear(x: real, scale: real)
    requires scale > 0.0
    ensures OnGrid(Round(x, scale), scale)
    ensures -0.5 / scale <= Round(x, scale) - x <= 0.5 / scale
  {
    var i := RoundToInt(x * scale);
    var n := i as real;
    RoundToIntNear(x * scale);
    DivideDifference(n, x, scale);
    DivideMono(n - x * scale, 0.5, scale);
    DivideMono(-0.5, n - x * scale, scale);
    assert Round(x, scale) == GridValue(i, scale);
  }

  lemma RoundMono(x: real, y: real, scale: real)
    requires scale > 0.0 && x <= y
    ensures Round(x, scale) <= Round(y, scale)
  {
    MultiplyMono(x, y, scale);
    RoundToIntMono(x * scale, y * scale);
    var m, n := RoundToInt(x * scale), RoundToInt(y * scale);
    DivideMono(m as real, n as real, scale);
    assert Round(x, scale) == GridValue(m, scale) && Round(y, scale) == GridValue(n, scale);
  }

  /** Grid values are left alone, so rounding twice is rounding once. */
  lemma RoundFixed(x: real, scale: real)
    requires scale > 0.0 && OnGrid(x, scale)
    ensures Round(x, scale) == x
  {
    var n: int :| x == GridValue(n, scale);
    DivideMultiply(n as real, scale);
    RoundToIntFixed(n);
    RoundScaled(x, scale, n as real);
  }

  lemma RoundScaled(x: real, scale: real, q: real)
    requires scale > 0.0 && x * scale == q
    ensures Round(x, scale) == GridValue(RoundToInt(q), scale)
  {
  }

  /** Rounding a number of [lo, hi] with grid ends stays inside. */
  lemma RoundWithin(x: real, lo: real, hi: real, scale: real)
    requires scale > 0.0 && lo <= x <= hi && OnGrid(lo, scale) && OnGrid(hi, scale)
    ensures lo <= Round(x, scale) <= hi
  {
    RoundMono(lo, x, scale);
    RoundMono(x, hi, scale);
    RoundFixed(lo, scale);
    RoundFixed(hi, scale);
  }

  /** The four-place grid refines into the six-place one. */
  lemma Grid4OnGrid6(x: real)
    requires OnGrid(x, GRID4)
    ensures OnGrid(x, GRID6)
  {
    var n: int :| x == GridValue(n, GRID4);
    assert x == GridValue(n * 100, GRID6);
  }

  lemma UnitOnGrid4()
    ensures OnGrid(0.0, GRID4) && OnGrid(1.0, GRID4)
    ensures OnGrid(0.0, GRID6) && OnGrid(1.0, GRID6)
  {
    assert 0.0 == GridValue(0, GRID4) == GridValue(0, GRID6);
    assert 1.0 == GridValue(10_000, GRID4) == GridValue(1_000_000, GRID6);
  }
}
