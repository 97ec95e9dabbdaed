/** Peak-to-trough drawdown of an equity curve, as both backtests compute it in one pass,
    against the definition over all pairs of bars. */
module Drawdown {
  import opened Rounding

  function Max(a: real, b: real): real {
    if a >= b then a else b
  }

  function Peak(curve: seq<real>): real
    requires curve != []
  {
    var n := |curve| - 1;
    if n == 0 then curve[0] else Max(Peak(curve[..n]), curve[n])
  }

  /** The gate divides by any non-zero peak; the engine only by a positive one. */
  datatype Guard = NonZeroPeak | PositivePeak

  predicate Usable(guard: Guard, peak: real) {
    if guard.NonZeroPeak? then peak != 0.0 else peak > 0.0
  }

  /** The running-peak recursion: worst fractional drop seen so far. */
  function WorstDrop(curve: seq<real>, guard: Guard): real {
    if curve == [] then 0.0
    else
      var n := |curve| - 1;
      var peak := Peak(curve);
      var worst := WorstDrop(curve[..n], guard);
      if Usable(guard, peak) then Max(worst, (peak - curve[n]) / peak) else worst
  }

  method GateMaxDrawdownPct(curve: seq<real>) returns (pct: real)
    ensures pct == Round(WorstDrop(curve, NonZeroPeak) * 100.0, GRID4)
  {
    var peak := if curve != [] then curve[0] else 0.0;
    var worst := 0.0;
    for i := 0 to |curve|
      invariant i == 0 && curve != [] ==> peak == curve[0]
      invariant i > 0 ==> peak == Peak(curve[..i])
      invariant worst == WorstDrop(curve[..i], NonZeroPeak)
    {
      assert curve[..i + 1][..i] == curve[..i];
      peak := Max(peak, curve[i]);
      if peak != 0.0 {
        worst := Max(worst, (peak - curve[i]) / peak);
      }
    }
    assert curve[..|curve|] == curve;
    pct := Round(worst * 100.0, GRID4);
  }

  method EngineMaxDrawdownPct(curve: seq<real>) returns (maxDd: real)
    requires curve != []
    ensures maxDd == WorstDrop(curve, PositivePeak) * 100.0
  {
    var peak := curve[0];
    maxDd := 0.0;
    for i := 0 to |curve|
      invariant peak == if i == 0 then curve[0] else Peak(curve[..i])
      invariant maxDd == WorstDrop(curve[..i], PositivePeak) * 100.0
    {
      assert curve[..i + 1][..i] == curve[..i];
      peak := Max(peak, curve[i]);
      if peak > 0.0 {
        maxDd := Max(maxDd, (peak - curve[i]) / peak * 100.0);
      }
    }
    assert curve[..|curve|] == curve;
  }

  // ---------------------------------------------------------------- the definition

  function Drop(curve: seq<real>, i: nat, j: nat): real
    requires i <= j < |curve| && curve[i] > 0.0
  {
    (curve[i] - curve[j]) / curve[i]
  }

  ghost predicate BoundsAllDrops(curve: seq<real>, d: real) {
    forall i: nat, j: nat :: i <= j < |curve| && curve[i] > 0.0 ==> Drop(curve, i, j) <= d
  }

  ghost predicate IsSomeDrop(curve: seq<real>, d: real) {
    exists i: nat, j: nat :: i <= j < |curve| && curve[i] > 0.0 && Drop(curve, i, j) == d
  }

  ghost predicate Solvent(curve: seq<real>) {
    curve != [] && curve[0] > 0.0 && forall i :: 0 <= i < |curve| ==> curve[i] >= 0.0
  }

  lemma {:induction false} PeakIsMax(curve: seq<real>) returns (top: nat)
    requires curve != []
    ensures top < |curve| && curve[top] == Peak(curve)
    ensures forall i :: 0 <= i < |curve| ==> curve[i] <= Peak(curve)
  {
    var n := |curve| - 1;
    if n == 0 {
      top := 0;
    } else {
      top := PeakIsMax(curve[..n]);
      forall i | 0 <= i < n ensures curve[i] <= Peak(curve) {
        assert curve[i] == curve[..n][i];
      }
      if curve[n] >= Peak(curve[..n]) {
        top := n;
      }
    }
  }

  lemma FractionLost(peak: real, e: real)
    requires peak != 0.0
    ensures (peak - e) / peak == 1.0 - e / peak
  {
    var q := e / peak;
    assert q * peak == e;
    assert (1.0 - q) * peak == peak - q * peak;
    IsQuotient(peak - e, peak, 1.0 - q);
  }

  /** Dropping to e >= 0 from a higher point is a larger fraction. */
  lemma DropMonotone(low: real, high: real, e: real)
    requires 0.0 < low <= high && e >= 0.0
    ensures (low - e) / low <= (high - e) / high
  {
    FractionLost(low, e);
    FractionLost(high, e);
    DivideBy(e, low, high);
  }

  lemma DivideBy(e: real, low: real, high: real)
    requires 0.0 < low <= high && e >= 0.0
    ensures e / high <= e / low
  {
    var q := e / high;
    assert q >= 0.0 && q * high == e;
    MultiplyMono(low, high, q);
    assert q * low <= e;
    DivideMono(q * low, e, low);
    assert q * low / low == q;
  }

  /** On a solvent curve the one-pass value is the maximum over all pairs i <= j of
      (e_i - e_j) / e_i, for either guard. */
  lemma {:induction false} WorstDropIsQuadraticMax(curve: seq<real>, guard: Guard)
    requires Solvent(curve)
    ensures BoundsAllDrops(curve, WorstDrop(curve, guard)) && IsSomeDrop(curve, WorstDrop(curve, guard))
    ensures 0.0 <= WorstDrop(curve, guard) <= 1.0
    ensures (forall i :: 0 <= i < |curve| ==> curve[i] > 0.0) ==> WorstDrop(curve, guard) < 1.0
  {
    var n := |curve| - 1;
    var top := PeakIsMax(curve);
    var peak, d := Peak(curve), WorstDrop(curve, guard);
    var last := (peak - curve[n]) / peak;
    FractionOfPeak(peak, curve[n]);
    assert last == Drop(curve, top, n);
    if n == 0 {
      assert curve[..0] == [];
    } else {
      var front := curve[..n];
      WorstDropIsQuadraticMax(front, guard);
      var i: nat, j: nat :| i <= j < n && front[i] > 0.0 && Drop(front, i, j) == WorstDrop(front, guard);
      assert Drop(curve, i, j) == WorstDrop(front, guard);
    }
    forall i: nat, j: nat | i <= j < |curve| && curve[i] > 0.0
      ensures Drop(curve, i, j) <= d
    {
      if j < n {
        assert Drop(curve, i, j) == Drop(curve[..n], i, j);
      } else {
        DropMonotone(curve[i], peak, curve[n]);
      }
    }
  }

  lemma FractionOfPeak(peak: real, e: real)
    requires 0.0 <= e <= peak && peak > 0.0
    ensures 0.0 <= (peak - e) / peak <= 1.0
    ensures e > 0.0 ==> (peak - e) / peak < 1.0
  {
    FractionLost(peak, e);
    DivideMono(e, peak, peak);
  }

  function Times(c: real, x: real): real {
    c * x
  }

  ghost predicate Scaled(c: real, curve: seq<real>, scaled: seq<real>) {
    |curve| == |scaled| && forall i :: 0 <= i < |curve| ==> scaled[i] == Times(c, curve[i])
  }

  lemma ScaledDrop(c: real, peak: real, e: real)
    requires c > 0.0
    ensures peak > 0.0 <==> Times(c, peak) > 0.0
    ensures peak == 0.0 <==> Times(c, peak) == 0.0
    ensures peak != 0.0 ==> (Times(c, peak) - Times(c, e)) / Times(c, peak) == (peak - e) / peak
  {
    if peak != 0.0 {
      var q := (peak - e) / peak;
      assert q * peak == peak - e;
      assert q * (c * peak) == c * (q * peak) == c * (peak - e) == c * peak - c * e;
      IsQuotient(c * peak - c * e, c * peak, q);
    }
  }

  lemma ScaledMax(c: real, a: real, b: real)
    requires c > 0.0
    ensures Max(Times(c, a), Times(c, b)) == Times(c, Max(a, b))
  {
    if a >= b {
      MultiplyMono(b, a, c);
    } else {
      MultiplyMono(a, b, c);
    }
  }

  lemma {:induction false} PeakScales(c: real, curve: seq<real>, scaled: seq<real>)
    requires c > 0.0 && curve != [] && Scaled(c, curve, scaled)
    ensures Peak(scaled) == Times(c, Peak(curve))
  {
    var n := |curve| - 1;
    if n > 0 {
      PeakScales(c, curve[..n], scaled[..n]);
      ScaledMax(c, Peak(curve[..n]), curve[n]);
    }
  }

  /** Drawdown does not depend on the size of the account. */
  lemma {:induction false} WorstDropScaleInvariant(c: real, curve: seq<real>, scaled: seq<real>, guard: Guard)
    requires c > 0.0 && Scaled(c, curve, scaled)
    ensures WorstDrop(scaled, guard) == WorstDrop(curve, guard)
  {
    if curve != [] {
      var n := |curve| - 1;
      WorstDropScaleInvariant(c, curve[..n], scaled[..n], guard);
      PeakScales(c, curve, scaled);
      ScaledDrop(c, Peak(curve), curve[n]);
    }
  }

  // ---------------------------------------------------------------- below zero

  /** From a lower point the fall past zero is the larger fraction. */
  lemma LossPastZero(x: real, peak: real, e: real)
    requires 0.0 < x <= peak && e < 0.0
    ensures (peak - e) / peak > 1.0
    ensures (x - e) / x <= (peak - e) / peak <==> x == peak
  {
    FractionLost(x, e);
    FractionLost(peak, e);
    var r, q := e / x, e / peak;
    assert r * x == e && q * peak == e;
    NegativeQuotient(e, peak, q);
    if x < peak {
      SteeperQuotient(x, peak, r, q);
    }
  }

  lemma SteeperQuotient(x: real, peak: real, r: real, q: real)
    requires 0.0 < x < peak && q < 0.0 && r * x == q * peak
    ensures r < q
  {
    ShrinkingProduct(q, x, peak);
    CancelPositive(r, q, x);
  }

  lemma NegativeQuotient(e: real, p: real, q: real)
    requires e < 0.0 && p > 0.0 && q * p == e
    ensures q < 0.0
  {
  }

  lemma ShrinkingProduct(q: real, x: real, y: real)
    requires q < 0.0 && x < y
    ensures q * y < q * x
  {
    var gap, size := y - x, -q;
    assert gap * size > 0.0;
    assert q * x - q * y == gap * size;
  }

  lemma CancelPositive(r: real, q: real, x: real)
    requires x > 0.0 && r * x < q * x
    ensures r < q
  {
  }

  lemma PeakPastZero(front: seq<real>, e: real)
    requires front != [] && (forall i :: 0 <= i < |front| ==> front[i] > 0.0) && e < 0.0
    ensures Peak(front + [e]) == Peak(front) > 0.0
  {
    var top := PeakIsMax(front);
    assert (front + [e])[..|front|] == front;
  }

  /** When equity falls below zero the one-pass value is the fall from the peak, a loss of more than
      everything.  It is the worst over all pairs if and only if every bar before stood equally
      high: otherwise the fall from a lower bar is the larger fraction, and is not reported. */
  lemma FallPastZeroIff(front: seq<real>, e: real, guard: Guard)
    requires front != [] && (forall i :: 0 <= i < |front| ==> front[i] > 0.0) && e < 0.0
    ensures Peak(front) > 0.0 && WorstDrop(front + [e], guard) == (Peak(front) - e) / Peak(front) > 1.0
    ensures BoundsAllDrops(front + [e], WorstDrop(front + [e], guard)) <==>
      forall i :: 0 <= i < |front| ==> front[i] == front[0]
  {
    var curve, n := front + [e], |front|;
    assert curve[..n] == front;
    var top := PeakIsMax(front);
    var peak := Peak(front);
    PeakPastZero(front, e);
    WorstDropIsQuadraticMax(front, guard);
    LossPastZero(peak, peak, e);
    var d := (peak - e) / peak;
    if BoundsAllDrops(curve, d) {
      forall i | 0 <= i < n ensures front[i] == peak {
        assert Drop(curve, i, n) == (front[i] - e) / front[i];
        LossPastZero(front[i], peak, e);
      }
    }
    if forall i :: 0 <= i < n ==> front[i] == front[0] {
      forall i: nat, j: nat | i <= j < |curve| && curve[i] > 0.0 ensures Drop(curve, i, j) <= d {
        if j < n {
          assert Drop(curve, i, j) == Drop(front, i, j);
        } else {
          assert front[i] == front[0] == front[top];
        }
      }
    }
  }

  /** The lowest positive bar. */
  function LowestPositive(curve: seq<real>): (low: real)
    requires curve != [] && curve[0] > 0.0
    ensures low > 0.0
  {
    var n := |curve| - 1;
    if n == 0 then curve[0]
    else
      var low := LowestPositive(curve[..n]);
      if 0.0 < curve[n] < low then curve[n] else low
  }

  lemma {:induction false} LowestIsLeast(curve: seq<real>) returns (at: nat)
    requires curve != [] && curve[0] > 0.0
    ensures at < |curve| && curve[at] == LowestPositive(curve)
    ensures forall i :: 0 <= i < |curve| && curve[i] > 0.0 ==> LowestPositive(curve) <= curve[i]
  {
    var n := |curve| - 1;
    at := 0;
    if n > 0 {
      at := LowestIsLeast(curve[..n]);
      forall i | 0 <= i < n && curve[i] > 0.0 ensures LowestPositive(curve) <= curve[i] {
        assert curve[i] == curve[..n][i];
      }
      if 0.0 < curve[n] < LowestPositive(curve[..n]) {
        at := n;
      }
    }
  }

  /** The one-pass value looks at every bar's fall from the peak so far. */
  lemma {:induction false} SeesPeakDrops(curve: seq<real>, guard: Guard, j: nat)
    requires j < |curve| && curve[0] > 0.0
    ensures Peak(curve[..j + 1]) > 0.0
    ensures (Peak(curve[..j + 1]) - curve[j]) / Peak(curve[..j + 1]) <= WorstDrop(curve, guard)
  {
    var n := |curve| - 1;
    var top := PeakIsMax(curve[..j + 1]);
    assert curve[..j + 1][0] == curve[0];
    if j < n {
      SeesPeakDrops(curve[..n], guard, j);
      assert curve[..n][..j + 1] == curve[..j + 1];
    } else {
      assert curve[..j + 1] == curve;
    }
  }

  /** The fall of a negative bar from the lowest positive bar before it. */
  function DeepestFall(curve: seq<real>, j: nat): real
    requires 0 < j < |curve| && curve[0] > 0.0
  {
    var low := LowestPositive(curve[..j]);
    (low - curve[j]) / low
  }

  /** It is one of the falls the definition looks at, and no fall of that bar is deeper. */
  lemma DeepestFallIsDeepest(curve: seq<real>, j: nat)
    requires 0 < j < |curve| && curve[0] > 0.0 && curve[j] < 0.0
    ensures exists at: nat :: at < j && curve[at] > 0.0 && Drop(curve, at, j) == DeepestFall(curve, j)
    ensures forall i: nat :: i < j && curve[i] > 0.0 ==> Drop(curve, i, j) <= DeepestFall(curve, j)
  {
    var front := curve[..j];
    var at := LowestIsLeast(front);
    assert curve[at] == front[at] && Drop(curve, at, j) == DeepestFall(curve, j);
    forall i: nat | i < j && curve[i] > 0.0 ensures Drop(curve, i, j) <= DeepestFall(curve, j) {
      assert front[i] == curve[i];
      LossPastZero(LowestPositive(front), curve[i], curve[j]);
    }
  }

  /** The fall of a bar that is not negative is covered by its fall from the peak. */
  lemma SolventFallIsCovered(curve: seq<real>, guard: Guard, i: nat, j: nat)
    requires i <= j < |curve| && curve[0] > 0.0 && curve[i] > 0.0 && curve[j] >= 0.0
    ensures Drop(curve, i, j) <= WorstDrop(curve, guard)
  {
    SeesPeakDrops(curve, guard, j);
    var top := PeakIsMax(curve[..j + 1]);
    assert curve[..j + 1][i] == curve[i];
    DropMonotone(curve[i], Peak(curve[..j + 1]), curve[j]);
  }

  /** On any curve that starts above zero - however often and for however long it is below later -
      the one-pass value is the worst over all pairs if and only if it covers the fall of every
      negative bar from the lowest positive bar before it. */
  lemma UnderstatedIff(curve: seq<real>, guard: Guard)
    requires curve != [] && curve[0] > 0.0
    ensures BoundsAllDrops(curve, WorstDrop(curve, guard)) <==>
      forall j: nat :: 0 < j < |curve| && curve[j] < 0.0 ==> DeepestFall(curve, j) <= WorstDrop(curve, guard)
  {
    var d := WorstDrop(curve, guard);
    if BoundsAllDrops(curve, d) {
      forall j: nat | 0 < j < |curve| && curve[j] < 0.0 ensures DeepestFall(curve, j) <= d {
        DeepestFallIsDeepest(curve, j);
      }
    }
    if forall j: nat :: 0 < j < |curve| && curve[j] < 0.0 ==> DeepestFall(curve, j) <= d {
      forall i: nat, j: nat | i <= j < |curve| && curve[i] > 0.0 ensures Drop(curve, i, j) <= d {
        if curve[j] >= 0.0 {
          SolventFallIsCovered(curve, guard, i, j);
        } else {
          DeepestFallIsDeepest(curve, j);
        }
      }
    }
  }
}
