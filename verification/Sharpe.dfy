/** The gate's per-trade Sharpe proxy: mean over population deviation, cut off at tiny deviations.
    The square root is a parameter. */
module Sharpe {
  import opened Rounding
  import opened Trades
  import opened Drawdown

  const TINY_DEVIATION := 0.000000000001

  type Root = real -> real

  ghost predicate IsSquareRoot(root: Root) {
    forall x :: x >= 0.0 ==> root(x) >= 0.0 && Square(root(x)) == x
  }

  function Square(x: real): real {
    x * x
  }

  function Mean(xs: seq<real>): real
    requires xs != []
  {
    Sum(xs) / |xs| as real
  }

  function SquaredGaps(xs: seq<real>, mean: real): real {
    if xs == [] then 0.0 else SquaredGaps(xs[..|xs| - 1], mean) + Square(xs[|xs| - 1] - mean)
  }

  function Variance(xs: seq<real>): real
    requires xs != []
  {
    SquaredGaps(xs, Mean(xs)) / |xs| as real
  }

  /** `statistics.pstdev`. */
  function Deviation(xs: seq<real>, root: Root): real
    requires xs != []
  {
    root(Variance(xs))
  }

  /** Mean over deviation, rounded; what the Sharpe ratio is above the cut. */
  function RoundedRatio(xs: seq<real>, root: Root): real
    requires xs != []
  {
    var sd := Deviation(xs, root);
    if sd == 0.0 then 0.0 else Round(Mean(xs) / sd, GRID4)
  }

  function SharpeOf(pnls: seq<real>, root: Root): real {
    if |pnls| < 2 || Deviation(pnls, root) <= TINY_DEVIATION then 0.0
    else Round(Mean(pnls) / Deviation(pnls, root), GRID4)
  }

  const TINY_SPREAD := 0.001
  const TRADING_DAYS := 252.0

  /** The engine's ratio, of percentages per trade: sample deviation, annualised, its own cut. */
  function AnnualSharpe(pcts: seq<real>, root: Root): real {
    if |pcts| < 2 || AllEqual(pcts) then 0.0
    else
      var sd := SampleDeviation(pcts, root);
      if sd > TINY_SPREAD then Round(Mean(pcts) / sd * root(TRADING_DAYS), GRID4) else 0.0
  }

  predicate AllEqual(xs: seq<real>) {
    forall i :: 0 <= i < |xs| ==> xs[i] == xs[0]
  }

  function SampleDeviation(xs: seq<real>, root: Root): real
    requires |xs| > 1
  {
    var variance := SquaredGaps(xs, Mean(xs)) / (|xs| - 1) as real;
    if variance > 0.0 then root(variance) else 0.0
  }

  lemma SharpeOnGrid(pnls: seq<real>, root: Root)
    ensures OnGrid(SharpeOf(pnls, root), GRID4)
  {
    UnitOnGrid4();
    if |pnls| >= 2 && Deviation(pnls, root) > TINY_DEVIATION {
      RoundNear(Mean(pnls) / Deviation(pnls, root), GRID4);
    }
  }

  // ---------------------------------------------------------------- account size

  lemma {:induction false} SumScaled(c: real, xs: seq<real>, scaled: seq<real>)
    requires Scaled(c, xs, scaled)
    ensures Sum(scaled) == Times(c, Sum(xs))
  {
    if xs != [] {
      var n := |xs| - 1;
      SumScaled(c, xs[..n], scaled[..n]);
      TimesOverSum(c, Sum(xs[..n]), xs[n]);
    }
  }

  lemma TimesOverSum(c: real, a: real, b: real)
    ensures Times(c, a) + Times(c, b) == Times(c, a + b)
  {
  }

  lemma TimesOverQuotient(c: real, a: real, n: real)
    requires n != 0.0
    ensures Times(c, a) / n == Times(c, a / n)
  {
    assert Times(c, a / n) * n == c * (a / n * n);
    IsQuotient(Times(c, a), n, Times(c, a / n));
  }

  lemma MeanScaled(c: real, xs: seq<real>, scaled: seq<real>)
    requires xs != [] && Scaled(c, xs, scaled)
    ensures Mean(scaled) == Times(c, Mean(xs))
  {
    SumScaled(c, xs, scaled);
    TimesOverQuotient(c, Sum(xs), |xs| as real);
  }

  lemma SquareScaled(c: real, x: real)
    ensures Square(Times(c, x)) == Times(Square(c), Square(x))
  {
    assert (c * x) * (c * x) == (c * c) * (x * x);
  }

  lemma {:induction false} GapsScaled(c: real, xs: seq<real>, scaled: seq<real>, mean: real)
    requires Scaled(c, xs, scaled)
    ensures SquaredGaps(scaled, Times(c, mean)) == Times(Square(c), SquaredGaps(xs, mean))
  {
    if xs != [] {
      var n := |xs| - 1;
      GapsScaled(c, xs[..n], scaled[..n], mean);
      SquareScaled(c, xs[n] - mean);
      TimesOverSum(c, xs[n], -mean);
      TimesOverSum(Square(c), SquaredGaps(xs[..n], mean), Square(xs[n] - mean));
    }
  }

  lemma {:induction false} GapsNonNegative(xs: seq<real>, mean: real)
    ensures SquaredGaps(xs, mean) >= 0.0
  {
    if xs != [] {
      GapsNonNegative(xs[..|xs| - 1], mean);
      SquareNonNegative(xs[|xs| - 1] - mean);
    }
  }

  lemma SquareNonNegative(x: real)
    ensures Square(x) >= 0.0
  {
  }

  lemma VarianceScaled(c: real, xs: seq<real>, scaled: seq<real>)
    requires xs != [] && Scaled(c, xs, scaled)
    ensures Variance(scaled) == Times(Square(c), Variance(xs)) && Variance(xs) >= 0.0
  {
    MeanScaled(c, xs, scaled);
    GapsScaled(c, xs, scaled, Mean(xs));
    GapsNonNegative(xs, Mean(xs));
    TimesOverQuotient(Square(c), SquaredGaps(xs, Mean(xs)), |xs| as real);
    DivideMono(0.0, SquaredGaps(xs, Mean(xs)), |xs| as real);
  }

  /** Non-negative numbers with the same square are the same. */
  lemma RootUnique(a: real, b: real)
    requires a >= 0.0 && b >= 0.0 && Square(a) == Square(b)
    ensures a == b
  {
    if a < b {
      SquareGrows(a, b);
    } else if b < a {
      SquareGrows(b, a);
    }
  }

  lemma SquareGrows(a: real, b: real)
    requires 0.0 <= a < b
    ensures Square(a) < Square(b)
  {
    var gap := b - a;
    assert gap * b > 0.0;
    assert gap * a >= 0.0;
    assert Square(b) - Square(a) == gap * b + gap * a;
  }

  lemma DeviationScaled(c: real, xs: seq<real>, scaled: seq<real>, root: Root)
    requires c > 0.0 && xs != [] && Scaled(c, xs, scaled) && IsSquareRoot(root)
    ensures Deviation(scaled, root) == Times(c, Deviation(xs, root)) && Deviation(xs, root) >= 0.0
  {
    VarianceScaled(c, xs, scaled);
    var v, sd := Variance(xs), Deviation(xs, root);
    assert sd >= 0.0 && Square(sd) == v;
    SquareScaled(c, sd);
    SquareNonNegative(Times(c, sd));
    assert Square(root(Variance(scaled))) == Variance(scaled) == Square(Times(c, sd));
    TimesNonNegative(c, sd);
    RootUnique(Deviation(scaled, root), Times(c, sd));
  }

  lemma TimesNonNegative(c: real, x: real)
    requires c > 0.0
    ensures x >= 0.0 <==> Times(c, x) >= 0.0
    ensures x == 0.0 <==> Times(c, x) == 0.0
  {
  }

  /** The deviation grows with the account but the cut does not: on c times the account the ratio is
      that of the original, or zero where the grown deviation is below the cut. */
  lemma SharpeScaled(c: real, xs: seq<real>, scaled: seq<real>, root: Root)
    requires c > 0.0 && xs != [] && Scaled(c, xs, scaled) && IsSquareRoot(root)
    ensures SharpeOf(scaled, root) ==
      if |xs| < 2 || Times(c, Deviation(xs, root)) <= TINY_DEVIATION then 0.0 else RoundedRatio(xs, root)
    ensures SharpeOf(xs, root) ==
      if |xs| < 2 || Deviation(xs, root) <= TINY_DEVIATION then 0.0 else RoundedRatio(xs, root)
  {
    DeviationScaled(c, xs, scaled, root);
    MeanScaled(c, xs, scaled);
    var m, sd := Mean(xs), Deviation(xs, root);
    TimesNonNegative(c, sd);
    if sd != 0.0 {
      RatioScales(c, m, sd, Mean(scaled), Deviation(scaled, root));
    }
  }

  lemma RatioScales(c: real, a: real, b: real, ca: real, cb: real)
    requires c > 0.0 && b != 0.0 && ca == c * a && cb == c * b
    ensures cb != 0.0 && ca / cb == a / b
  {
    var q := a / b;
    assert q * b == a;
    assert q * cb == c * (q * b);
    IsQuotient(ca, cb, q);
  }

  /** The cut treats both account sizes alike. */
  ghost predicate SameSideOfCut(c: real, sd: real) {
    Times(c, sd) <= TINY_DEVIATION <==> sd <= TINY_DEVIATION
  }
}
