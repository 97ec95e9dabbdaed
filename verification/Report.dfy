/** What the read-out of a backtest means: counts as sizes of sets, rates and returns within half a
    unit of the fourth place of the exact number, and the Sharpe ratio. */
module Report {
  import opened Rounding
  import opened Trades
  import opened Drawdown
  import opened Sharpe

  /** Within half a unit of the fourth decimal place. */
  predicate Near4(x: real, exact: real) {
    -0.00005 <= x - exact <= 0.00005
  }

  lemma NearGrid4(x: real)
    ensures Near4(Round(x, GRID4), x)
  {
    RoundNear(x, GRID4);
  }

  // ---------------------------------------------------------------- counts

  ghost function Winners(pnls: seq<real>): set<nat> {
    set k: nat | k < |pnls| && pnls[k] > 0.0
  }

  ghost function Losers(pnls: seq<real>): set<nat> {
    set k: nat | k < |pnls| && pnls[k] < 0.0
  }

  /** The bars that decide BUY or SELL. */
  ghost function SignalBars(actions: seq<Action>): set<nat> {
    set k: nat | k < |actions| && actions[k] != Hold
  }

  lemma {:induction false} WinsCounted(pnls: seq<real>)
    ensures CountWins(pnls) == |Winners(pnls)|
  {
    if pnls == [] {
      assert Winners(pnls) == {};
    } else {
      var n := |pnls| - 1;
      WinsCounted(pnls[..n]);
      assert Winners(pnls) == Winners(pnls[..n]) + if pnls[n] > 0.0 then {n} else {};
    }
  }

  lemma {:induction false} LossesCounted(pnls: seq<real>)
    ensures CountLosses(pnls) == |Losers(pnls)|
  {
    if pnls == [] {
      assert Losers(pnls) == {};
    } else {
      var n := |pnls| - 1;
      LossesCounted(pnls[..n]);
      assert Losers(pnls) == Losers(pnls[..n]) + if pnls[n] < 0.0 then {n} else {};
    }
  }

  lemma {:induction false} SignalsCounted(actions: seq<Action>)
    ensures CountSignals(actions) == |SignalBars(actions)|
  {
    if actions == [] {
      assert SignalBars(actions) == {};
    } else {
      var n := |actions| - 1;
      SignalsCounted(actions[..n]);
      assert SignalBars(actions) == SignalBars(actions[..n]) + if actions[n] != Hold then {n} else {};
    }
  }

  /** The share of `count` among `all`; zero of nothing. */
  ghost predicate RateFits(rate: real, count: nat, all: nat) {
    if all == 0 then rate == 0.0 else Near4(rate, count as real / all as real)
  }

  // ---------------------------------------------------------------- the Sharpe ratio

  function SumOfSquares(xs: seq<real>): real {
    if xs == [] then 0.0 else SumOfSquares(xs[..|xs| - 1]) + Square(xs[|xs| - 1])
  }

  /** `mean` is the mean of the numbers, and `sd` their deviation when the squared gaps are shared
      out among n: by the mean and the sum of the squares alone. */
  ghost predicate IsDeviation(xs: seq<real>, mean: real, sd: real, n: int) {
    && Times(mean, |xs| as real) == Sum(xs)
    && sd >= 0.0 && Times(Square(sd), n as real) == SumOfSquares(xs) - Times(mean, Sum(xs))
  }

  /** Mean over population deviation, and zero of fewer than two trades or with next to no deviation. */
  ghost predicate SharpeFits(sharpe: real, pnls: seq<real>) {
    if |pnls| < 2 then sharpe == 0.0
    else exists mean, sd :: IsDeviation(pnls, mean, sd, |pnls|) && RatioFits(sharpe, mean, sd, TINY_DEVIATION)
  }

  ghost predicate RatioFits(ratio: real, mean: real, sd: real, cut: real) {
    if sd <= cut || sd == 0.0 then ratio == 0.0 else Near4(ratio, mean / sd)
  }

  /** ... and mean over sample deviation of a year of trades: `days` is the root of the days in it. */
  ghost predicate AnnualFits(sharpe: real, pcts: seq<real>, days: real) {
    if |pcts| < 2 then sharpe == 0.0
    else exists mean, sd :: IsDeviation(pcts, mean, sd, |pcts| - 1) && AnnualRatioFits(sharpe, mean, sd, days)
  }

  ghost predicate AnnualRatioFits(ratio: real, mean: real, sd: real, days: real) {
    if sd <= TINY_SPREAD then ratio == 0.0 else Near4(ratio, mean / sd * days)
  }

  lemma SquareOfGap(x: real, mean: real)
    ensures Square(x - mean) == Square(x) - 2.0 * Times(mean, x) + Square(mean)
  {
  }

  lemma OneMoreTime(n: real, x: real)
    ensures Times(n + 1.0, x) == Times(n, x) + x
  {
  }

  /** The squared gaps, without the gaps. */
  lemma {:induction false} GapsByHand(xs: seq<real>, mean: real)
    ensures SquaredGaps(xs, mean) ==
      SumOfSquares(xs) - 2.0 * Times(mean, Sum(xs)) + Times(|xs| as real, Square(mean))
  {
    if xs != [] {
      var n := |xs| - 1;
      GapsByHand(xs[..n], mean);
      SquareOfGap(xs[n], mean);
      TimesOverSum(mean, Sum(xs[..n]), xs[n]);
      OneMoreTime(n as real, Square(mean));
    }
  }

  lemma MeanTimesMean(mean: real, n: real, sum: real)
    requires Times(mean, n) == sum
    ensures Times(n, Square(mean)) == Times(mean, sum)
  {
    assert n * (mean * mean) == mean * (mean * n);
  }

  lemma MeanIs(xs: seq<real>)
    requires xs != []
    ensures Times(Mean(xs), |xs| as real) == Sum(xs)
  {
    DivideMultiply(Sum(xs), |xs| as real);
  }

  lemma GapsAroundMean(xs: seq<real>, mean: real)
    requires Times(mean, |xs| as real) == Sum(xs)
    ensures SquaredGaps(xs, mean) == SumOfSquares(xs) - Times(mean, Sum(xs))
  {
    GapsByHand(xs, mean);
    MeanTimesMean(mean, |xs| as real, Sum(xs));
  }

  lemma SharpeIsMeanOverDeviation(pnls: seq<real>, root: Root)
    requires IsSquareRoot(root)
    ensures SharpeFits(SharpeOf(pnls, root), pnls)
  {
    if |pnls| >= 2 {
      DeviationIs(pnls, root);
      RatioIs(pnls, root, Mean(pnls), Deviation(pnls, root));
    }
  }

  lemma RatioIs(pnls: seq<real>, root: Root, mean: real, sd: real)
    requires |pnls| >= 2 && mean == Mean(pnls) && sd == Deviation(pnls, root)
    ensures RatioFits(SharpeOf(pnls, root), mean, sd, TINY_DEVIATION)
  {
    if sd > TINY_DEVIATION {
      NearGrid4(mean / sd);
    }
  }

  lemma DeviationIs(pnls: seq<real>, root: Root)
    requires IsSquareRoot(root) && |pnls| >= 2
    ensures IsDeviation(pnls, Mean(pnls), Deviation(pnls, root), |pnls|)
  {
    var mean := Mean(pnls);
    MeanIs(pnls);
    GapsAroundMean(pnls, mean);
    GapsNonNegative(pnls, mean);
    RootOfQuotient(SquaredGaps(pnls, mean), |pnls| as real, root);
  }

  lemma RootOfQuotient(a: real, n: real, root: Root)
    requires IsSquareRoot(root) && a >= 0.0 && n > 0.0
    ensures root(a / n) >= 0.0 && Times(Square(root(a / n)), n) == a
  {
    DivideMono(0.0, a, n);
    DivideMultiply(a, n);
  }

  lemma AnnualIsMeanOverDeviation(pcts: seq<real>, root: Root)
    requires IsSquareRoot(root)
    ensures AnnualFits(AnnualSharpe(pcts, root), pcts, root(TRADING_DAYS))
  {
    if |pcts| >= 2 {
      SampleDeviationIs(pcts, root);
      if AllEqual(pcts) {
        EqualHaveNoGaps(pcts, Mean(pcts));
      }
      AnnualRatioIs(pcts, root, Mean(pcts), SampleDeviation(pcts, root), root(TRADING_DAYS));
    }
  }

  lemma AnnualRatioIs(pcts: seq<real>, root: Root, mean: real, sd: real, days: real)
    requires |pcts| >= 2 && mean == Mean(pcts) && sd == SampleDeviation(pcts, root) && days == root(TRADING_DAYS)
    requires AllEqual(pcts) ==> sd == 0.0
    ensures AnnualRatioFits(AnnualSharpe(pcts, root), mean, sd, days)
  {
    if !AllEqual(pcts) && sd > TINY_SPREAD {
      NearGrid4(mean / sd * days);
    }
  }

  lemma SampleDeviationIs(pcts: seq<real>, root: Root)
    requires IsSquareRoot(root) && |pcts| >= 2
    ensures IsDeviation(pcts, Mean(pcts), SampleDeviation(pcts, root), |pcts| - 1)
  {
    var mean, gaps, n := Mean(pcts), SquaredGaps(pcts, Mean(pcts)), (|pcts| - 1) as real;
    MeanIs(pcts);
    GapsAroundMean(pcts, mean);
    GapsNonNegative(pcts, mean);
    DivideMono(0.0, gaps, n);
    DivideMultiply(gaps, n);
    RootOfQuotient(gaps, n, root);
    assert Times(Square(0.0), n) == 0.0;
  }

  lemma EqualHaveNoGaps(pcts: seq<real>, mean: real)
    requires |pcts| >= 2 && AllEqual(pcts) && mean == Mean(pcts)
    ensures SquaredGaps(pcts, mean) / (|pcts| - 1) as real == 0.0
  {
    IsQuotient(0.0, (|pcts| - 1) as real, 0.0);
    SumOfEqual(pcts, pcts[0]);
    IsQuotient(Sum(pcts), |pcts| as real, pcts[0]);
    GapsOfEqual(pcts, mean);
  }

  lemma {:induction false} SumOfEqual(xs: seq<real>, x: real)
    requires forall i :: 0 <= i < |xs| ==> xs[i] == x
    ensures Sum(xs) == x * |xs| as real
  {
    if xs != [] {
      var k := (|xs| - 1) as real;
      SumOfEqual(xs[..|xs| - 1], x);
      assert x * (k + 1.0) == x * k + x;
    }
  }

  lemma {:induction false} GapsOfEqual(xs: seq<real>, x: real)
    requires forall i :: 0 <= i < |xs| ==> xs[i] == x
    ensures SquaredGaps(xs, x) == 0.0
  {
    if xs != [] {
      GapsOfEqual(xs[..|xs| - 1], x);
      assert Square(0.0) == 0.0;
    }
  }

  // ---------------------------------------------------------------- the return

  /** The return is the money made, in percent of the start. */
  ghost predicate ReturnFits(pct: real, gain: real, start: real)
    requires start != 0.0
  {
    Near4(pct, gain / start * 100.0)
  }

  lemma GainOverStart(cash: real, gain: real, start: real)
    requires start != 0.0 && cash == start + gain
    ensures cash / start - 1.0 == gain / start
  {
    var q := gain / start;
    assert q * start == gain;
    assert (1.0 + q) * start == cash;
    IsQuotient(cash, start, 1.0 + q);
  }
}
