/** evaluate_proposal and walk_forward: paired runs on identical data and identical draws. */
module WalkForward {
  import opened Rounding
  import opened Trades
  import opened Json
  import opened Config
  import opened BacktestGate
  import opened Sharpe
  import opened Report

  const DEFAULT_PAPER_CASH := 100_000.0
  const DEFAULT_POSITION_FRACTION := 0.95

  /** `random.Random(seed)` as a stream of slippage draws. */
  type Generator = int -> Draws

  datatype Delta = Delta(
    baseline: Metrics, candidate: Metrics, pnlDelta: real, sharpeDelta: real, drawdownDelta: real,
      falsePositiveRateDelta: real)

  function Compare(baseline: Metrics, candidate: Metrics): Delta {
    Delta(baseline, candidate,
          Round(candidate.totalReturnPct - baseline.totalReturnPct, GRID4),
          Round(candidate.sharpe - baseline.sharpe, GRID4),
          Round(candidate.maxDrawdownPct - baseline.maxDrawdownPct, GRID4),
          Round(candidate.falsePositiveRate - baseline.falsePositiveRate, GRID4))
  }

  function GateRun(prices: seq<Price>, news: Option<seq<real>>, config: CognitiveConfig, perceive: Perceive,
                   slip: Draws, root: Root): Metrics {
    MetricsOf(prices, Actions(prices, news, config, perceive), slip, DEFAULT_PAPER_CASH, DEFAULT_POSITION_FRACTION,
              root)
  }

  function Judge(prices: seq<Price>, news: Option<seq<real>>, baseline: CognitiveConfig, candidate: CognitiveConfig,
                 perceive: Perceive, slip: Draws, root: Root): Delta
  {
    Compare(GateRun(prices, news, baseline, perceive, slip, root),
            GateRun(prices, news, candidate, perceive, slip, root))
  }

  /** What a paired run on a slice of the series reports for a given seed. */
  type Judgement = (seq<Price>, Option<seq<real>>, int) -> Delta

  function Judging(baseline: CognitiveConfig, candidate: CognitiveConfig, perceive: Perceive, generator: Generator,
                   root: Root): Judgement {
    (prices, news, seed) => Judge(prices, news, baseline, candidate, perceive, generator(seed), root)
  }

  /** Marks a slice on which a judgement is looked into. */
  ghost predicate LookedAt(prices: seq<Price>, news: Option<seq<real>>, seed: int) {
    true
  }

  /** `judge` is Judging, known only where it is looked into. */
  ghost predicate IsJudging(judge: Judgement, baseline: CognitiveConfig, candidate: CognitiveConfig,
                            perceive: Perceive, generator: Generator, root: Root)
  {
    forall prices, news, seed {:trigger LookedAt(prices, news, seed)} ::
      judge(prices, news, seed) == Judge(prices, news, baseline, candidate, perceive, generator(seed), root)
  }

  lemma JudgingIs(baseline: CognitiveConfig, candidate: CognitiveConfig, perceive: Perceive, generator: Generator,
                  root: Root)
    ensures IsJudging(Judging(baseline, candidate, perceive, generator, root), baseline, candidate, perceive,
                      generator, root)
  {
  }

  method EvaluateProposal(prices: seq<Price>, news: Option<seq<real>>, baseline: CognitiveConfig,
                          candidate: CognitiveConfig, perceive: Perceive, generator: Generator, root: Root, seed: int,
                          ghost judge: Judgement)
    returns (delta: Delta)
    requires IsJudging(judge, baseline, candidate, perceive, generator, root)
    ensures delta == judge(prices, news, seed)
  {
    assert LookedAt(prices, news, seed);
    var before := RunConfigBacktest(prices, news, baseline, perceive, DEFAULT_PAPER_CASH, DEFAULT_POSITION_FRACTION,
                                    generator(seed), root);
    var after := RunConfigBacktest(prices, news, candidate, perceive, DEFAULT_PAPER_CASH, DEFAULT_POSITION_FRACTION,
                                   generator(seed), root);
    delta := Compare(before, after);
  }

  // ---------------------------------------------------------------- what a delta is worth

  lemma GridDifference(a: real, b: real, scale: real)
    requires scale > 0.0 && OnGrid(a, scale) && OnGrid(b, scale)
    ensures OnGrid(a - b, scale)
  {
    var m: int, n: int :| a == GridValue(m, scale) && b == GridValue(n, scale);
    SubtractQuotients(m as real, n as real, scale);
    assert a - b == GridValue(m - n, scale);
  }

  lemma SubtractQuotients(a: real, b: real, s: real)
    requires s > 0.0
    ensures a / s - b / s == (a - b) / s
  {
  }

  lemma MetricsOnGrid(prices: seq<Price>, actions: seq<Action>, slip: Draws, start: real, f: real, root: Root)
    requires |actions| == |prices| && start != 0.0
    ensures GridMetrics(MetricsOf(prices, actions, slip, start, f, root))
  {
    SharpeOnGrid(Pnls(start, f, GateTrades(prices, actions, slip)), root);
    RoundNear((FinalCash(prices, actions, slip, start, f) / start - 1.0) * 100.0, GRID4);
    RoundNear(Drawdown.WorstDrop(EquityCurve(prices, actions, slip, start, f, |prices|), Drawdown.NonZeroPeak) * 100.0,
              GRID4);
    var pnls := Pnls(start, f, GateTrades(prices, actions, slip));
    UnitOnGrid4();
    if |pnls| > 0 {
      RoundNear(CountLosses(pnls) as real / |pnls| as real, GRID4);
    }
  }

  ghost predicate GridMetrics(m: Metrics) {
    && OnGrid(m.totalReturnPct, GRID4) && OnGrid(m.sharpe, GRID4)
    && OnGrid(m.maxDrawdownPct, GRID4) && OnGrid(m.falsePositiveRate, GRID4)
  }

  lemma CompareIsExact(a: Metrics, b: Metrics)
    requires GridMetrics(a) && GridMetrics(b)
    ensures var d := Compare(a, b);
      && d.pnlDelta == b.totalReturnPct - a.totalReturnPct
      && d.sharpeDelta == b.sharpe - a.sharpe
      && d.drawdownDelta == b.maxDrawdownPct - a.maxDrawdownPct
      && d.falsePositiveRateDelta == b.falsePositiveRate - a.falsePositiveRate
  {
    ExactRound(b.totalReturnPct, a.totalReturnPct);
    ExactRound(b.sharpe, a.sharpe);
    ExactRound(b.maxDrawdownPct, a.maxDrawdownPct);
    ExactRound(b.falsePositiveRate, a.falsePositiveRate);
  }

  /** Rounding the deltas loses nothing: both sides already lie on the four-place grid. */
  lemma DeltaIsExact(prices: seq<Price>, news: Option<seq<real>>, baseline: CognitiveConfig, candidate: CognitiveConfig,
                     perceive: Perceive, slip: Draws, root: Root)
    ensures var d := Judge(prices, news, baseline, candidate, perceive, slip, root);
      && d.pnlDelta == d.candidate.totalReturnPct - d.baseline.totalReturnPct
      && d.sharpeDelta == d.candidate.sharpe - d.baseline.sharpe
      && d.drawdownDelta == d.candidate.maxDrawdownPct - d.baseline.maxDrawdownPct
      && d.falsePositiveRateDelta == d.candidate.falsePositiveRate - d.baseline.falsePositiveRate
  {
    MetricsOnGrid(prices, Actions(prices, news, baseline, perceive), slip, DEFAULT_PAPER_CASH,
                  DEFAULT_POSITION_FRACTION, root);
    MetricsOnGrid(prices, Actions(prices, news, candidate, perceive), slip, DEFAULT_PAPER_CASH,
                  DEFAULT_POSITION_FRACTION, root);
    CompareIsExact(GateRun(prices, news, baseline, perceive, slip, root),
                   GateRun(prices, news, candidate, perceive, slip, root));
  }

  lemma ExactRound(a: real, b: real)
    requires OnGrid(a, GRID4) && OnGrid(b, GRID4)
    ensures Round(a - b, GRID4) == a - b
  {
    GridDifference(a, b, GRID4);
    RoundFixed(a - b, GRID4);
  }

  /** Paired comparison: a candidate that decides alike on every bar scores exactly zero. */
  lemma InertChangeScoresZero(prices: seq<Price>, news: Option<seq<real>>, baseline: CognitiveConfig,
                              candidate: CognitiveConfig,
                              perceive: Perceive, slip: Draws, root: Root)
    requires forall i: nat :: i < |prices| ==>
      ActionAt(prices, news, baseline, perceive, i) == ActionAt(prices, news, candidate, perceive, i)
    ensures var d := Judge(prices, news, baseline, candidate, perceive, slip, root);
      d.baseline == d.candidate && d.pnlDelta == d.sharpeDelta == d.drawdownDelta == d.falsePositiveRateDelta == 0.0
  {
    var a, b := Actions(prices, news, baseline, perceive), Actions(prices, news, candidate, perceive);
    assert forall i :: 0 <= i < |prices| ==> a[i] == b[i];
    assert a == b;
    CompareSame(GateRun(prices, news, baseline, perceive, slip, root));
  }

  lemma CompareSame(m: Metrics)
    ensures var d := Compare(m, m); d.pnlDelta == d.sharpeDelta == d.drawdownDelta == d.falsePositiveRateDelta == 0.0
  {
    UnitOnGrid4();
    RoundFixed(0.0, GRID4);
  }

  // ---------------------------------------------------------------- walk forward

  datatype WalkForwardResult = WalkForwardResult(folds: seq<Delta>, consistency: real, meanPnlDelta: real,
                                                 meanSharpeDelta: real)

  function SegmentStart(n: nat, folds: nat, k: nat): nat
    requires folds > 0
  {
    if k == folds then n else k * (n / folds)
  }

  function Clamp(i: nat, n: nat): nat {
    if i < n then i else n
  }

  function NewsSegment(news: Option<seq<real>>, lo: nat, hi: nat): Option<seq<real>>
    requires lo <= hi
  {
    match news
    case None => None
    case Some(xs) => Some(xs[Clamp(lo, |xs|)..Clamp(hi, |xs|)])
  }

  lemma QuotientBounds(n: nat, folds: nat)
    requires folds >= 2 && n >= folds * 2
    ensures n / folds >= 2 && folds * (n / folds) <= n
  {
    var seg := n / folds;
    assert n == folds * seg + n % folds;
    assert folds * (seg + 1) == folds * seg + folds > n;
  }

  lemma TimesMono(a: nat, b: nat, seg: nat)
    requires a <= b
    ensures a * seg <= b * seg
  {
  }

  lemma SegmentBounds(n: nat, folds: nat, k: nat)
    requires folds >= 2 && n >= folds * 2 && k < folds
    ensures SegmentStart(n, folds, k) + 2 <= SegmentStart(n, folds, k + 1) <= n
    ensures SegmentStart(n, folds, 0) == 0 && SegmentStart(n, folds, folds) == n
  {
    var seg := n / folds;
    QuotientBounds(n, folds);
    TimesMono(k + 1, folds, seg);
    assert (k + 1) * seg == k * seg + seg;
  }

  function Fold(prices: seq<Price>, news: Option<seq<real>>, judge: Judgement, seed: int, folds: nat, k: nat): Delta
    requires folds >= 2 && |prices| >= folds * 2 && k < folds
  {
    judge(Slice(prices, folds, k), NewsOf(news, |prices|, folds, k), seed + k)
  }

  /** The bars of fold k. */
  function Slice(prices: seq<Price>, folds: nat, k: nat): seq<Price>
    requires folds >= 2 && |prices| >= folds * 2 && k < folds
  {
    SegmentBounds(|prices|, folds, k);
    prices[SegmentStart(|prices|, folds, k)..SegmentStart(|prices|, folds, k + 1)]
  }

  /** ... and its news. */
  function NewsOf(news: Option<seq<real>>, n: nat, folds: nat, k: nat): Option<seq<real>>
    requires folds >= 2 && n >= folds * 2 && k < folds
  {
    SegmentBounds(n, folds, k);
    NewsSegment(news, SegmentStart(n, folds, k), SegmentStart(n, folds, k + 1))
  }

  function CountPositive(deltas: seq<Delta>): nat {
    if deltas == [] then 0
    else CountPositive(deltas[..|deltas| - 1]) + if deltas[|deltas| - 1].pnlDelta > 0.0 then 1 else 0
  }

  function PnlDeltas(deltas: seq<Delta>): seq<real> {
    seq(|deltas|, i requires 0 <= i < |deltas| => deltas[i].pnlDelta)
  }

  function SharpeDeltas(deltas: seq<Delta>): seq<real> {
    seq(|deltas|, i requires 0 <= i < |deltas| => deltas[i].sharpeDelta)
  }

  /** The loop body: one segment, with its own seed. */
  method EvaluateFold(prices: seq<Price>, news: Option<seq<real>>, baseline: CognitiveConfig,
                      candidate: CognitiveConfig, perceive: Perceive, generator: Generator, root: Root, seed: int,
                      folds: nat, fold: nat, ghost judge: Judgement)
    returns (delta: Delta)
    requires IsJudging(judge, baseline, candidate, perceive, generator, root)
    requires folds >= 2 && |prices| >= folds * 2 && fold < folds
    ensures delta == Fold(prices, news, judge, seed, folds, fold)
  {
    var lo, hi := FoldEnds(|prices|, folds, fold);
    delta := EvaluateProposal(prices[lo..hi], NewsSegment(news, lo, hi), baseline, candidate, perceive, generator,
                              root, seed + fold, judge);
  }

  /** Where the fold's segment begins and ends; the last one takes what is left over. */
  method FoldEnds(n: nat, folds: nat, fold: nat) returns (lo: nat, hi: nat)
    requires folds >= 2 && n >= folds * 2 && fold < folds
    ensures lo == SegmentStart(n, folds, fold) && hi == SegmentStart(n, folds, fold + 1) && lo <= hi <= n
  {
    SegmentBounds(n, folds, fold);
    var seg := n / folds;
    lo := fold * seg;
    hi := if fold == folds - 1 then n else (fold + 1) * seg;
  }

  /** What a walk-forward reports, for any judgement of slices. */
  ghost function Folds(prices: seq<Price>, news: Option<seq<real>>, judge: Judgement, seed: int, folds: nat): seq<Delta>
    requires folds >= 2 && |prices| >= folds * 2
  {
    seq(folds, k requires 0 <= k < folds => Fold(prices, news, judge, seed, folds, k))
  }

  ghost function WalkForwardOf(prices: seq<Price>, news: Option<seq<real>>, judge: Judgement, seed: int,
                               folds: int): WalkForwardResult {
    if folds < 2 || |prices| < folds * 2 then
      var single := judge(prices, news, seed);
      WalkForwardResult([single], if single.pnlDelta > 0.0 then 1.0 else 0.0, single.pnlDelta, single.sharpeDelta)
    else
      var deltas := Folds(prices, news, judge, seed, folds);
      WalkForwardResult(deltas, Consistency(deltas), RoundedMean(PnlDeltas(deltas)), RoundedMean(SharpeDeltas(deltas)))
  }

  method WalkForwardRun(prices: seq<Price>, news: Option<seq<real>>, baseline: CognitiveConfig,
                        candidate: CognitiveConfig, perceive: Perceive, generator: Generator, root: Root, seed: int,
                        folds: int, ghost judge: Judgement)
    returns (result: WalkForwardResult)
    requires IsJudging(judge, baseline, candidate, perceive, generator, root)
    ensures result == WalkForwardOf(prices, news, judge, seed, folds)
    ensures Averages(result)
    ensures folds >= 2 && |prices| >= folds * 2 ==>
      && |result.folds| == folds
      && forall k: nat :: k < folds ==>
           result.folds[k] == judge(Slice(prices, folds, k), NewsOf(news, |prices|, folds, k), seed + k)
  {
    AveragesOf(prices, news, judge, seed, folds);
    if folds < 2 || |prices| < folds * 2 {
      var single := EvaluateProposal(prices, news, baseline, candidate, perceive, generator, root, seed, judge);
      result := WalkForwardResult([single], if single.pnlDelta > 0.0 then 1.0 else 0.0, single.pnlDelta,
                                  single.sharpeDelta);
    } else {
      var deltas, positive :=
        EvaluateFolds(prices, news, baseline, candidate, perceive, generator, root, seed, folds, judge);
      assert deltas == Folds(prices, news, judge, seed, folds);
      result := WalkForwardResult(deltas, Round(positive as real / |deltas| as real, GRID4),
                                  RoundedMean(PnlDeltas(deltas)), RoundedMean(SharpeDeltas(deltas)));
    }
  }

  function Consistency(deltas: seq<Delta>): real
    requires deltas != []
  {
    Round(CountPositive(deltas) as real / |deltas| as real, GRID4)
  }

  function RoundedMean(xs: seq<real>): real
    requires xs != []
  {
    Round(Mean(xs), GRID4)
  }

  method EvaluateFolds(prices: seq<Price>, news: Option<seq<real>>, baseline: CognitiveConfig,
                       candidate: CognitiveConfig, perceive: Perceive, generator: Generator, root: Root, seed: int,
                       folds: nat, ghost judge: Judgement)
    returns (deltas: seq<Delta>, positive: nat)
    requires IsJudging(judge, baseline, candidate, perceive, generator, root)
    requires folds >= 2 && |prices| >= folds * 2
    ensures |deltas| == folds && positive == CountPositive(deltas)
    ensures AreFolds(deltas, prices, news, judge, seed, folds)
  {
    deltas, positive := [], 0;
    for fold := 0 to folds
      invariant |deltas| == fold && positive == CountPositive(deltas)
      invariant AreFolds(deltas, prices, news, judge, seed, folds)
    {
      deltas, positive := NextFold(deltas, positive, prices, news, baseline, candidate, perceive, generator, root, seed,
                                   folds, judge);
    }
  }

  method NextFold(deltas: seq<Delta>, positive: nat, prices: seq<Price>, news: Option<seq<real>>,
                  baseline: CognitiveConfig, candidate: CognitiveConfig, perceive: Perceive, generator: Generator,
                  root: Root, seed: int, folds: nat, ghost judge: Judgement)
    returns (more: seq<Delta>, wins: nat)
    requires IsJudging(judge, baseline, candidate, perceive, generator, root)
    requires folds >= 2 && |prices| >= folds * 2 && |deltas| < folds
    requires positive == CountPositive(deltas) && AreFolds(deltas, prices, news, judge, seed, folds)
    ensures |more| == |deltas| + 1 && wins == CountPositive(more)
    ensures AreFolds(more, prices, news, judge, seed, folds)
  {
    var delta :=
      EvaluateFold(prices, news, baseline, candidate, perceive, generator, root, seed, folds, |deltas|, judge);
    OneMoreFold(deltas, delta, prices, news, judge, seed, folds);
    OneMoreWin(deltas, delta);
    more, wins := deltas + [delta], if delta.pnlDelta > 0.0 then positive + 1 else positive;
  }

  /** The first folds, each judged on its own segment. */
  ghost predicate AreFolds(deltas: seq<Delta>, prices: seq<Price>, news: Option<seq<real>>, judge: Judgement,
                           seed: int, folds: nat)
    requires folds >= 2 && |prices| >= folds * 2 && |deltas| <= folds
  {
    forall k: nat :: k < |deltas| ==> deltas[k] == Fold(prices, news, judge, seed, folds, k)
  }

  lemma OneMoreFold(deltas: seq<Delta>, delta: Delta, prices: seq<Price>, news: Option<seq<real>>, judge: Judgement,
                    seed: int, folds: nat)
    requires folds >= 2 && |prices| >= folds * 2 && |deltas| < folds
    requires AreFolds(deltas, prices, news, judge, seed, folds)
    requires delta == Fold(prices, news, judge, seed, folds, |deltas|)
    ensures AreFolds(deltas + [delta], prices, news, judge, seed, folds)
  {
    var n, longer := |deltas|, deltas + [delta];
    forall k: nat | k < |longer| ensures longer[k] == Fold(prices, news, judge, seed, folds, k) {
      if k < n {
        assert longer[k] == deltas[k];
      }
    }
  }

  lemma OneMoreWin(deltas: seq<Delta>, delta: Delta)
    ensures CountPositive(deltas + [delta]) == CountPositive(deltas) + if delta.pnlDelta > 0.0 then 1 else 0
  {
    assert (deltas + [delta])[..|deltas|] == deltas;
  }

  /** The folds the candidate wins. */
  ghost function Won(deltas: seq<Delta>): set<nat> {
    set k: nat | k < |deltas| && deltas[k].pnlDelta > 0.0
  }

  lemma {:induction false} PositiveCounted(deltas: seq<Delta>)
    ensures CountPositive(deltas) == |Won(deltas)|
  {
    if deltas == [] {
      assert Won(deltas) == {};
    } else {
      var n := |deltas| - 1;
      PositiveCounted(deltas[..n]);
      assert Won(deltas) == Won(deltas[..n]) + if deltas[n].pnlDelta > 0.0 then {n} else {};
    }
  }

  ghost predicate MeanFits(mean: real, xs: seq<real>) {
    xs != [] && Near4(mean, Sum(xs) / |xs| as real)
  }

  /** The summary is of the folds: the share of them that were won, and the mean deltas. */
  ghost predicate Averages(r: WalkForwardResult) {
    && r.folds != [] && RateFits(r.consistency, |Won(r.folds)|, |r.folds|)
    && MeanFits(r.meanPnlDelta, PnlDeltas(r.folds)) && MeanFits(r.meanSharpeDelta, SharpeDeltas(r.folds))
  }

  lemma AveragesOf(prices: seq<Price>, news: Option<seq<real>>, judge: Judgement, seed: int, folds: int)
    ensures Averages(WalkForwardOf(prices, news, judge, seed, folds))
  {
    if folds < 2 || |prices| < folds * 2 {
      SingleAverages(judge(prices, news, seed));
    } else {
      var deltas := Folds(prices, news, judge, seed, folds);
      PositiveCounted(deltas);
      NearGrid4(CountPositive(deltas) as real / |deltas| as real);
      NearGrid4(Mean(PnlDeltas(deltas)));
      NearGrid4(Mean(SharpeDeltas(deltas)));
    }
  }

  lemma SingleAverages(single: Delta)
    ensures Averages(WalkForwardResult([single], if single.pnlDelta > 0.0 then 1.0 else 0.0, single.pnlDelta,
                                       single.sharpeDelta))
  {
    PositiveCounted([single]);
    OneOfOne([single], single.pnlDelta > 0.0);
    SumOfOne(PnlDeltas([single]));
    SumOfOne(SharpeDeltas([single]));
  }

  lemma OneOfOne(deltas: seq<Delta>, won: bool)
    requires |deltas| == 1 && (won <==> deltas[0].pnlDelta > 0.0)
    ensures |Won(deltas)| == if won then 1 else 0
  {
    assert Won(deltas) == if won then {0} else {};
  }

  lemma SumOfOne(xs: seq<real>)
    requires |xs| == 1
    ensures Sum(xs) / |xs| as real == xs[0]
  {
    assert xs[..0] == [];
  }

  function Segments(prices: seq<Price>, folds: nat, k: nat): seq<Price>
    requires folds >= 2 && |prices| >= folds * 2 && k <= folds
  {
    if k == 0 then []
    else Segments(prices, folds, k - 1) + Slice(prices, folds, k - 1)
  }

  /** The folds cover the series: laid end to end they are exactly the original prices. */
  lemma {:induction false} SegmentsCover(prices: seq<Price>, folds: nat, k: nat)
    requires folds >= 2 && |prices| >= folds * 2 && k <= folds
    ensures SegmentStart(|prices|, folds, k) <= |prices|
    ensures Segments(prices, folds, k) == prices[..SegmentStart(|prices|, folds, k)]
  {
    if k > 0 {
      SegmentBounds(|prices|, folds, k - 1);
      SegmentsCover(prices, folds, k - 1);
    }
  }

  /** Inside a fold every bar still sees its own news value. */
  lemma SegmentNewsAligned(prices: seq<Price>, news: Option<seq<real>>, folds: nat, k: nat, i: nat)
    requires folds >= 2 && |prices| >= folds * 2 && k < folds && i < |Slice(prices, folds, k)|
    ensures var bar := |Segments(prices, folds, k)| + i;
      && bar < |prices| && Slice(prices, folds, k)[i] == prices[bar]
      && NewsAt(NewsOf(news, |prices|, folds, k), i) == NewsAt(news, bar)
  {
    SegmentBounds(|prices|, folds, k);
    SegmentsCover(prices, folds, k);
    SliceAligned(prices, news, SegmentStart(|prices|, folds, k), SegmentStart(|prices|, folds, k + 1), i);
  }

  lemma SliceAligned(prices: seq<Price>, news: Option<seq<real>>, lo: nat, hi: nat, i: nat)
    requires lo + i < hi <= |prices|
    ensures prices[lo..hi][i] == prices[lo + i] && NewsAt(NewsSegment(news, lo, hi), i) == NewsAt(news, lo + i)
  {
  }

  lemma {:induction false} PositiveAtMost(deltas: seq<Delta>)
    ensures CountPositive(deltas) <= |deltas|
    ensures CountPositive(deltas) == |deltas| <==> forall k :: 0 <= k < |deltas| ==> deltas[k].pnlDelta > 0.0
  {
    if deltas != [] {
      PositiveAtMost(deltas[..|deltas| - 1]);
    }
  }

  /** Consistency is a fraction, and is 1 if the candidate wins every fold. */
  lemma ConsistencyRange(deltas: seq<Delta>)
    requires deltas != []
    ensures var consistency := Consistency(deltas);
      && 0.0 <= consistency <= 1.0
      && ((forall k :: 0 <= k < |deltas| ==> deltas[k].pnlDelta > 0.0) ==> consistency == 1.0)
  {
    PositiveAtMost(deltas);
    var n, c := |deltas| as real, CountPositive(deltas) as real;
    UnitOnGrid4();
    DivideMono(c, n, n);
    IsQuotient(n, n, 1.0);
    DivideMono(0.0, c, n);
    RoundWithin(c / n, 0.0, 1.0, GRID4);
    RoundFixed(1.0, GRID4);
  }
}
