/** cognitive/challenger.py and the trial of a candidate in CognitiveLoop.evolve: two paired backtests,
    a walk-forward, and the verdict on them. */
module Challenger {
  import opened Rounding
  import opened Json
  import opened Trades
  import opened Config
  import opened Learning
  import opened Evolution
  import opened BacktestGate
  import opened WalkForward
  import opened Sharpe
  import opened Report

  const MIN_LEARNING_SAMPLES := 30
  const MIN_TRADES := 30
  const DRAWDOWN_TOLERANCE_PCT := 1.0
  const MIN_WALK_FORWARD_CONSISTENCY := 0.6

  datatype Checks = Checks(
    statisticalSanity: bool, noOverfit: bool, riskImpactOk: bool, historicallyConsistent: bool,
    improvesOutOfSample: bool, walkForwardConsistent: bool)

  datatype Reason = InsufficientSample | Overfit | OutOfBounds | DrawdownWorsens | Unsupported | NoImprovement
                  | Inconsistent | ApprovedBecause

  datatype Review = Review(approved: bool, riskScore: real, reasons: seq<Reason>, checks: Checks)

  /** What the verdict is based on. */
  datatype Evidence = Evidence(
    inSample: Delta, outSample: Delta, learningSamples: nat, valid: bool, supported: bool, consistency: real)

  predicate EnoughSamples(e: Evidence) {
    && e.learningSamples >= MIN_LEARNING_SAMPLES
    && e.outSample.candidate.trades >= MIN_TRADES && e.outSample.baseline.trades >= MIN_TRADES
  }

  predicate Overfits(e: Evidence) {
    e.inSample.pnlDelta > 0.0 && e.outSample.pnlDelta <= 0.0
  }

  function ChecksOf(e: Evidence): Checks {
    Checks(EnoughSamples(e), !Overfits(e), e.valid && e.outSample.drawdownDelta <= DRAWDOWN_TOLERANCE_PCT, e.supported,
           e.outSample.pnlDelta > 0.0, e.consistency >= MIN_WALK_FORWARD_CONSISTENCY)
  }

  predicate AllPass(c: Checks) {
    c.statisticalSanity && c.noOverfit && c.riskImpactOk && c.historicallyConsistent && c.improvesOutOfSample
    && c.walkForwardConsistent
  }

  /** `review`: approved iff every check passes; the reasons name exactly the failed ones.  The risk
      score is a fraction, and zero also for a candidate that only fails to improve. */
  method ReviewEvidence(e: Evidence) returns (review: Review)
    ensures review.checks == ChecksOf(e) && (review.approved <==> AllPass(review.checks))
    ensures forall r :: r in review.reasons <==>
      if r.ApprovedBecause? then review.approved else Against(r, review.checks, e.valid)
    ensures 0.0 <= review.riskScore <= 1.0
    ensures var c := review.checks;
      Near4(review.riskScore, (if c.statisticalSanity then 0.0 else 0.20) + (if c.noOverfit then 0.0 else 0.35)
                              + (if c.riskImpactOk then 0.0 else 0.20)
                              + (if c.historicallyConsistent then 0.0 else 0.10)
                              + (if c.walkForwardConsistent then 0.0 else 0.15))
    ensures review.riskScore == 0.0 <==> AllPass(review.checks.(improvesOutOfSample := true))
  {
    var checks := ChecksOf(e);
    var failed := Failures(checks, e.valid);
    var reasons := if AllPass(checks) then failed + [ApprovedBecause] else failed;
    RiskIsOnGrid(Risk(checks));
    NearGrid4(Risk(checks));
    review := Review(AllPass(checks), Round(Risk(checks), GRID4), reasons, checks);
  }

  /** The failed check a reason stands for. */
  predicate Against(r: Reason, checks: Checks, valid: bool) {
    match r
    case InsufficientSample => !checks.statisticalSanity
    case Overfit => !checks.noOverfit
    case OutOfBounds => !valid
    case DrawdownWorsens => valid && !checks.riskImpactOk
    case Unsupported => !checks.historicallyConsistent
    case NoImprovement => !checks.improvesOutOfSample
    case Inconsistent => !checks.walkForwardConsistent
    case ApprovedBecause => false
  }

  /** The reasons against, in the order of the checks. */
  method Failures(checks: Checks, valid: bool) returns (reasons: seq<Reason>)
    requires checks.riskImpactOk ==> valid
    ensures forall r :: r in reasons <==> Against(r, checks, valid)
  {
    reasons := Noted([], !checks.statisticalSanity, InsufficientSample);
    reasons := Noted(reasons, !checks.noOverfit, Overfit);
    reasons := Noted(reasons, !checks.riskImpactOk, if valid then DrawdownWorsens else OutOfBounds);
    reasons := Noted(reasons, !checks.historicallyConsistent, Unsupported);
    reasons := Noted(reasons, !checks.improvesOutOfSample, NoImprovement);
    reasons := Noted(reasons, !checks.walkForwardConsistent, Inconsistent);
  }

  function Noted(reasons: seq<Reason>, failed: bool, reason: Reason): (out: seq<Reason>)
    ensures forall r :: r in out <==> r in reasons || (failed && r == reason)
  {
    if failed then reasons + [reason] else reasons
  }

  function Risk(c: Checks): (risk: real)
    ensures 0.0 <= risk <= 1.0
    ensures risk == 0.0 || risk >= 0.1
  {
    (if c.statisticalSanity then 0.0 else 0.20) + (if c.noOverfit then 0.0 else 0.35) +
      (if c.riskImpactOk then 0.0 else 0.20)
    + (if c.historicallyConsistent then 0.0 else 0.10) + (if c.walkForwardConsistent then 0.0 else 0.15)
  }

  lemma RiskIsOnGrid(risk: real)
    requires 0.0 <= risk <= 1.0 && (risk == 0.0 || risk >= 0.1)
    ensures 0.0 <= Round(risk, GRID4) <= 1.0
    ensures Round(risk, GRID4) == 0.0 <==> risk == 0.0
  {
    UnitOnGrid4();
    RoundWithin(risk, 0.0, 1.0, GRID4);
    RoundFixed(0.0, GRID4);
    RoundNear(risk, GRID4);
  }

  // ---------------------------------------------------------------- the trial

  /** What an evolution cycle is given: the market and how to look at it. */
  datatype Trial = Trial(
    prices: seq<Price>, news: Option<seq<real>>, split: real, folds: int, seed: int,
    perceive: Perceive, generator: Generator, root: Root)

  /** `max(1, int(len(prices) * split))` */
  function Cut(n: nat, split: real): nat {
    var cut := Truncate(n as real * split);
    if cut >= 1 then cut else 1
  }

  function NewsFrom(news: Option<seq<real>>, lo: nat): Option<seq<real>> {
    match news
    case None => None
    case Some(xs) => Some(xs[Clamp(lo, |xs|)..])
  }

  function InSample(t: Trial): (seq<Price>, Option<seq<real>>) {
    var cut := Cut(|t.prices|, t.split);
    (t.prices[..Clamp(cut, |t.prices|)], NewsSegment(t.news, 0, cut))
  }

  function OutOfSample(t: Trial): (seq<Price>, Option<seq<real>>) {
    var cut := Cut(|t.prices|, t.split);
    (t.prices[Clamp(cut, |t.prices|)..], NewsFrom(t.news, cut))
  }

  ghost function JudgingIn(t: Trial, baseline: CognitiveConfig, candidate: CognitiveConfig): Judgement {
    Judging(baseline, candidate, t.perceive, t.generator, t.root)
  }

  /** The signal a proposal is about: the last component of its target. */
  function SignalOf(p: Proposal): Option<Signal> {
    var key := LastComponent(p.target);
    if key == Key(News) then Some(News)
    else if key == Key(Tech) then Some(Tech)
    else if key == Key(Macro) then Some(Macro)
    else None
  }

  /** The tracker's statistics on it; an unknown signal has none. */
  function StatsOf(tracker: PerSignal<Acc>, p: Proposal): Stats {
    match SignalOf(p)
    case Some(s) => Metadata(tracker.At(s))
    case None => Stats(0, 0.0, 0.0)
  }

  /** `_attribution_supports` */
  predicate Supports(stats: Stats, direction: int) {
    var good := stats.totalPnl >= 0.0 && stats.correctRate >= 0.5;
    if direction > 0 then good else !good
  }

  predicate Numeric(p: Proposal) {
    p.oldValue.Num? && p.newValue.Num?
  }

  ghost function EvidenceOf(t: Trial, baseline: CognitiveConfig, candidate: CognitiveConfig, tracker: PerSignal<Acc>,
                            p: Proposal): Evidence
    requires Numeric(p)
  {
    var judge := JudgingIn(t, baseline, candidate);
    Evidence(judge(InSample(t).0, InSample(t).1, t.seed), judge(OutOfSample(t).0, OutOfSample(t).1, t.seed),
             StatsOf(tracker, p).samples, true, Supports(StatsOf(tracker, p), Sign(p.newValue.x - p.oldValue.x)),
             WalkForwardOf(t.prices, t.news, judge, t.seed, t.folds).consistency)
  }

  ghost predicate Approves(t: Trial, baseline: CognitiveConfig, candidate: CognitiveConfig, tracker: PerSignal<Acc>,
                           p: Proposal)
    requires Numeric(p)
  {
    AllPass(ChecksOf(EvidenceOf(t, baseline, candidate, tracker, p)))
  }

  /** The backtests and the verdict on one candidate. */
  method Try(t: Trial, baseline: CognitiveConfig, candidate: CognitiveConfig, tracker: PerSignal<Acc>, p: Proposal)
    returns (review: Review)
    requires Numeric(p)
    ensures review.checks == ChecksOf(EvidenceOf(t, baseline, candidate, tracker, p))
    ensures review.approved <==> Approves(t, baseline, candidate, tracker, p)
  {
    ghost var judge := JudgingIn(t, baseline, candidate);
    JudgingIs(baseline, candidate, t.perceive, t.generator, t.root);
    var inSample := EvaluateProposal(InSample(t).0, InSample(t).1, baseline, candidate, t.perceive, t.generator,
                                     t.root, t.seed, judge);
    var outSample := EvaluateProposal(OutOfSample(t).0, OutOfSample(t).1, baseline, candidate, t.perceive, t.generator,
                                      t.root, t.seed, judge);
    var walk := WalkForwardRun(t.prices, t.news, baseline, candidate, t.perceive, t.generator, t.root, t.seed, t.folds,
                               judge);
    var stats := StatsOf(tracker, p);
    review := ReviewEvidence(Evidence(inSample, outSample, stats.samples, true,
                                      Supports(stats, Sign(p.newValue.x - p.oldValue.x)), walk.consistency));
  }

  // ---------------------------------------------------------------- what approval means

  /** For what the proposal agent generates, two of the checks are decided already: the evidence an
      observation needs is at least what the challenger asks for again. */
  lemma GeneratedIsSupported(tracker: PerSignal<Acc>, config: CognitiveConfig, rate: real)
    requires Safe(config) && 0.0 <= rate <= 1.0 && Propose(Observe(tracker), config, rate).Some?
    ensures var p := Propose(Observe(tracker), config, rate).value;
      && Numeric(p) && StatsOf(tracker, p).samples >= MIN_LEARNING_SAMPLES
      && Supports(StatsOf(tracker, p), Sign(p.newValue.x - p.oldValue.x))
  {
    var p, best := Propose(Observe(tracker), config, rate).value, Best(Observe(tracker));
    BestIsObserved(Observe(tracker));
    ObservedHasStats(tracker, best);
    TargetsSignal(p, best.signal);
    OldValueBounds(config.weights.At(best.signal));
    NewWeightBounds(p.oldValue.x, best.outperforming, rate);
  }

  lemma {:induction false} BestIsObserved(observations: seq<Observation>)
    requires observations != []
    ensures Best(observations) in observations
  {
    if |observations| > 1 {
      BestIsObserved(observations[..|observations| - 1]);
    }
  }

  lemma ObservedHasStats(tracker: PerSignal<Acc>, o: Observation)
    requires o in Observe(tracker)
    ensures var stats := Metadata(tracker.At(o.signal));
      stats.samples >= MIN_LEARNING_SAMPLES && Supports(stats, if o.outperforming then 1 else -1)
  {
  }

  lemma TargetsSignal(p: Proposal, s: Signal)
    requires p.target == Target(s)
    ensures SignalOf(p) == Some(s)
  {
    KeysDistinct(s, News);
    KeysDistinct(s, Tech);
    KeysDistinct(s, Macro);
    assert Target(s) == "weights" + "." + Key(s);
    LastComponentAfterDot("weights", Key(s));
  }

  /** The bars before the cut and those after it are the whole series, each with its own news. */
  lemma CutCovers(t: Trial)
    requires 0.0 <= t.split <= 1.0
    ensures InSample(t).0 + OutOfSample(t).0 == t.prices
    ensures |InSample(t).0| <= 1 || |InSample(t).0| as real <= |t.prices| as real * t.split
    ensures t.prices != [] ==> |InSample(t).0| >= 1 && |InSample(t).0| as real > |t.prices| as real * t.split - 1.0
    ensures forall i: nat :: i < |InSample(t).0| ==> NewsAt(InSample(t).1, i) == NewsAt(t.news, i)
    ensures forall i: nat :: i < |OutOfSample(t).0| ==>
      NewsAt(OutOfSample(t).1, i) == NewsAt(t.news, |InSample(t).0| + i)
  {
    CutBounds(|t.prices|, t.split);
  }

  lemma CutBounds(n: nat, split: real)
    requires 0.0 <= split <= 1.0
    ensures 1 <= Cut(n, split) && (n >= 1 ==> Cut(n, split) <= n)
    ensures Cut(n, split) == 1 || Cut(n, split) as real <= n as real * split
    ensures Cut(n, split) as real > n as real * split - 1.0
  {
    PartBounds(n as real, split);
    FloorBounds(n as real * split, n);
  }

  lemma PartBounds(n: real, split: real)
    requires n >= 0.0 && 0.0 <= split <= 1.0
    ensures 0.0 <= n * split <= n
  {
    var rest := 1.0 - split;
    assert n * rest >= 0.0 && n * split == n - n * rest;
  }

  lemma FloorBounds(x: real, n: nat)
    requires 0.0 <= x <= n as real
    ensures 0 <= x.Floor <= n && x.Floor as real <= x < x.Floor as real + 1.0
  {
  }

  /** Approval is evidence on bars the proposal was not tuned on: strictly more money at the end - and
      so a better return - a drawdown at most one point worse, enough trades on both sides ... */
  lemma ApprovedIsBetter(t: Trial, baseline: CognitiveConfig, candidate: CognitiveConfig, tracker: PerSignal<Acc>,
                         p: Proposal)
    requires Numeric(p) && Approves(t, baseline, candidate, tracker, p)
    ensures var out := EvidenceOf(t, baseline, candidate, tracker, p).outSample;
      && out.candidate.totalReturnPct > out.baseline.totalReturnPct
      && CashAfter(t, candidate) > CashAfter(t, baseline)
      && out.candidate.maxDrawdownPct <= out.baseline.maxDrawdownPct + DRAWDOWN_TOLERANCE_PCT
      && out.candidate.trades >= MIN_TRADES && out.baseline.trades >= MIN_TRADES
  {
    DeltaIsExact(OutOfSample(t).0, OutOfSample(t).1, baseline, candidate, t.perceive, t.generator(t.seed), t.root);
    CashAfterIs(t, candidate);
    CashAfterIs(t, baseline);
    if CashAfter(t, candidate) <= CashAfter(t, baseline) {
      ReturnMono(CashAfter(t, candidate), CashAfter(t, baseline), DEFAULT_PAPER_CASH);
      assert false;
    }
  }

  /** The verdict without deltas: the overfit check never decides it, because improving out of sample
      is required anyway. */
  lemma ApprovedIff(t: Trial, baseline: CognitiveConfig, candidate: CognitiveConfig, tracker: PerSignal<Acc>,
                    p: Proposal)
    requires Numeric(p)
    ensures var e := EvidenceOf(t, baseline, candidate, tracker, p);
      var before, after := e.outSample.baseline, e.outSample.candidate;
      Approves(t, baseline, candidate, tracker, p) <==>
        && after.totalReturnPct > before.totalReturnPct
        && after.maxDrawdownPct - before.maxDrawdownPct <= 1.0
        && before.trades >= 30 && after.trades >= 30
        && (exists s: Signal :: Concerns(p, s) && tracker.At(s).samples >= 30
              && (HasMerit(Metadata(tracker.At(s))) <==> p.newValue.x > p.oldValue.x))
        && e.consistency >= 0.6
  {
    SignalIsLast(p);
    DeltaIsExact(OutOfSample(t).0, OutOfSample(t).1, baseline, candidate, t.perceive, t.generator(t.seed), t.root);
  }

  /** The proposal is about this signal: the last component of its target names it. */
  ghost predicate Concerns(p: Proposal, s: Signal) {
    LastComponent(p.target) == match s case News => "news" case Tech => "tech" case Macro => "macro"
  }

  /** The signal has made no loss and was right at least half of the time. */
  ghost predicate HasMerit(stats: Stats) {
    stats.totalPnl >= 0.0 && stats.correctRate >= 0.5
  }

  lemma SignalIsLast(p: Proposal)
    ensures forall s: Signal :: Concerns(p, s) <==> SignalOf(p) == Some(s)
  {
    assert "news"[0] == 'n' && "tech"[0] == 't' && "macro"[0] == 'm';
  }

  /** What the account of the trial holds after the bars behind the cut. */
  ghost function CashAfter(t: Trial, config: CognitiveConfig): real {
    var (prices, news) := OutOfSample(t);
    DEFAULT_PAPER_CASH +
      Sum(Pnls(DEFAULT_PAPER_CASH, DEFAULT_POSITION_FRACTION,
               GateTrades(prices, Actions(prices, news, config, t.perceive), t.generator(t.seed))))
  }

  lemma CashAfterIs(t: Trial, config: CognitiveConfig)
    ensures var (prices, news) := OutOfSample(t);
      CashAfter(t, config) == FinalCash(prices, Actions(prices, news, config, t.perceive), t.generator(t.seed),
                                        DEFAULT_PAPER_CASH, DEFAULT_POSITION_FRACTION)
  {
    var (prices, news) := OutOfSample(t);
    CashIsSumAndProduct(DEFAULT_PAPER_CASH, DEFAULT_POSITION_FRACTION,
                        GateTrades(prices, Actions(prices, news, config, t.perceive), t.generator(t.seed)));
  }

  /** ... and a majority of the periods: at least 59.995 % of the folds, six tenths after rounding. */
  lemma ApprovedWinsFolds(t: Trial, baseline: CognitiveConfig, candidate: CognitiveConfig, tracker: PerSignal<Acc>,
                          p: Proposal)
    requires Numeric(p) && Approves(t, baseline, candidate, tracker, p) && t.folds >= 2 && |t.prices| >= t.folds * 2
    ensures var deltas := Folds(t.prices, t.news, JudgingIn(t, baseline, candidate), t.seed, t.folds);
      |Won(deltas)| as real / t.folds as real >= 0.59995
  {
    var deltas := Folds(t.prices, t.news, JudgingIn(t, baseline, candidate), t.seed, t.folds);
    PositiveCounted(deltas);
    RoundNear(CountPositive(deltas) as real / t.folds as real, GRID4);
  }

  /** A candidate that decides like the baseline on every bar after the cut is never approved. */
  lemma InertIsRejected(t: Trial, baseline: CognitiveConfig, candidate: CognitiveConfig, tracker: PerSignal<Acc>,
                        p: Proposal)
    requires Numeric(p)
    requires var (prices, news) := OutOfSample(t);
      forall i: nat :: i < |prices| ==>
        ActionAt(prices, news, baseline, t.perceive, i) == ActionAt(prices, news, candidate, t.perceive, i)
    ensures !Approves(t, baseline, candidate, tracker, p)
  {
    InertChangeScoresZero(OutOfSample(t).0, OutOfSample(t).1, baseline, candidate, t.perceive, t.generator(t.seed),
                          t.root);
  }
}
