/** cognitive/decision.py, risk.py and execution.py: the frozen-value half of the brain. */
module Decision {
  import opened Rounding
  import opened Config
  import opened Trades

  datatype Features = Features(news: real, tech: real, macro: real, risk: real) {
    function At(signal: Signal): real {
      match signal
      case News => news
      case Tech => tech
      case Macro => macro
    }
  }

  datatype Verdict = Verdict(
    action: Action, score: real, breakdown: PerSignal<real>, buyThreshold: real, sellThreshold: real)

  /** A product under a name, so that sums of products stay linear to the solver. */
  function Weighed(x: real, weight: real): (product: real)
    ensures product == x * weight
  {
    x * weight
  }

  function Micro(x: real): real {
    Round(x, GRID6)
  }

  function Contribution(features: Features, config: CognitiveConfig, signal: Signal): real {
    Micro(Weighed(features.At(signal), config.weights.At(signal)))
  }

  function Decide(features: Features, config: CognitiveConfig): Verdict {
    var breakdown := PerSignal(Contribution(features, config, News),
                               Contribution(features, config, Tech),
                               Contribution(features, config, Macro));
    var score := Micro(breakdown.news + breakdown.tech + breakdown.macro);
    var action := if score > config.buyThreshold then Buy
                  else if score < config.sellThreshold then Sell
                  else Hold;
    Verdict(action, score, breakdown, config.buyThreshold, config.sellThreshold)
  }

  datatype Block = PositionSize | Exposure | DailyLoss

  datatype RiskGate = RiskGate(allowed: bool, blocks: seq<Block>, requestedPositionPct: real)

  datatype Account = Account(positionPct: real, exposurePct: real, dayPnlPct: real, equity: real)

  method EvaluateRisk(verdict: Verdict, config: CognitiveConfig, account: Account) returns (gate: RiskGate)
    ensures gate == Gate(verdict, config, account)
    ensures gate.allowed <==> !verdict.action.Hold? && WithinLimits(config, account)
    ensures gate.allowed ==> gate.blocks == []
    ensures gate.requestedPositionPct == account.positionPct
    ensures forall block :: block in gate.blocks <==> !verdict.action.Hold? && Breaks(block, config, account)
    ensures forall i, j :: 0 <= i < j < |gate.blocks| ==> gate.blocks[i] != gate.blocks[j]
  {
    var blocks: seq<Block> := [];
    var isTrade := verdict.action.Buy? || verdict.action.Sell?;
    if isTrade {
      if account.positionPct > config.maxPositionSizePct {
        blocks := blocks + [PositionSize];
      }
      if account.exposurePct + account.positionPct > config.maxExposurePct {
        blocks := blocks + [Exposure];
      }
      if account.dayPnlPct <= -config.maxDailyLossPct {
        blocks := blocks + [DailyLoss];
      }
    }
    gate := RiskGate(isTrade && blocks == [], blocks, account.positionPct);
  }

  function Gate(verdict: Verdict, config: CognitiveConfig, account: Account): RiskGate {
    var blocks :=
      if verdict.action.Hold? then []
      else (if account.positionPct > config.maxPositionSizePct then [PositionSize] else [])
           + (if account.exposurePct + account.positionPct > config.maxExposurePct then [Exposure] else [])
           + (if account.dayPnlPct <= -config.maxDailyLossPct then [DailyLoss] else []);
    RiskGate(!verdict.action.Hold? && blocks == [], blocks, account.positionPct)
  }

  datatype Status = Filled | Skipped

  datatype Execution = Execution(side: Action, qty: real, price: real, notional: real, status: Status)

  function Execute(verdict: Verdict, gate: RiskGate, price: real, equity: real): Execution {
    if !gate.allowed || price <= 0.0 then Execution(verdict.action, 0.0, price, 0.0, Skipped)
    else
      var notional := Weighed(equity, gate.requestedPositionPct);
      Execution(verdict.action, Round(notional / price, GRID8), price, Round(notional, GRID2), Filled)
  }

  /** The limit a block stands for is broken. */
  ghost predicate Breaks(block: Block, config: CognitiveConfig, account: Account) {
    match block
    case PositionSize => account.positionPct > config.maxPositionSizePct
    case Exposure => account.exposurePct + account.positionPct > config.maxExposurePct
    case DailyLoss => account.dayPnlPct <= -config.maxDailyLossPct
  }

  ghost predicate WithinLimits(config: CognitiveConfig, account: Account) {
    && account.positionPct <= config.maxPositionSizePct
    && account.exposurePct + account.positionPct <= config.maxExposurePct
    && -config.maxDailyLossPct < account.dayPnlPct
  }

  /** An order is filled exactly when there is a signal, all three hard limits hold and the
      price is positive; otherwise the record is empty. */
  lemma FilledIff(features: Features, config: CognitiveConfig, account: Account, price: real)
    ensures var verdict := Decide(features, config);
      var execution := Execute(verdict, Gate(verdict, config, account), price, account.equity);
      && (execution.status == Filled <==>
           !verdict.action.Hold? && WithinLimits(config, account) && price > 0.0)
      && (execution.status == Skipped ==> execution.qty == 0.0 && execution.notional == 0.0)
  {
  }

  // ---------------------------------------------------------------- what a decision means

  const SCORE_MARGIN := 0.000002

  predicate Near(x: real, y: real, margin: real) {
    -margin <= x - y <= margin
  }

  /** The weighted sum of the features, before any rounding. */
  function ExactScore(features: Features, config: CognitiveConfig): real {
    Weighed(features.news, config.weights.news) + Weighed(features.tech, config.weights.tech)
    + Weighed(features.macro, config.weights.macro)
  }

  /** The verdict follows the weighted sum of the features: each contribution is its own feature
      times its own weight, clearly above the buy threshold it is a BUY, clearly below the sell
      threshold a SELL, and clearly between them nothing. */
  ghost predicate FollowsScore(verdict: Verdict, features: Features, config: CognitiveConfig) {
    && Near(verdict.breakdown.news, Weighed(features.news, config.weights.news), HALF_MICRO)
    && Near(verdict.breakdown.tech, Weighed(features.tech, config.weights.tech), HALF_MICRO)
    && Near(verdict.breakdown.macro, Weighed(features.macro, config.weights.macro), HALF_MICRO)
    && Near(verdict.score, ExactScore(features, config), SCORE_MARGIN)
    && verdict.buyThreshold == config.buyThreshold && verdict.sellThreshold == config.sellThreshold
    && ActionFits(verdict.action, ExactScore(features, config), config.buyThreshold, config.sellThreshold)
  }

  /** What the exact score d asks for, as long as it keeps clear of the thresholds. */
  ghost predicate ActionFits(action: Action, d: real, buy: real, sell: real) {
    && (d > buy + SCORE_MARGIN ==> action == Buy)
    && (d < sell - SCORE_MARGIN && sell <= buy ==> action == Sell)
    && (sell + SCORE_MARGIN < d < buy - SCORE_MARGIN ==> action == Hold)
  }

  lemma DecisionFollowsScore(features: Features, config: CognitiveConfig)
    ensures FollowsScore(Decide(features, config), features, config)
  {
    var b := Decide(features, config).breakdown;
    var x, y, z := Weighed(features.news, config.weights.news), Weighed(features.tech, config.weights.tech),
                   Weighed(features.macro, config.weights.macro);
    NearMicro(x);
    NearMicro(y);
    NearMicro(z);
    NearMicro(b.news + b.tech + b.macro);
    ErrorsAdd(b.news, b.tech, b.macro, x, y, z, Micro(b.news + b.tech + b.macro));
  }

  lemma NearMicro(x: real)
    ensures Near(Micro(x), x, HALF_MICRO)
  {
    RoundNear(x, GRID6);
  }

  lemma ErrorsAdd(a: real, b: real, c: real, x: real, y: real, z: real, score: real)
    requires Near(a, x, HALF_MICRO) && Near(b, y, HALF_MICRO) && Near(c, z, HALF_MICRO)
    requires Near(score, a + b + c, HALF_MICRO)
    ensures Near(score, x + y + z, SCORE_MARGIN)
  {
  }

  function Conviction(action: Action): int {
    match action
    case Sell => -1
    case Hold => 0
    case Buy => 1
  }

  /** Raising features whose weights are not negative never turns a BUY into less, nor a HOLD into a
      SELL. */
  lemma RaisingNeverSells(low: Features, high: Features, config: CognitiveConfig)
    requires low.news <= high.news && low.tech <= high.tech && low.macro <= high.macro
    requires config.weights.news >= 0.0 && config.weights.tech >= 0.0 && config.weights.macro >= 0.0
    ensures Conviction(Decide(low, config).action) <= Conviction(Decide(high, config).action)
  {
    var a, b := Decide(low, config).breakdown, Decide(high, config).breakdown;
    ContributionRises(low.news, high.news, config.weights.news);
    ContributionRises(low.tech, high.tech, config.weights.tech);
    ContributionRises(low.macro, high.macro, config.weights.macro);
    MicroMono(a.news + a.tech + a.macro, b.news + b.tech + b.macro);
  }

  lemma MicroMono(x: real, y: real)
    requires x <= y
    ensures Micro(x) <= Micro(y)
  {
    RoundMono(x, y, GRID6);
  }

  lemma ContributionRises(low: real, high: real, weight: real)
    requires low <= high && weight >= 0.0
    ensures Micro(Weighed(low, weight)) <= Micro(Weighed(high, weight))
  {
    MultiplyMono(low, high, weight);
    MicroMono(Weighed(low, weight), Weighed(high, weight));
  }

  /** A filled order is for the requested part of the equity, on the side of the verdict, at the
      market price: to the cent in money, and to half a hundred-millionth of a unit in quantity. */
  lemma FilledForRequest(verdict: Verdict, gate: RiskGate, price: real, equity: real)
    ensures var execution := Execute(verdict, gate, price, equity);
      && execution.side == verdict.action && execution.price == price
      && (execution.status == Filled ==> OrderFits(execution, Weighed(equity, gate.requestedPositionPct)))
  {
    var money := Weighed(equity, gate.requestedPositionPct);
    RoundNear(money, GRID2);
    if price > 0.0 {
      NearGrid8(money / price);
    }
  }

  ghost predicate OrderFits(execution: Execution, money: real) {
    && execution.price > 0.0 && Near(execution.notional, money, 0.005)
    && Near(execution.qty, money / execution.price, 0.000000005)
  }

  lemma NearGrid8(x: real)
    ensures Near(Round(x, GRID8), x, 0.000000005)
  {
    RoundNear(x, GRID8);
  }
}
