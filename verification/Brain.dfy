/** cognitive/loop.py as a function: what each operation adds to the history and changes in the
    brain.  Scorers, backtests, verdicts and grades that come from elsewhere are inputs. */
module Brain {
  import opened Rounding
  import opened Json
  import opened Config
  import opened Trades
  import opened Decision
  import opened Learning
  import opened Evolution
  import opened EventStream

  datatype Agent = NewsAgent | TechnicalAgent | MacroAgent | RiskAgent

  datatype GradeSubject = TradeGrade | AgentGrade | ProposalGrade

  /** The kinds of fact on the stream, with the parts of the payload that are read again. */
  datatype Payload =
    | AgentSignal(agent: Agent)
    | FeaturesEvent(features: Features)
    | Reasoning
    | DecisionEvent(verdict: Verdict, configVersion: int, proposalId: Option<string>)
    | RiskGateEvent(gate: RiskGate)
    | ExecutionEvent(execution: Execution, configVersion: int, proposalId: Option<string>)
    | TradeOutcome(realizedPnl: real, configVersion: int, proposalId: Option<string>)
    | AttributionEvent(attribution: Attribution)
    | Grade(subject: GradeSubject)
    | ObservationEvent(observation: Observation)
    | Counterfactual
    | Drift
    | ProposalEvent(proposal: Proposal)
    | BacktestResult
    | ChallengerVerdict(approved: bool)
    | PrRequest
    | ConfigVersion(version: int, config: map<string, Value>)

  type History = seq<Event<Payload>>

  type Items = seq<Item<Payload>>

  datatype Brain = Brain(
    history: History,
    cap: Option<nat>,
    config: CognitiveConfig,
    proposalId: Option<string>,
    tracker: PerSignal<Acc>,
    stats: map<ProposalType, TypeStat>,
    accounts: map<nat, Account>)   // account an execution was gated with, by its sequence number

  /** One forward pass: what the agents said (as features), the account, the market price. */
  datatype Pass = Pass(features: Features, account: Account, price: real, traceId: Option<string>)

  datatype Op =
    | Step(pass: Pass)
    | CloseTrade(traceId: string, realizedPnl: real)
    | DetectDrift(alerts: nat)
    | Learn
    | Evolve(admitted: bool, approved: bool, readers: Readers)
    | Merge(candidate: CognitiveConfig, proposalId: Option<string>)

  // ---------------------------------------------------------------- step

  /** Python's `trace_id or f"trace-{len(stream)}"`; the decimal text of the length is `show`. */
  function TraceId(b: Brain, given: Option<string>, show: nat -> string): string {
    if given.Some? && given.value != "" then given.value else "trace-" + show(|Retained(b.history, b.cap)|)
  }

  function StepItems(b: Brain, pass: Pass, traceId: string): Items {
    var verdict := Decide(pass.features, b.config);
    var gate := Gate(verdict, b.config, pass.account);
    var execution := Execute(verdict, gate, pass.price, pass.account.equity);
    [Item(traceId, AgentSignal(NewsAgent)),
     Item(traceId, AgentSignal(TechnicalAgent)),
     Item(traceId, AgentSignal(MacroAgent)),
     Item(traceId, AgentSignal(RiskAgent)),
     Item(traceId, FeaturesEvent(pass.features)),
     Item(traceId, Reasoning),
     Item(traceId, DecisionEvent(verdict, b.config.version, b.proposalId)),
     Item(traceId, RiskGateEvent(gate)),
     Item(traceId, ExecutionEvent(execution, b.config.version, b.proposalId))]
  }

  // ---------------------------------------------------------------- close_trade

  predicate IsDecisionOf(e: Event<Payload>, traceId: string) {
    e.payload.DecisionEvent? && e.traceId == traceId
  }

  /** `_decision_for`: the newest decision of the trace that retention has left. */
  function DecisionFor(events: History, traceId: string): Option<Payload> {
    if events == [] then None
    else
      var last := events[|events| - 1];
      if IsDecisionOf(last, traceId) then Some(last.payload) else DecisionFor(events[..|events| - 1], traceId)
  }

  const NO_BREAKDOWN: PerSignal<real> := PerSignal(0.0, 0.0, 0.0)

  function BreakdownOf(decision: Option<Payload>): PerSignal<real> {
    if decision.Some? && decision.value.DecisionEvent? then decision.value.verdict.breakdown else NO_BREAKDOWN
  }

  function CloseItems(b: Brain, traceId: string, realizedPnl: real): Items {
    var decision := DecisionFor(Retained(b.history, b.cap), traceId);
    var known := decision.Some? && decision.value.DecisionEvent?;
    [Item(traceId, TradeOutcome(Round(realizedPnl, GRID6),
                                if known then decision.value.configVersion else b.config.version,
                                if known then decision.value.proposalId else None)),
     Item(traceId, AttributionEvent(Attribute(BreakdownOf(decision), realizedPnl))),
     Item(traceId, Grade(TradeGrade)),
     Item(traceId, Counterfactual)]
  }

  function CloseTracker(b: Brain, traceId: string, realizedPnl: real): PerSignal<Acc> {
    var breakdown := BreakdownOf(DecisionFor(Retained(b.history, b.cap), traceId));
    FoldTrade(b.tracker, Attribute(breakdown, realizedPnl), Sign(realizedPnl))
  }

  // ---------------------------------------------------------------- learn, evolve, merge

  function Plain(payload: Payload): Item<Payload> {
    Item("", payload)
  }

  function ObservationItems(observations: seq<Observation>): Items {
    seq(|observations|, i requires 0 <= i < |observations| => Plain(ObservationEvent(observations[i])))
  }

  const AGENT_GRADES: Items := [Plain(Grade(AgentGrade)), Plain(Grade(AgentGrade)), Plain(Grade(AgentGrade))]

  function LearnItems(b: Brain): Items {
    ObservationItems(Observe(b.tracker)) + AGENT_GRADES
  }

  function Proposed(b: Brain): Option<Proposal> {
    Propose(Observe(b.tracker), b.config, SuccessRate(b.stats, WeightChange))
  }

  /** What a cycle emits after its proposal was admitted and found applicable. */
  function JudgedItems(approved: bool): Items {
    [Plain(BacktestResult), Plain(ChallengerVerdict(approved)), Plain(Grade(ProposalGrade))]
    + if approved then [Plain(PrRequest)] else []
  }

  function EvolveItems(b: Brain, admitted: bool, approved: bool, readers: Readers): Items {
    LearnItems(b)
    + match Proposed(b)
      case None => []
      case Some(p) =>
        [Plain(ProposalEvent(p))]
        + if admitted && ApplyProposal(b.config, p, readers).Candidate? then JudgedItems(approved) else []
  }

  function EvolveStats(b: Brain, admitted: bool, approved: bool, readers: Readers): map<ProposalType, TypeStat> {
    match Proposed(b)
    case None => b.stats
    case Some(p) =>
      if admitted && ApplyProposal(b.config, p, readers).Candidate? then Recorded(b.stats, p.ptype, approved)
        else b.stats
  }

  function VersionItem(config: CognitiveConfig): Item<Payload> {
    Plain(ConfigVersion(config.version, ToDict(config)))
  }

  // ---------------------------------------------------------------- the whole brain

  function Start(config: CognitiveConfig, cap: Option<nat>): Brain {
    Brain(Append([], [VersionItem(config)]), cap, config, None, EMPTY_TRACKER, map[], map[])
  }

  function Emit(b: Brain, items: Items): Brain {
    b.(history := Append(b.history, items))
  }

  function Repeat(payload: Payload, n: nat): Items {
    seq(n, _ => Plain(payload))
  }

  /** The events an operation puts on the stream, in order. */
  function Emitted(b: Brain, op: Op, show: nat -> string): Items {
    match op
    case Step(pass) => StepItems(b, pass, TraceId(b, pass.traceId, show))
    case CloseTrade(traceId, pnl) => CloseItems(b, traceId, pnl)
    case DetectDrift(alerts) => Repeat(Drift, alerts)
    case Learn => LearnItems(b)
    case Evolve(admitted, approved, readers) => EvolveItems(b, admitted, approved, readers)
    case Merge(candidate, _) => [VersionItem(candidate)]
  }

  /** ... and what it changes besides. */
  function Apply(b: Brain, op: Op, show: nat -> string): (c: Brain)
    ensures c.history == Append(b.history, Emitted(b, op, show)) && c.cap == b.cap
  {
    var e := Emit(b, Emitted(b, op, show));
    match op
    case Step(pass) => e.(accounts := b.accounts[|b.history| + 8 := pass.account])
    case CloseTrade(traceId, pnl) => e.(tracker := CloseTracker(b, traceId, pnl))
    case Evolve(admitted, approved, readers) => e.(stats := EvolveStats(b, admitted, approved, readers))
    case Merge(candidate, proposalId) => e.(config := candidate, proposalId := proposalId)
    case _ => e
  }

  function Run(b: Brain, ops: seq<Op>, show: nat -> string): Brain {
    if ops == [] then b else Apply(Run(b, ops[..|ops| - 1], show), ops[|ops| - 1], show)
  }
}
