/** What every run of the brain keeps. */
module BrainProperties {
  import opened Rounding
  import opened Json
  import opened Config
  import opened Trades
  import opened Decision
  import opened Learning
  import opened Evolution
  import opened RecentKeys
  import opened EventStream
  import opened Brain

  type Show = nat -> string

  // ---------------------------------------------------------------- reading the history

  /** The configuration announced by the latest CONFIG_VERSION event, decoded as a reader would. */
  function LatestVersion(h: History): Option<map<string, Value>> {
    if h == [] then None
    else
      var n := |h| - 1;
      if h[n].payload.ConfigVersion? then Some(h[n].payload.config) else LatestVersion(h[..n])
  }

  /** What a reader makes of it. */
  function ConfigInForce(h: History, readers: Readers): Option<CognitiveConfig> {
    if h == [] then None
    else
      var n := |h| - 1;
      if h[n].payload.ConfigVersion? then FromDict(h[n].payload.config, readers) else ConfigInForce(h[..n], readers)
  }

  ghost predicate Announces(h: History, c: CognitiveConfig) {
    LatestVersion(h) == Some(ToDict(c))
  }

  /** A decision can be replayed from the stream alone: the event two before it holds the features
      of the same trace, the latest announced configuration decodes, and deciding again gives the
      recorded verdict under the recorded version. */
  ghost predicate Replayable(h: History, i: nat)
    requires i < |h| && h[i].payload.DecisionEvent?
  {
    && i >= 2
    && h[i - 2].payload.FeaturesEvent? && h[i - 2].traceId == h[i].traceId
    && exists c :: Announces(h[..i], c)
         && h[i].payload.verdict == Decide(h[i - 2].payload.features, c)
         && h[i].payload.configVersion == c.version
  }

  /** An execution comes directly after a risk gate of its trace and that directly after the
      decision; a filled one respected all three limits of the configuration in force and is for the
      requested part of the equity. */
  ghost predicate Gated(h: History, i: nat, accounts: map<nat, Account>)
    requires i < |h| && h[i].payload.ExecutionEvent?
  {
    && i >= 2 && i in accounts
    && h[i - 1].payload.RiskGateEvent? && h[i - 1].traceId == h[i].traceId
    && h[i - 2].payload.DecisionEvent? && h[i - 2].traceId == h[i].traceId
    && h[i].payload.execution.side == h[i - 2].payload.verdict.action
    && h[i - 1].payload.gate.requestedPositionPct == accounts[i].positionPct
    && exists c :: Announces(h[..i], c)
         && h[i].payload.configVersion == c.version
         && (h[i].payload.execution.status == Filled ==>
              && !h[i - 2].payload.verdict.action.Hold? && WithinLimits(c, accounts[i])
              && OrderFits(h[i].payload.execution, Weighed(accounts[i].equity, accounts[i].positionPct)))
  }

  ghost predicate AllReplayable(h: History) {
    forall i: nat :: i < |h| && h[i].payload.DecisionEvent? ==> Replayable(h, i)
  }

  ghost predicate AllGated(h: History, accounts: map<nat, Account>) {
    forall i: nat :: i < |h| && h[i].payload.ExecutionEvent? ==> Gated(h, i, accounts)
  }

  // ---------------------------------------------------------------- counting

  datatype Tag = Generated | Backtested | Approved | Rejected | PrRequests | Versions | Outcomes | TradeGrades
               | Decisions | Executions | Observations

  predicate Matches(p: Payload, tag: Tag) {
    match tag
    case Generated => p.ProposalEvent?
    case Backtested => p.BacktestResult?
    case Approved => p.ChallengerVerdict? && p.approved
    case Rejected => p.ChallengerVerdict? && !p.approved
    case PrRequests => p.PrRequest?
    case Versions => p.ConfigVersion?
    case Outcomes => p.TradeOutcome?
    case TradeGrades => p == Grade(TradeGrade)
    case Decisions => p.DecisionEvent?
    case Executions => p.ExecutionEvent?
    case Observations => p.ObservationEvent?
  }

  function Count(h: History, tag: Tag): nat {
    if h == [] then 0 else Count(h[..|h| - 1], tag) + if Matches(h[|h| - 1].payload, tag) then 1 else 0
  }

  /** `at` are the positions of these events. */
  lemma {:induction false} CountIs(h: History, tag: Tag, at: set<nat>)
    requires forall k: nat :: k in at <==> k < |h| && Matches(h[k].payload, tag)
    ensures Count(h, tag) == |at|
  {
    if h == [] {
      assert at == {};
    } else {
      var n := |h| - 1;
      CountIs(h[..n], tag, at - {n});
      assert n in at ==> at == (at - {n}) + {n};
    }
  }

  /** Decisions, executions, closed and graded trades are counted as the events of that kind ... */
  lemma TradesCounted(h: History)
    ensures Count(h, Decisions) == |set k: nat | k < |h| && h[k].payload.DecisionEvent?|
    ensures Count(h, Executions) == |set k: nat | k < |h| && h[k].payload.ExecutionEvent?|
    ensures Count(h, Outcomes) == |set k: nat | k < |h| && h[k].payload.TradeOutcome?|
    ensures Count(h, TradeGrades) == |set k: nat | k < |h| && h[k].payload == Grade(TradeGrade)|
  {
    CountIs(h, Decisions, set k: nat | k < |h| && h[k].payload.DecisionEvent?);
    CountIs(h, Executions, set k: nat | k < |h| && h[k].payload.ExecutionEvent?);
    CountIs(h, Outcomes, set k: nat | k < |h| && h[k].payload.TradeOutcome?);
    CountIs(h, TradeGrades, set k: nat | k < |h| && h[k].payload == Grade(TradeGrade));
  }

  /** ... and so are observations, versions, proposals and backtests ... */
  lemma ProposalsCounted(h: History)
    ensures Count(h, Observations) == |set k: nat | k < |h| && h[k].payload.ObservationEvent?|
    ensures Count(h, Versions) == |set k: nat | k < |h| && h[k].payload.ConfigVersion?|
    ensures Count(h, Generated) == |set k: nat | k < |h| && h[k].payload.ProposalEvent?|
    ensures Count(h, Backtested) == |set k: nat | k < |h| && h[k].payload.BacktestResult?|
  {
    CountIs(h, Observations, set k: nat | k < |h| && h[k].payload.ObservationEvent?);
    CountIs(h, Versions, set k: nat | k < |h| && h[k].payload.ConfigVersion?);
    CountIs(h, Generated, set k: nat | k < |h| && h[k].payload.ProposalEvent?);
    CountIs(h, Backtested, set k: nat | k < |h| && h[k].payload.BacktestResult?);
  }

  /** ... and verdicts, by how they went, and PR requests. */
  lemma VerdictsCounted(h: History)
    ensures Count(h, Approved) == |set k: nat | k < |h| && h[k].payload == ChallengerVerdict(true)|
    ensures Count(h, Rejected) == |set k: nat | k < |h| && h[k].payload == ChallengerVerdict(false)|
    ensures Count(h, PrRequests) == |set k: nat | k < |h| && h[k].payload.PrRequest?|
  {
    CountIs(h, Approved, set k: nat | k < |h| && h[k].payload == ChallengerVerdict(true));
    CountIs(h, Rejected, set k: nat | k < |h| && h[k].payload == ChallengerVerdict(false));
    CountIs(h, PrRequests, set k: nat | k < |h| && h[k].payload.PrRequest?);
  }

  function CountItems(items: Items, tag: Tag): nat {
    if items == [] then 0 else CountItems(items[..|items| - 1], tag) + if Matches(items[|items| - 1].payload, tag)
      then 1 else 0
  }

  lemma {:induction false} CountAppend(h: History, items: Items, tag: Tag)
    ensures Count(Append(h, items), tag) == Count(h, tag) + CountItems(items, tag)
  {
    if items == [] {
      AppendNothing(h);
    } else {
      var n := |items| - 1;
      CountAppend(h, items[..n], tag);
      AppendLast(h, items);
      CountLast(Append(h, items[..n]), Append(h, items), tag);
    }
  }

  lemma AppendLast(h: History, items: Items)
    requires items != []
    ensures var n := |items| - 1; var last := Event(|h| + n, items[n].traceId, items[n].payload);
      Append(h, items) == Append(h, items[..n]) + [last]
  {
  }

  lemma CountLast(front: History, h: History, tag: Tag)
    requires h != [] && h[..|h| - 1] == front
    ensures Count(h, tag) == Count(front, tag) + if Matches(h[|h| - 1].payload, tag) then 1 else 0
  {
  }

  lemma {:induction false} CountItemsConcat(a: Items, b: Items, tag: Tag)
    ensures CountItems(a + b, tag) == CountItems(a, tag) + CountItems(b, tag)
  {
    if b == [] {
      assert a + b == a;
    } else {
      CountItemsConcat(a, b[..|b| - 1], tag);
      assert (a + b)[..|a + b| - 1] == a + b[..|b| - 1];
    }
  }

  lemma {:induction false} CountNone(items: Items, tag: Tag)
    requires forall i :: 0 <= i < |items| ==> !Matches(items[i].payload, tag)
    ensures CountItems(items, tag) == 0
  {
    if items != [] {
      CountNone(items[..|items| - 1], tag);
    }
  }

  lemma CountOne(item: Item<Payload>, tag: Tag)
    ensures CountItems([item], tag) == if Matches(item.payload, tag) then 1 else 0
  {
    assert [item][..0] == [];
  }

  // ---------------------------------------------------------------- who emits what

  predicate Emits(op: Op, p: Payload) {
    match op
    case Step(_) => p.AgentSignal? || p.FeaturesEvent? || p.Reasoning? || p.DecisionEvent? || p.RiskGateEvent? ||
      p.ExecutionEvent?
    case CloseTrade(_, _) => p.TradeOutcome? || p.AttributionEvent? || p == Grade(TradeGrade) || p.Counterfactual?
    case DetectDrift(_) => p.Drift?
    case Learn => p.ObservationEvent? || p == Grade(AgentGrade)
    case Evolve(_, _, _) =>
      p.ObservationEvent? || p == Grade(AgentGrade) || p.ProposalEvent?
      || p.BacktestResult? || p.ChallengerVerdict? || p == Grade(ProposalGrade) || p.PrRequest?
    case Merge(_, _) => p.ConfigVersion?
  }

  ghost predicate Fits(op: Op, items: Items) {
    forall i :: 0 <= i < |items| ==> Emits(op, items[i].payload)
  }

  lemma FitsConcat(op: Op, a: Items, b: Items)
    requires Fits(op, a) && Fits(op, b)
    ensures Fits(op, a + b)
  {
  }

  lemma LearnFits(b: Brain, op: Op)
    requires op.Learn? || op.Evolve?
    ensures Fits(op, LearnItems(b))
  {
    FitsConcat(op, ObservationItems(Observe(b.tracker)), AGENT_GRADES);
  }

  lemma EvolveFits(b: Brain, op: Op)
    requires op.Evolve?
    ensures Fits(op, EvolveItems(b, op.admitted, op.approved, op.readers))
  {
    LearnFits(b, op);
    var rest := EvolveItems(b, op.admitted, op.approved, op.readers)[|LearnItems(b)|..];
    assert EvolveItems(b, op.admitted, op.approved, op.readers) == LearnItems(b) + rest;
    JudgedFits(op);
    if Proposed(b).Some? {
      var tail := if op.admitted && ApplyProposal(b.config, Proposed(b).value, op.readers).Candidate?
        then JudgedItems(op.approved) else [];
      FitsConcat(op, [Plain(ProposalEvent(Proposed(b).value))], tail);
      assert rest == [Plain(ProposalEvent(Proposed(b).value))] + tail;
    }
    FitsConcat(op, LearnItems(b), rest);
  }

  lemma JudgedFits(op: Op)
    requires op.Evolve?
    ensures Fits(op, JudgedItems(op.approved))
  {
  }

  lemma StepFits(b: Brain, pass: Pass, traceId: string)
    ensures Fits(Op.Step(pass), StepItems(b, pass, traceId))
  {
  }

  /** Each operation puts only its own kinds of event on the stream. */
  lemma EmittedFits(b: Brain, op: Op, show: Show)
    ensures Fits(op, Emitted(b, op, show))
  {
    match op {
      case Step(pass) => StepFits(b, pass, TraceId(b, pass.traceId, show));
      case Learn => LearnFits(b, op);
      case Evolve(_, _, _) => EvolveFits(b, op);
      case _ =>
    }
  }

  // ---------------------------------------------------------------- replay and gating

  /** Items that are neither decisions, executions nor configuration versions. */
  ghost predicate Quiet(items: Items) {
    forall i :: 0 <= i < |items| ==>
      !items[i].payload.DecisionEvent? && !items[i].payload.ExecutionEvent? && !items[i].payload.ConfigVersion?
  }

  lemma LatestSkips(front: History, h: History)
    requires h != [] && h[..|h| - 1] == front && !h[|h| - 1].payload.ConfigVersion?
    ensures LatestVersion(h) == LatestVersion(front)
  {
  }

  lemma {:induction false} VersionUnmoved(h: History, items: Items)
    requires forall i :: 0 <= i < |items| ==> !items[i].payload.ConfigVersion?
    ensures LatestVersion(Append(h, items)) == LatestVersion(h)
  {
    if items == [] {
      AppendNothing(h);
    } else {
      var n := |items| - 1;
      VersionUnmoved(h, items[..n]);
      AppendLast(h, items);
      LatestSkips(Append(h, items[..n]), Append(h, items));
    }
  }

  lemma PrefixKeepsReplayable(h: History, g: History)
    requires |h| <= |g| && g[..|h|] == h && AllReplayable(h)
    ensures forall i: nat :: i < |h| && g[i].payload.DecisionEvent? ==> Replayable(g, i)
  {
    forall i: nat | i < |h| && g[i].payload.DecisionEvent? ensures Replayable(g, i) {
      assert Replayable(h, i) && g[..i] == h[..i];
    }
  }

  lemma PrefixKeepsGated(h: History, g: History, accounts: map<nat, Account>, more: map<nat, Account>)
    requires |h| <= |g| && g[..|h|] == h && AllGated(h, accounts)
    requires forall i :: i in accounts && i < |h| ==> i in more && more[i] == accounts[i]
    ensures forall i: nat :: i < |h| && g[i].payload.ExecutionEvent? ==> Gated(g, i, more)
  {
    forall i: nat | i < |h| && g[i].payload.ExecutionEvent? ensures Gated(g, i, more) {
      assert Gated(h, i, accounts) && g[..i] == h[..i];
    }
  }

  lemma PrefixKeepsFacts(h: History, g: History, accounts: map<nat, Account>)
    requires |h| <= |g| && g[..|h|] == h
    requires AllReplayable(h) && AllGated(h, accounts)
    ensures forall i: nat :: i < |h| && g[i].payload.DecisionEvent? ==> Replayable(g, i)
    ensures forall i: nat :: i < |h| && g[i].payload.ExecutionEvent? ==> Gated(g, i, accounts)
  {
    PrefixKeepsReplayable(h, g);
    PrefixKeepsGated(h, g, accounts, accounts);
  }

  ghost predicate Sound(b: Brain) {
    && Numbered(b.history)
    && Announces(b.history, b.config)
    && AllReplayable(b.history)
    && AllGated(b.history, b.accounts)
  }

  lemma QuietKeepsSound(b: Brain, items: Items)
    requires Sound(b) && Quiet(items)
    ensures Sound(Emit(b, items))
  {
    VersionUnmoved(b.history, items);
    PrefixKeepsFacts(b.history, Append(b.history, items), b.accounts);
  }

  lemma PrefixAnnounces(h: History, items: Items, k: nat, c: CognitiveConfig)
    requires Announces(h, c) && PassShape(items) && k <= |items|
    ensures Announces(Append(h, items)[..|h| + k], c)
  {
    VersionUnmoved(h, items[..k]);
    assert Append(h, items)[..|h| + k] == Append(h, items[..k]);
  }

  lemma StepPrefix(b: Brain, pass: Pass, traceId: string, k: nat)
    requires Announces(b.history, b.config) && k <= 9
    ensures |StepItems(b, pass, traceId)| == 9
    ensures Announces(Append(b.history, StepItems(b, pass, traceId))[..|b.history| + k], b.config)
  {
    StepKinds(b, pass, traceId);
    PrefixAnnounces(b.history, StepItems(b, pass, traceId), k, b.config);
  }

  lemma StepDecision(b: Brain, pass: Pass, traceId: string)
    requires Announces(b.history, b.config)
    ensures var g := Append(b.history, StepItems(b, pass, traceId));
      g[|b.history| + 6].payload.DecisionEvent? && Replayable(g, |b.history| + 6)
  {
    StepPrefix(b, pass, traceId, 6);
    var items, n := StepItems(b, pass, traceId), |b.history|;
    var g := Append(b.history, items);
    assert g[n + 4].payload == items[4].payload && g[n + 6].payload == items[6].payload;
    ReplayableHere(g, n + 6, b.config, pass.features, Decide(pass.features, b.config));
  }

  lemma ReplayableHere(g: History, i: nat, c: CognitiveConfig, features: Features, verdict: Verdict)
    requires 2 <= i < |g| && Announces(g[..i], c) && g[i - 2].traceId == g[i].traceId
    requires g[i - 2].payload.FeaturesEvent? && g[i - 2].payload.features == features
    requires g[i].payload.DecisionEvent? && g[i].payload.verdict == verdict && g[i].payload.configVersion == c.version
    requires verdict == Decide(features, c)
    ensures Replayable(g, i)
  {
  }

  lemma StepExecution(b: Brain, pass: Pass, traceId: string)
    requires Announces(b.history, b.config)
    ensures var g := Append(b.history, StepItems(b, pass, traceId));
      g[|b.history| + 8].payload.ExecutionEvent?
      && Gated(g, |b.history| + 8, b.accounts[|b.history| + 8 := pass.account])
  {
    StepPrefix(b, pass, traceId, 8);
    var items, n := StepItems(b, pass, traceId), |b.history|;
    var g := Append(b.history, items);
    assert g[n + 6].payload == items[6].payload && g[n + 7].payload == items[7].payload &&
      g[n + 8].payload == items[8].payload;
    GatedHere(g, n + 8, b.config, pass, b.accounts[n + 8 := pass.account]);
  }

  /** Decision, gate and execution of one pass, one after the other. */
  lemma GatedHere(g: History, i: nat, c: CognitiveConfig, pass: Pass, accounts: map<nat, Account>)
    requires 2 <= i < |g| && Announces(g[..i], c) && i in accounts && accounts[i] == pass.account
    requires g[i - 2].traceId == g[i - 1].traceId == g[i].traceId
    requires g[i - 2].payload.DecisionEvent? && g[i - 1].payload.RiskGateEvent? && g[i].payload.ExecutionEvent?
    requires var verdict := Decide(pass.features, c); var gate := Gate(verdict, c, pass.account);
      && g[i - 2].payload.verdict == verdict && g[i - 1].payload.gate == gate
      && g[i].payload.execution == Execute(verdict, gate, pass.price, pass.account.equity)
      && g[i].payload.configVersion == c.version
    ensures Gated(g, i, accounts)
  {
    FilledIff(pass.features, c, pass.account, pass.price);
    var verdict := Decide(pass.features, c);
    FilledForRequest(verdict, Gate(verdict, c, pass.account), pass.price, pass.account.equity);
  }

  /** Where the decision and the execution stand among the items of a pass. */
  lemma StepKinds(b: Brain, pass: Pass, traceId: string)
    ensures PassShape(StepItems(b, pass, traceId))
  {
  }

  ghost predicate PassShape(items: Items) {
    forall j :: 0 <= j < |items| ==>
      !items[j].payload.ConfigVersion?
      && (items[j].payload.DecisionEvent? ==> j == 6) && (items[j].payload.ExecutionEvent? ==> j == 8)
  }

  lemma StepShape(h: History, items: Items, i: nat)
    requires PassShape(items) && i < |Append(h, items)|
    ensures var g := Append(h, items);
      && (i >= |h| && g[i].payload.DecisionEvent? ==> i == |h| + 6)
      && (i >= |h| && g[i].payload.ExecutionEvent? ==> i == |h| + 8)
  {
    if i >= |h| {
      assert Append(h, items)[i].payload == items[i - |h|].payload;
    }
  }

  lemma ReplayableAfter(h: History, items: Items)
    requires AllReplayable(h) && PassShape(items) && |items| == 9
    requires var g := Append(h, items); g[|h| + 6].payload.DecisionEvent? ==> Replayable(g, |h| + 6)
    ensures AllReplayable(Append(h, items))
  {
    var g := Append(h, items);
    PrefixKeepsReplayable(h, g);
    forall i: nat | i < |g| && g[i].payload.DecisionEvent? ensures Replayable(g, i) {
      StepShape(h, items, i);
    }
  }

  lemma GatedAfter(h: History, items: Items, accounts: map<nat, Account>, more: map<nat, Account>)
    requires AllGated(h, accounts) && PassShape(items) && |items| == 9
    requires forall i :: i in accounts && i < |h| ==> i in more && more[i] == accounts[i]
    requires var g := Append(h, items); g[|h| + 8].payload.ExecutionEvent? ==> Gated(g, |h| + 8, more)
    ensures AllGated(Append(h, items), more)
  {
    var g := Append(h, items);
    PrefixKeepsGated(h, g, accounts, more);
    forall i: nat | i < |g| && g[i].payload.ExecutionEvent? ensures Gated(g, i, more) {
      StepShape(h, items, i);
    }
  }

  lemma StepKeepsReplayable(b: Brain, pass: Pass, traceId: string)
    requires AllReplayable(b.history) && Announces(b.history, b.config)
    ensures AllReplayable(Append(b.history, StepItems(b, pass, traceId)))
  {
    StepKinds(b, pass, traceId);
    StepDecision(b, pass, traceId);
    ReplayableAfter(b.history, StepItems(b, pass, traceId));
  }

  lemma StepKeepsGated(b: Brain, pass: Pass, traceId: string)
    requires AllGated(b.history, b.accounts) && Announces(b.history, b.config)
    ensures AllGated(Append(b.history, StepItems(b, pass, traceId)), b.accounts[|b.history| + 8 := pass.account])
  {
    StepKinds(b, pass, traceId);
    StepExecution(b, pass, traceId);
    GatedAfter(b.history, StepItems(b, pass, traceId), b.accounts, b.accounts[|b.history| + 8 := pass.account]);
  }

  lemma StepKeepsSound(b: Brain, pass: Pass, traceId: string)
    requires Sound(b)
    ensures Sound(Emit(b, StepItems(b, pass, traceId)).(accounts := b.accounts[|b.history| + 8 := pass.account]))
  {
    StepKeepsReplayable(b, pass, traceId);
    StepKeepsGated(b, pass, traceId);
    StepAnnounces(b, pass, traceId);
  }

  lemma StepAnnounces(b: Brain, pass: Pass, traceId: string)
    requires Announces(b.history, b.config)
    ensures Announces(Append(b.history, StepItems(b, pass, traceId)), b.config)
  {
    StepPrefix(b, pass, traceId, 9);
    var g := Append(b.history, StepItems(b, pass, traceId));
    assert g[..|b.history| + 9] == g;
  }

  lemma MergeKeepsSound(b: Brain, candidate: CognitiveConfig, proposalId: Option<string>)
    requires Sound(b)
    ensures Sound(Emit(b, [VersionItem(candidate)]).(config := candidate, proposalId := proposalId))
  {
    var g := Append(b.history, [VersionItem(candidate)]);
    PrefixKeepsFacts(b.history, g, b.accounts);
  }

  lemma ApplyKeepsSound(b: Brain, op: Op, show: Show)
    requires Sound(b)
    ensures Sound(Apply(b, op, show))
  {
    if op.Step? {
      StepKeepsSound(b, op.pass, TraceId(b, op.pass.traceId, show));
    } else if op.Merge? {
      MergeKeepsSound(b, op.candidate, op.proposalId);
    } else {
      OthersKeepSound(b, op, show, Emitted(b, op, show));
    }
  }

  lemma OthersKeepSound(b: Brain, op: Op, show: Show, items: Items)
    requires Sound(b) && !op.Step? && !op.Merge? && items == Emitted(b, op, show)
    ensures Sound(Apply(b, op, show))
  {
    EmittedFits(b, op, show);
    FitsQuietly(op, items);
    QuietKeepsSound(b, items);
  }

  lemma FitsQuietly(op: Op, items: Items)
    requires Fits(op, items) && !op.Step? && !op.Merge?
    ensures Quiet(items)
  {
  }

  lemma StartIsSound(config: CognitiveConfig, cap: Option<nat>)
    ensures Sound(Start(config, cap))
  {
    var h := Start(config, cap).history;
    assert h[..0] == [] && |h| == 1 && h[0].payload == ConfigVersion(config.version, ToDict(config));
    assert Numbered(h);
    assert Announces(h, config);
    assert AllReplayable(h);
    assert AllGated(h, map[]);
  }

  lemma {:induction false} RunIsSound(config: CognitiveConfig, cap: Option<nat>, ops: seq<Op>, show: Show)
    ensures Sound(Run(Start(config, cap), ops, show))
  {
    if ops == [] {
      StartIsSound(config, cap);
    } else {
      RunIsSound(config, cap, ops[..|ops| - 1], show);
      ApplyKeepsSound(Run(Start(config, cap), ops[..|ops| - 1], show), ops[|ops| - 1], show);
    }
  }

  lemma {:induction false} ReadBack(h: History, c: CognitiveConfig, readers: Readers)
    requires Announces(h, c)
    ensures ConfigInForce(h, readers) == Some(c)
  {
    var n := |h| - 1;
    if h[n].payload.ConfigVersion? {
      DictRoundTrip(c, readers);
    } else {
      ReadBack(h[..n], c, readers);
    }
  }

  lemma SoundReplays(h: History, i: nat, readers: Readers)
    requires i < |h| && h[i].payload.DecisionEvent? && Replayable(h, i)
    ensures i >= 2 && h[i - 2].payload.FeaturesEvent? && h[i - 2].traceId == h[i].traceId
    ensures var read := ConfigInForce(h[..i], readers);
      read.Some? && h[i].payload.verdict == Decide(h[i - 2].payload.features, read.value)
      && h[i].payload.configVersion == read.value.version
  {
    var c :| Announces(h[..i], c)
         && h[i].payload.verdict == Decide(h[i - 2].payload.features, c)
         && h[i].payload.configVersion == c.version;
    ReadBack(h[..i], c, readers);
  }

  /** Every decision on the full history of any run is reproducible from the stream alone. */
  lemma EveryDecisionReplays(config: CognitiveConfig, cap: Option<nat>, ops: seq<Op>, show: Show, i: nat,
                             readers: Readers)
    requires var h := Run(Start(config, cap), ops, show).history; i < |h| && h[i].payload.DecisionEvent?
    ensures var h := Run(Start(config, cap), ops, show).history;
      && i >= 2 && h[i - 2].payload.FeaturesEvent? && h[i - 2].traceId == h[i].traceId
      && var read := ConfigInForce(h[..i], readers);
         read.Some? && h[i].payload.verdict == Decide(h[i - 2].payload.features, read.value)
         && h[i].payload.configVersion == read.value.version
  {
    RunIsSound(config, cap, ops, show);
    var h := Run(Start(config, cap), ops, show).history;
    assert Replayable(h, i);
    SoundReplays(h, i, readers);
  }

  /** No execution without a risk gate of the same trace right before it; a filled one was inside
      all three limits of the configuration then in force. */
  lemma EveryExecutionIsGated(config: CognitiveConfig, cap: Option<nat>, ops: seq<Op>, show: Show, i: nat)
    requires var h := Run(Start(config, cap), ops, show).history; i < |h| && h[i].payload.ExecutionEvent?
    ensures var b := Run(Start(config, cap), ops, show); Gated(b.history, i, b.accounts)
  {
    RunIsSound(config, cap, ops, show);
  }
}
