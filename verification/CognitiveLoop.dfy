/** CognitiveLoop as written: every operation mutates the stream and the trackers in place, and does
    exactly what the pure description of the brain says.  Also the health read-out. */
module CognitiveLoop {
  import opened Rounding
  import opened Json
  import opened Config
  import opened Trades
  import opened Decision
  import opened Learning
  import opened Evolution
  import opened EventStream
  import opened Brain
  import opened BrainProperties
  import opened Lineage
  import BrainRuns
  import Governance
  import Challenger
  import Monitor = Drift
  import Queue

  class Loop {
    const stream: EventStream<Payload>
    const importance: ImportanceTracker
    const scorecard: ProposalScorecard
    const governor: Governance.ProposalGovernor
    const queue: Queue.ProposalQueue
    const drift: Monitor.DriftMonitor
    var config: CognitiveConfig
    var proposalId: Option<string>
    ghost var accounts: map<nat, Account>

    ghost predicate Valid()
      reads this, stream, scorecard, governor, drift
    {
      stream.Valid() && scorecard.Valid() && governor.Valid() && drift.Valid()
    }

    ghost function View(): Brain
      reads this, stream, importance, scorecard
    {
      Brain(stream.history, stream.cap, config, proposalId, importance.acc, scorecard.stats, accounts)
    }

    constructor (config: CognitiveConfig, cap: Option<nat>)
      ensures Valid() && View() == Start(config, cap)
      ensures fresh(stream) && fresh(importance) && fresh(scorecard) && fresh(governor) && fresh(queue) && fresh(drift)
      ensures queue.entries == [] && drift.order == [TRADE_GRADE, REGRET, DIRECTION]
      ensures drift.series == map[TRADE_GRADE := [], REGRET := [], DIRECTION := []] && drift.specs == DRIFT_SPECS
    {
      this.stream := new EventStream<Payload>(cap);
      this.importance := new ImportanceTracker();
      this.scorecard := new ProposalScorecard();
      this.governor := new Governance.ProposalGovernor();
      this.queue := new Queue.ProposalQueue();
      var monitor := NewMonitor();
      this.drift := monitor;
      this.config, this.proposalId, this.accounts := config, None, map[];
      new;
      var e := stream.Emit("", ConfigVersion(config.version, ToDict(config)));
    }

    /** One emit, with the items put on the stream since the operation began. */
    method Put(traceId: string, payload: Payload, ghost h: History, ghost done: Items) returns (ghost more: Items)
      requires stream.Valid() && stream.history == Append(h, done)
      modifies stream
      ensures stream.Valid() && more == done + [Item(traceId, payload)] && stream.history == Append(h, more)
    {
      AppendTwice(h, done, [Item(traceId, payload)]);
      var e := stream.Emit(traceId, payload);
      more := done + [Item(traceId, payload)];
    }

    /** Perceive -> decide -> gate -> execute. */
    method Step(pass: Pass, show: nat -> string) returns (verdict: Verdict, gate: RiskGate, execution: Execution)
      requires Valid()
      modifies this`accounts, stream
      ensures Valid() && View() == Apply(old(View()), Op.Step(pass), show)
      ensures verdict == Decide(pass.features, config) && gate == Gate(verdict, config, pass.account)
      ensures execution == Execute(verdict, gate, pass.price, pass.account.equity)
      ensures FollowsScore(verdict, pass.features, config)
      ensures execution.status == Filled <==>
        !verdict.action.Hold? && WithinLimits(config, pass.account) && pass.price > 0.0
      ensures execution.status == Filled ==>
        execution.side == verdict.action && execution.price == pass.price &&
        OrderFits(execution, Weighed(pass.account.equity, pass.account.positionPct))
    {
      PassFits(pass, config);
      verdict, gate, execution := EmitStep(pass, show);
    }

    method EmitStep(pass: Pass, show: nat -> string) returns (verdict: Verdict, gate: RiskGate, execution: Execution)
      requires Valid()
      modifies this`accounts, stream
      ensures Valid() && View() == Apply(old(View()), Op.Step(pass), show)
      ensures verdict == Decide(pass.features, config) && gate == Gate(verdict, config, pass.account)
      ensures execution == Execute(verdict, gate, pass.price, pass.account.equity)
    {
      ghost var b := View();
      var traceId := if pass.traceId.Some? && pass.traceId.value != "" then pass.traceId.value
                     else "trace-" + show(|stream.events|);
      ghost var done := Perceive(pass.features, traceId);
      verdict, gate, execution, done := Act(pass, traceId, b.history, done);
      assert done == StepItems(b, pass, traceId);
      accounts := accounts[|b.history| + 8 := pass.account];
    }

    /** The four signals, the aggregated features and the reasoning note. */
    method Perceive(features: Features, traceId: string) returns (ghost done: Items)
      requires stream.Valid()
      modifies stream
      ensures stream.Valid() && stream.history == Append(old(stream.history), done)
      ensures done == [Item(traceId, AgentSignal(NewsAgent)), Item(traceId, AgentSignal(TechnicalAgent)),
                       Item(traceId, AgentSignal(MacroAgent)), Item(traceId, AgentSignal(RiskAgent)),
                       Item(traceId, FeaturesEvent(features)), Item(traceId, Reasoning)]
    {
      ghost var h := stream.history;
      AppendNothing(h);
      done := Put(traceId, AgentSignal(NewsAgent), h, []);
      done := Put(traceId, AgentSignal(TechnicalAgent), h, done);
      done := Put(traceId, AgentSignal(MacroAgent), h, done);
      done := Put(traceId, AgentSignal(RiskAgent), h, done);
      done := Put(traceId, FeaturesEvent(features), h, done);
      done := Put(traceId, Reasoning, h, done);
    }

    method Act(pass: Pass, traceId: string, ghost h: History, ghost before: Items)
      returns (verdict: Verdict, gate: RiskGate, execution: Execution, ghost done: Items)
      requires stream.Valid() && stream.history == Append(h, before)
      modifies stream
      ensures stream.Valid() && stream.history == Append(h, done)
      ensures verdict == Decide(pass.features, config) && gate == Gate(verdict, config, pass.account)
      ensures execution == Execute(verdict, gate, pass.price, pass.account.equity)
      ensures done == before + [Item(traceId, DecisionEvent(verdict, config.version, proposalId)),
                                Item(traceId, RiskGateEvent(gate)),
                                Item(traceId, ExecutionEvent(execution, config.version, proposalId))]
    {
      verdict := Decide(pass.features, config);
      done := Put(traceId, DecisionEvent(verdict, config.version, proposalId), h, before);
      gate := EvaluateRisk(verdict, config, pass.account);
      done := Put(traceId, RiskGateEvent(gate), h, done);
      execution := Execute(verdict, gate, pass.price, pass.account.equity);
      done := Put(traceId, ExecutionEvent(execution, config.version, proposalId), h, done);
    }

    /** `_decision_for`: walk the retained events backwards. */
    method FindDecision(traceId: string) returns (decision: Option<Payload>)
      ensures decision == DecisionFor(stream.events, traceId)
      ensures decision.Some? ==> decision.value.DecisionEvent?
    {
      var i := |stream.events|;
      assert stream.events[..i] == stream.events;
      while i > 0
        invariant 0 <= i <= |stream.events|
        invariant DecisionFor(stream.events, traceId) == DecisionFor(stream.events[..i], traceId)
      {
        i := i - 1;
        assert stream.events[..i + 1][..i] == stream.events[..i];
        if IsDecisionOf(stream.events[i], traceId) {
          return Some(stream.events[i].payload);
        }
      }
      decision := None;
    }

    /** Outcome -> attribution -> grade -> counterfactual; then the drift monitor sees the grade, the
        regret and whether the trade made money. */
    method CloseTrade(traceId: string, realizedPnl: real, close: Close, show: nat -> string)
      requires Valid()
      modifies stream, importance, drift
      ensures Valid() && View() == Apply(old(View()), Op.CloseTrade(traceId, realizedPnl), show)
      ensures ClosedWith(traceId, realizedPnl, old(stream.events), old(stream.history), stream.history)
      ensures drift.order == old(drift.order) && drift.specs == old(drift.specs)
      ensures drift.series == AfterClose(old(drift.series),
                                         ChosenAction(DecisionFor(old(stream.events), traceId), close), close)
      ensures SeesClose(drift.series, match DecisionFor(old(stream.events), traceId)
                                      case Some(DecisionEvent(verdict, _, _)) => verdict.action
                                      case _ => close.side, close)
    {
      var decision := RecordClose(traceId, realizedPnl, show);
      Watch(ChosenAction(decision, close), close);
    }

    method RecordClose(traceId: string, realizedPnl: real, show: nat -> string) returns (decision: Option<Payload>)
      requires Valid()
      modifies stream, importance
      ensures Valid() && View() == Apply(old(View()), Op.CloseTrade(traceId, realizedPnl), show)
      ensures decision == DecisionFor(old(stream.events), traceId)
      ensures ClosedWith(traceId, realizedPnl, old(stream.events), old(stream.history), stream.history)
    {
      CloseFits(View(), traceId, realizedPnl);
      decision := EmitClose(traceId, realizedPnl, show);
    }

    /** The four events, and the tracker. */
    method EmitClose(traceId: string, realizedPnl: real, show: nat -> string) returns (decision: Option<Payload>)
      requires Valid()
      modifies stream, importance
      ensures Valid() && View() == Apply(old(View()), Op.CloseTrade(traceId, realizedPnl), show)
      ensures decision == DecisionFor(old(stream.events), traceId)
    {
      ghost var b := View();
      ghost var h := stream.history;
      AppendNothing(h);
      decision := FindDecision(traceId);
      var attribution := Attribute(BreakdownOf(decision), realizedPnl);
      ghost var done := Settle(traceId, realizedPnl, decision, attribution, h);
      importance.Update(attribution, Sign(realizedPnl));
      done := GradeTrade(traceId, h, done);
      assert done == CloseItems(b, traceId, realizedPnl);
    }

    method Watch(chosen: Action, close: Close)
      requires drift.Valid()
      modifies drift`series
      ensures drift.Valid() && drift.series == AfterClose(old(drift.series), chosen, close)
      ensures SeesClose(drift.series, chosen, close)
    {
      CloseIsSeen(drift.series, chosen, close);
      drift.Observe(TRADE_GRADE, close.overallScore);
      drift.Observe(REGRET, Monitor.Regret(chosen, close.pnlPct, close.side));
      drift.Observe(DIRECTION, if close.pnlPct > 0.0 then 1.0 else 0.0);
    }

    method Settle(traceId: string, realizedPnl: real, decision: Option<Payload>, attribution: Attribution,
                  ghost h: History)
      returns (ghost done: Items)
      requires stream.Valid() && stream.history == h && (decision.Some? ==> decision.value.DecisionEvent?)
      modifies stream
      ensures stream.Valid() && stream.history == Append(h, done)
      ensures done == [Item(traceId, TradeOutcome(Round(realizedPnl, GRID6),
                              if decision.Some? then decision.value.configVersion else config.version,
                              if decision.Some? then decision.value.proposalId else None)),
                       Item(traceId, AttributionEvent(attribution))]
    {
      AppendNothing(h);
      done := Put(traceId, TradeOutcome(Round(realizedPnl, GRID6),
                                        if decision.Some? then decision.value.configVersion else config.version,
                                        if decision.Some? then decision.value.proposalId else None), h, []);
      done := Put(traceId, AttributionEvent(attribution), h, done);
    }

    method GradeTrade(traceId: string, ghost h: History, ghost before: Items) returns (ghost done: Items)
      requires stream.Valid() && stream.history == Append(h, before)
      modifies stream
      ensures stream.Valid() && stream.history == Append(h, done)
      ensures done == before + [Item(traceId, Grade(TradeGrade)), Item(traceId, Counterfactual)]
    {
      done := Put(traceId, Grade(TradeGrade), h, before);
      done := Put(traceId, Counterfactual, h, done);
    }

    /** One event per alert of the monitor. */
    method DetectDrift(show: nat -> string) returns (alerts: seq<Monitor.Alert>)
      requires Valid()
      modifies stream
      ensures alerts == Monitor.AlertsOf(drift.order, drift.series, drift.specs)
      ensures Valid() && View() == Apply(old(View()), Op.DetectDrift(|alerts|), show)
    {
      ghost var h := stream.history;
      ghost var done: Items := [];
      AppendNothing(h);
      alerts := drift.Assess();
      for i := 0 to |alerts|
        invariant stream.Valid() && stream.history == Append(h, done) && done == Repeat(Drift, i)
      {
        done := Put("", Drift, h, done);
      }
    }

    /** Observations and rolling grades; changes nothing but the stream. */
    method EmitLearning(ghost h: History) returns (observations: seq<Observation>, ghost done: Items)
      requires Valid() && stream.history == h
      modifies stream
      ensures Valid() && observations == Observe(importance.acc)
      ensures done == LearnItems(old(View())) && stream.history == Append(h, done)
    {
      ghost var b := View();
      AppendNothing(h);
      observations := CollectObservations(importance.acc);
      done := [];
      for i := 0 to |observations|
        invariant stream.Valid() && stream.history == Append(h, done) && done == ObservationItems(observations[..i])
      {
        done := Put("", ObservationEvent(observations[i]), h, done);
        assert done == ObservationItems(observations[..i + 1]);
      }
      assert observations[..|observations|] == observations;
      for i := 0 to 3
        invariant stream.Valid() && stream.history == Append(h, done)
        invariant done == ObservationItems(observations) + Repeat(Grade(AgentGrade), i)
      {
        done := Put("", Grade(AgentGrade), h, done);
      }
      assert Repeat(Grade(AgentGrade), 3) == AGENT_GRADES;
    }

    method Learn(show: nat -> string)
      requires Valid()
      modifies stream
      ensures Valid() && View() == Apply(old(View()), Op.Learn, show)
    {
      var observations, done := EmitLearning(stream.history);
    }

    /** Backtest, challenge and - if approved - a PR request; the scorecard and the governor learn the
        outcome. */
    method Judge(p: Proposal, approved: bool, ghost h: History, ghost before: Items) returns (ghost done: Items)
      requires Valid() && stream.history == Append(h, before)
      modifies stream, scorecard, governor
      ensures Valid() && done == before + JudgedItems(approved) && stream.history == Append(h, done)
      ensures scorecard.stats == Recorded(old(scorecard.stats), p.ptype, approved)
      ensures governor.Seen() == Governance.AfterOutcome(old(governor.Seen()), governor.cooldown, p.target, approved)
    {
      done := EmitJudgement(approved, h, before);
      scorecard.Record(p.ptype, approved);
      governor.RecordOutcome(p.target, approved);
    }

    /** The events of the judgement; the records in between emit nothing. */
    method EmitJudgement(approved: bool, ghost h: History, ghost before: Items) returns (ghost done: Items)
      requires stream.Valid() && stream.history == Append(h, before)
      modifies stream
      ensures stream.Valid() && done == before + JudgedItems(approved) && stream.history == Append(h, done)
    {
      done := Put("", BacktestResult, h, before);
      done := Put("", ChallengerVerdict(approved), h, done);
      done := Put("", Grade(ProposalGrade), h, done);
      if approved {
        done := Put("", PrRequest, h, done);
      }
      assert done == before + JudgedItems(approved);
    }

    /** Propose -> govern -> apply -> backtest -> challenge; the configuration itself is not touched.
        `text` is the decimal text of a number. */
    method Evolve(trial: Challenger.Trial, readers: Readers, text: real -> string, show: nat -> string)
      returns (admitted: bool, approved: bool, candidate: Option<CognitiveConfig>)
      requires Valid()
      modifies stream, scorecard, governor, queue
      ensures Valid() && View() == Apply(old(View()), Op.Evolve(admitted, approved, readers), show)
      ensures config == old(config) && proposalId == old(proposalId)
      ensures var proposal := Proposed(old(View()));
        if proposal == None then
          !admitted && !approved && candidate == None && governor.Seen() == old(governor.Seen()) &&
            queue.entries == old(queue.entries)
        else
          var p, applied := proposal.value, ApplyProposal(config, proposal.value, readers);
          && admitted == Admits(governor, old(governor.Seen()), p)
          && approved == (admitted && Passes(trial, config, applied, old(importance.acc), p))
          && governor.Seen() == Governed(governor, old(governor.Seen()), p, applied, approved)
          && candidate == Built(admitted, applied)
          && queue.entries == Filed(old(queue.entries), ProposalId(p, text), admitted, approved)
    {
      ghost var b := View();
      admitted, approved, candidate := false, false, None;
      var observations, learned := EmitLearning(b.history);
      var proposal := Propose(observations, config, SuccessRate(scorecard.stats, WeightChange));
      assert proposal == Proposed(b);
      if proposal == None {
        UnproposedCycle(b, admitted, approved, readers, show, View());
        return;
      }
      ghost var applied := ApplyProposal(config, proposal.value, readers);
      ProposedNeverRaises(observations, config, SuccessRate(scorecard.stats, WeightChange), readers);
      ghost var done;
      admitted, approved, candidate, done := Pursue(proposal.value, trial, readers, text, applied, b.history, learned);
      ProposedCycle(b, proposal.value, admitted, approved, readers, show, View());
    }

    /** What becomes of a generated proposal; `applied` names what applying it gives. */
    method Pursue(p: Proposal, trial: Challenger.Trial, readers: Readers, text: real -> string,
                  ghost applied: Applied, ghost h: History, ghost learned: Items)
      returns (admitted: bool, approved: bool, candidate: Option<CognitiveConfig>, ghost done: Items)
      requires Valid() && stream.history == Append(h, learned) && Challenger.Numeric(p)
      requires applied == ApplyProposal(config, p, readers) && !applied.Raises?
      modifies stream, scorecard, governor, queue
      ensures Valid() && stream.history == Append(h, done)
      ensures done == learned + ([Plain(ProposalEvent(p))] + Judged(admitted, applied, approved))
      ensures scorecard.stats == Scored(old(scorecard.stats), admitted, applied, p, approved)
      ensures candidate == Built(admitted, applied)
      ensures admitted == Admits(governor, old(governor.Seen()), p)
      ensures approved == (admitted && Passes(trial, config, applied, importance.acc, p))
      ensures governor.Seen() == Governed(governor, old(governor.Seen()), p, applied, approved)
      ensures queue.entries == Filed(old(queue.entries), ProposalId(p, text), admitted, approved)
    {
      done := Put("", ProposalEvent(p), h, learned);
      admitted := Ask(p);
      queue.Add(ProposalId(p, text), if admitted then Queue.Backtesting else Queue.Blocked);
      approved, candidate, done := FollowUp(admitted, p, trial, readers, applied, h, done);
      if admitted {
        var found := queue.SetStatus(ProposalId(p, text), if approved then Queue.Approved else Queue.Rejected);
      }
      Regroup(learned, [Plain(ProposalEvent(p))], Judged(admitted, applied, approved));
    }

    method FollowUp(admitted: bool, p: Proposal, trial: Challenger.Trial, readers: Readers,
                    ghost applied: Applied, ghost h: History, ghost before: Items)
      returns (approved: bool, candidate: Option<CognitiveConfig>, ghost done: Items)
      requires Valid() && stream.history == Append(h, before) && Challenger.Numeric(p)
      requires applied == ApplyProposal(config, p, readers) && !applied.Raises?
      modifies stream, scorecard, governor
      ensures Valid() && stream.history == Append(h, done)
      ensures done == before + Judged(admitted, applied, approved)
      ensures scorecard.stats == Scored(old(scorecard.stats), admitted, applied, p, approved)
      ensures candidate == Built(admitted, applied)
      ensures approved == (admitted && Passes(trial, config, applied, importance.acc, p))
      ensures governor.Seen() == Followed(governor, old(governor.Seen()), admitted, p, applied, approved)
    {
      approved, candidate, done := false, None, before;
      if admitted {
        approved, candidate, done := Try(p, trial, readers, applied, h, done);
      }
    }

    /** One cycle of the governor. */
    method Ask(p: Proposal) returns (admitted: bool)
      requires governor.Valid()
      modifies governor
      ensures governor.Valid() && admitted == Admits(governor, old(governor.Seen()), p)
      ensures governor.Seen() == Governance.AfterAdmit(old(governor.Seen()), governor.quota, governor.window,
                                                       AsCandidate(p))
    {
      var ruling := governor.Admit(AsCandidate(p));
      admitted := ruling.Admitted?;
    }

    /** The backtests, the walk-forward and the verdict. */
    method Hear(p: Proposal, trial: Challenger.Trial, candidate: CognitiveConfig) returns (approved: bool)
      requires Challenger.Numeric(p)
      ensures approved == Passes(trial, config, Candidate(candidate), importance.acc, p)
    {
      var review := Challenger.Try(trial, config, candidate, importance.acc, p);
      approved := review.approved;
    }

    /** An admitted proposal: tried and judged when its candidate is a safe configuration, else
        rejected at once. */
    method Try(p: Proposal, trial: Challenger.Trial, readers: Readers, ghost applied: Applied, ghost h: History,
               ghost before: Items)
      returns (approved: bool, candidate: Option<CognitiveConfig>, ghost done: Items)
      requires Valid() && stream.history == Append(h, before) && Challenger.Numeric(p)
      requires applied == ApplyProposal(config, p, readers) && !applied.Raises?
      modifies stream, scorecard, governor
      ensures Valid() && stream.history == Append(h, done)
      ensures done == before + Judged(true, applied, approved)
      ensures scorecard.stats == Scored(old(scorecard.stats), true, applied, p, approved)
      ensures candidate == Built(true, applied)
      ensures approved == Passes(trial, config, applied, importance.acc, p)
      ensures governor.Seen() ==
        Governance.AfterOutcome(old(governor.Seen()), governor.cooldown, p.target, applied.Candidate? && approved)
    {
      approved, candidate, done := false, None, before;
      var edited := ApplyProposal(config, p, readers);
      if edited.Candidate? {
        candidate := Some(edited.config);
        approved := Hear(p, trial, edited.config);
        done := Judge(p, approved, h, done);
      } else {
        governor.RecordOutcome(p.target, false);
      }
    }

    /** A reviewed PR landing: the only thing that changes `config`. */
    method Merge(candidate: CognitiveConfig, landed: Option<string>, show: nat -> string)
      requires Valid()
      modifies this`config, this`proposalId, stream, queue
      ensures Valid() && View() == Apply(old(View()), Op.Merge(candidate, landed), show)
      ensures queue.entries ==
        if landed.Some? then Queue.Updated(old(queue.entries), landed.value, Queue.Merged) else old(queue.entries)
    {
      config, proposalId := candidate, landed;
      if landed.Some? {
        var found := queue.SetStatus(landed.value, Queue.Merged);
      }
      var e := stream.Emit("", ConfigVersion(config.version, ToDict(config)));
    }

    /** What `assess_health` reports, from the retained events alone. */
    method AssessHealth() returns (health: Health)
      requires Valid()
      ensures health == HealthOf(stream.events, |stream.history|)
    {
      var lastSeq := if stream.events == [] then -1 else stream.events[|stream.events| - 1].seqNo;
      var lastDecision := FindLastDecision();
      var counts := CountAll();
      var agents := WatchAgents();
      health := Health(stream.emitted, stream.dropped, lastSeq, lastDecision, counts, agents);
    }

    /** Events and latest number of each expected agent. */
    method WatchAgents() returns (agents: map<Source, Activity>)
      ensures agents == map s | s in ALL_SOURCES :: ActivityOf(stream.events, s)
    {
      agents := map[];
      var sources := ALL_SOURCES;
      for k := 0 to |sources|
        invariant agents == map s | s in sources[..k] :: ActivityOf(stream.events, s)
      {
        var activity := WatchAgent(sources[k]);
        agents := agents[sources[k] := activity];
        assert sources[..k + 1] == sources[..k] + [sources[k]];
      }
      assert sources[..|sources|] == sources;
    }

    method WatchAgent(source: Source) returns (activity: Activity)
      ensures activity == ActivityOf(stream.events, source)
    {
      activity := Activity(0, -1);
      for i := 0 to |stream.events|
        invariant activity == ActivityOf(stream.events[..i], source)
      {
        assert stream.events[..i + 1][..i] == stream.events[..i];
        if IsFrom(stream.events[i].payload, source) {
          activity := Activity(activity.events + 1, stream.events[i].seqNo);
        }
      }
      assert stream.events[..|stream.events|] == stream.events;
    }

    method CountAll() returns (counts: map<Tag, nat>)
      ensures counts == map t | t in ALL_TAGS :: Count(stream.events, t)
    {
      counts := map[];
      var tags := ALL_TAGS;
      for k := 0 to |tags|
        invariant counts == map t | t in tags[..k] :: Count(stream.events, t)
      {
        var n := CountRetained(tags[k]);
        counts := counts[tags[k] := n];
        assert tags[..k + 1] == tags[..k] + [tags[k]];
      }
      assert tags[..|tags|] == tags;
    }

    method CountRetained(tag: Tag) returns (n: nat)
      ensures n == Count(stream.events, tag)
    {
      n := 0;
      for i := 0 to |stream.events|
        invariant n == Count(stream.events[..i], tag)
      {
        assert stream.events[..i + 1][..i] == stream.events[..i];
        if Matches(stream.events[i].payload, tag) {
          n := n + 1;
        }
      }
      assert stream.events[..|stream.events|] == stream.events;
    }

    /** From the newest event backwards. */
    method FindLastDecision() returns (action: Option<Action>)
      ensures action == LastDecision(stream.events)
      ensures match action
              case None => forall j :: 0 <= j < |stream.events| ==> !stream.events[j].payload.DecisionEvent?
              case Some(a) => exists k: nat :: LastDecisionAt(stream.events, k)
                                && stream.events[k].payload.verdict.action == a
    {
      var i := |stream.events|;
      assert stream.events[..i] == stream.events;
      while i > 0 && !stream.events[i - 1].payload.DecisionEvent?
        invariant 0 <= i <= |stream.events| && LastDecision(stream.events[..i]) == LastDecision(stream.events)
        invariant forall j :: i <= j < |stream.events| ==> !stream.events[j].payload.DecisionEvent?
      {
        assert stream.events[..i][..i - 1] == stream.events[..i - 1];
        i := i - 1;
      }
      assert i > 0 ==> LastDecisionAt(stream.events, i - 1);
      action := if i == 0 then None else Some(stream.events[i - 1].payload.verdict.action);
    }
  }

  /** The outcome and the attribution now on the stream are those of a trade that made this money,
      by the newest decision of the trace that was left. */
  ghost predicate ClosedWith(traceId: string, pnl: real, events: History, before: History, after: History) {
    && |after| == |before| + 4
    && after[|before|].payload.TradeOutcome? && after[|before| + 1].payload.AttributionEvent?
    && SettlesAt(pnl, after[|before|].payload, after[|before| + 1].payload.attribution,
                 match DecisionFor(events, traceId)
                 case Some(DecisionEvent(verdict, _, _)) => verdict.breakdown
                 case _ => PerSignal(0.0, 0.0, 0.0))
  }

  lemma CloseFits(b: Brain, traceId: string, pnl: real)
    ensures ClosedWith(traceId, pnl, Retained(b.history, b.cap), b.history,
                       Append(b.history, CloseItems(b, traceId, pnl)))
  {
    var items := CloseItems(b, traceId, pnl);
    var breakdown := BreakdownOf(DecisionFor(Retained(b.history, b.cap), traceId));
    AttributionSettles(breakdown, pnl, items[0].payload);
    OutcomeAndAttribution(b.history, items);
  }

  lemma OutcomeAndAttribution(h: History, items: Items)
    requires |items| == 4
    ensures var g := Append(h, items);
      |g| == |h| + 4 && g[|h|].payload == items[0].payload && g[|h| + 1].payload == items[1].payload
  {
  }

  lemma PassFits(pass: Pass, config: CognitiveConfig)
    ensures var verdict := Decide(pass.features, config);
      var execution := Execute(verdict, Gate(verdict, config, pass.account), pass.price, pass.account.equity);
      && FollowsScore(verdict, pass.features, config)
      && (execution.status == Filled <==>
            !verdict.action.Hold? && WithinLimits(config, pass.account) && pass.price > 0.0)
      && execution.side == verdict.action && execution.price == pass.price
      && (execution.status == Filled ==>
            OrderFits(execution, Weighed(pass.account.equity, pass.account.positionPct)))
  {
    var verdict := Decide(pass.features, config);
    DecisionFollowsScore(pass.features, config);
    FilledIff(pass.features, config, pass.account, pass.price);
    FilledForRequest(verdict, Gate(verdict, config, pass.account), pass.price, pass.account.equity);
  }

  lemma UnproposedCycle(b: Brain, admitted: bool, approved: bool, readers: Readers, show: nat -> string, after: Brain)
    requires Proposed(b) == None && after == Emit(b, LearnItems(b))
    ensures after == Apply(b, Op.Evolve(admitted, approved, readers), show)
  {
    assert EvolveItems(b, admitted, approved, readers) == LearnItems(b);
  }

  lemma ProposedCycle(b: Brain, p: Proposal, admitted: bool, approved: bool, readers: Readers, show: nat -> string,
                      after: Brain)
    requires Proposed(b) == Some(p)
    requires var applied := ApplyProposal(b.config, p, readers);
      after == Emit(b, LearnItems(b) + ([Plain(ProposalEvent(p))] + Judged(admitted, applied, approved)))
               .(stats := Scored(b.stats, admitted, applied, p, approved))
    ensures after == Apply(b, Op.Evolve(admitted, approved, readers), show)
  {
    assert EvolveItems(b, admitted, approved, readers)
        == LearnItems(b) + ([Plain(ProposalEvent(p))] +
          Judged(admitted, ApplyProposal(b.config, p, readers), approved));
  }

  lemma Regroup(a: Items, b: Items, c: Items)
    ensures a + b + c == a + (b + c)
  {
  }

  /** What the backtests and the challenger make of an applied proposal. */
  ghost predicate Passes(trial: Challenger.Trial, config: CognitiveConfig, applied: Applied, tracker: PerSignal<Acc>,
                         p: Proposal)
    requires Challenger.Numeric(p)
  {
    applied.Candidate? && Challenger.Approves(trial, config, applied.config, tracker, p)
  }

  /** `P-{target}-{new_value}` */
  function ProposalId(p: Proposal, text: real -> string): string
    requires Challenger.Numeric(p)
  {
    "P-" + p.target + "-" + text(p.newValue.x)
  }

  /** The queue after one cycle of a proposal. */
  function Filed(entries: seq<Queue.Entry>, id: string, admitted: bool, approved: bool): seq<Queue.Entry> {
    if admitted then
      Queue.Updated(entries + [Queue.Entry(id, Queue.Backtesting)], id, if approved then Queue.Approved
        else Queue.Rejected)
    else entries + [Queue.Entry(id, Queue.Blocked)]
  }

  /** What the operator sees of a cycle. */
  function Outcome(admitted: bool, approved: bool): Queue.ProposalStatus {
    if !admitted then Queue.Blocked else if approved then Queue.Approved else Queue.Rejected
  }

  /** A proposal that is new to the queue ends up there with its outcome, and nothing else moves. */
  lemma FiledShows(entries: seq<Queue.Entry>, id: string, admitted: bool, approved: bool)
    requires !Queue.Holds(entries, id)
    ensures Filed(entries, id, admitted, approved) == entries + [Queue.Entry(id, Outcome(admitted, approved))]
  {
    Queue.UpdateBefore(entries, Queue.Entry(id, Queue.Backtesting), id, Outcome(true, approved));
  }

  // ---------------------------------------------------------------- what the drift monitor is told

  const TRADE_GRADE := "trade_grade_score"
  const REGRET := "decision_regret_pct"
  const DIRECTION := "direction_correct"

  const DRIFT_SPECS: map<string, Monitor.Spec> :=
    map[TRADE_GRADE := Monitor.Spec(true, 8.0), REGRET := Monitor.Spec(false, 0.5),
        DIRECTION := Monitor.Spec(true, 0.15)]

  /** The three metrics, without samples. */
  method NewMonitor() returns (monitor: Monitor.DriftMonitor)
    ensures fresh(monitor) && monitor.Valid() && monitor.order == [TRADE_GRADE, REGRET, DIRECTION]
    ensures monitor.series == map[TRADE_GRADE := [], REGRET := [], DIRECTION := []] && monitor.specs == DRIFT_SPECS
  {
    monitor := new Monitor.DriftMonitor();
    monitor.Register(TRADE_GRADE, Monitor.Spec(true, 8.0));
    monitor.Register(REGRET, Monitor.Spec(false, 0.5));
    monitor.Register(DIRECTION, Monitor.Spec(true, 0.15));
  }

  /** A closed trade besides its PnL: the return in percent, the side, and the overall grade. */
  datatype Close = Close(pnlPct: real, side: Action, overallScore: real)

  /** `decision_payload.get("action") or side` */
  function ChosenAction(decision: Option<Payload>, close: Close): Action {
    if decision.Some? && decision.value.DecisionEvent? then decision.value.verdict.action else close.side
  }

  function AfterClose(series: map<string, seq<real>>, chosen: Action, close: Close): map<string, seq<real>> {
    Monitor.Observed(
      Monitor.Observed(Monitor.Observed(series, TRADE_GRADE, close.overallScore),
                       REGRET, Monitor.Regret(chosen, close.pnlPct, close.side)),
      DIRECTION, if close.pnlPct > 0.0 then 1.0 else 0.0)
  }

  function Newest(samples: seq<real>): Option<real> {
    if samples == [] then None else Some(samples[|samples| - 1])
  }

  /** The newest samples of the three metrics are the grade of this trade, its regret and whether it
      made money. */
  ghost predicate SeesClose(series: map<string, seq<real>>, chosen: Action, close: Close) {
    TRADE_GRADE in series && REGRET in series && DIRECTION in series ==>
      && Newest(series[TRADE_GRADE]) == Some(close.overallScore)
      && Newest(series[REGRET]) == Some(Monitor.Regret(chosen, close.pnlPct, close.side))
      && Newest(series[DIRECTION]) == Some(if close.pnlPct > 0.0 then 1.0 else 0.0)
  }

  lemma CloseIsSeen(series: map<string, seq<real>>, chosen: Action, close: Close)
    ensures SeesClose(AfterClose(series, chosen, close), chosen, close)
  {
    assert |TRADE_GRADE| == 17 && |REGRET| == 19 && |DIRECTION| == 17 && TRADE_GRADE[0] == 't' && DIRECTION[0] == 'd';
    SampleIsNewest(series, TRADE_GRADE, close.overallScore);
    var graded := Monitor.Observed(series, TRADE_GRADE, close.overallScore);
    var regret := Monitor.Regret(chosen, close.pnlPct, close.side);
    SampleIsNewest(graded, REGRET, regret);
    SampleIsNewest(Monitor.Observed(graded, REGRET, regret), DIRECTION, if close.pnlPct > 0.0 then 1.0 else 0.0);
  }

  lemma SampleIsNewest(series: map<string, seq<real>>, metric: string, x: real)
    ensures var after := Monitor.Observed(series, metric, x);
      && after.Keys == series.Keys
      && (metric in after ==> Newest(after[metric]) == Some(x))
      && forall m :: m in after && m != metric ==> after[m] == series[m]
  {
  }

  /** A generated proposal is admitted exactly when no rejection benches its target, its change was not
      admitted within the window, and the window is not full. */
  lemma CycleAdmitsIff(g: Governance.ProposalGovernor, p: Proposal)
    requires g.Valid()
    ensures var now, window := g.cycle + 1, if g.window < 1 then 1 else g.window;
      Admits(g, g.Seen(), p) <==>
        && !Governance.OnTheBench(g.rejections, p.target, g.cooldown, now)
        && (forall k :: k in Governance.Inside(g.log, window, now) ==>
              !Governance.SameChange(Governance.Candidate(p.target, p.newValue), g.log[k].key))
        && |Governance.Inside(g.log, window, now)| < g.quota
  {
    Governance.AdmittedIff(g, AsCandidate(p));
  }

  /** A proposal that was admitted and not approved benches its target. */
  lemma RejectedIsBenched(g: Governance.ProposalGovernor, l: Governance.Ledger, p: Proposal, applied: Applied,
                          approved: bool)
    requires Admits(g, l, p) && (!approved || !applied.Candidate?)
    ensures var after := Governed(g, l, p, applied, approved);
      && after.cycle == l.cycle + 1 && Governance.Rejection(p.target, l.cycle + 1) in after.rejections
      && p.target in after.cooldowns && after.cooldowns[p.target] == l.cycle + 1 + g.cooldown
  {
  }

  function AsCandidate(p: Proposal): Governance.Candidate {
    Governance.Candidate(p.target, p.newValue)
  }

  ghost predicate Admits(g: Governance.ProposalGovernor, l: Governance.Ledger, p: Proposal) {
    Governance.Ruled(l, g.quota, g.window, AsCandidate(p)).Admitted?
  }

  /** One cycle spent on a proposal; an admitted one that is not approved benches its target. */
  ghost function Governed(g: Governance.ProposalGovernor, l: Governance.Ledger, p: Proposal, applied: Applied,
                          approved: bool): Governance.Ledger {
    Followed(g, Governance.AfterAdmit(l, g.quota, g.window, AsCandidate(p)), Admits(g, l, p), p, applied, approved)
  }

  ghost function Followed(g: Governance.ProposalGovernor, l: Governance.Ledger, admitted: bool, p: Proposal,
                          applied: Applied, approved: bool)
    : Governance.Ledger
  {
    if admitted then Governance.AfterOutcome(l, g.cooldown, p.target, applied.Candidate? && approved) else l
  }

  function Judged(admitted: bool, applied: Applied, approved: bool): Items {
    if admitted && applied.Candidate? then JudgedItems(approved) else []
  }

  function Scored(stats: map<ProposalType, TypeStat>, admitted: bool, applied: Applied, p: Proposal,
                  approved: bool): map<ProposalType, TypeStat> {
    if admitted && applied.Candidate? then Recorded(stats, p.ptype, approved) else stats
  }

  function Built(admitted: bool, applied: Applied): Option<CognitiveConfig> {
    if admitted && applied.Candidate? then Some(applied.config) else None
  }

  const ALL_TAGS: seq<Tag> :=
    [Generated, Backtested, Approved, Rejected, PrRequests, Versions, Outcomes, TradeGrades, Decisions, Executions,
     Observations]

  datatype Health = Health(emitted: nat, dropped: int, lastSeq: int, lastDecision: Option<Action>, counts: map<Tag,
                           nat>,
                           agents: map<Source, Activity>)

  function HealthOf(events: History, emitted: nat): Health {
    Health(emitted, emitted - |events|, LastSeq(events), LastDecision(events), map t | t in ALL_TAGS ::
      Count(events, t),
           map s | s in ALL_SOURCES :: ActivityOf(events, s))
  }

  /** The agents expected to emit, by the `source` of their events. */
  datatype Source = Specialist(agent: Agent) | ReasoningAgent | ProposalAgent

  const ALL_SOURCES: seq<Source> :=
    [Specialist(NewsAgent), Specialist(TechnicalAgent), Specialist(MacroAgent), Specialist(RiskAgent), ReasoningAgent,
     ProposalAgent]

  predicate IsFrom(p: Payload, source: Source) {
    match source
    case Specialist(agent) => p == AgentSignal(agent)
    case ReasoningAgent => p.Reasoning?
    case ProposalAgent => p.ProposalEvent?
  }

  /** "healthy" with at least one event, else "idle". */
  datatype Activity = Activity(events: nat, lastSeq: int)

  function ActivityOf(events: History, source: Source): Activity {
    if events == [] then Activity(0, -1)
    else
      var before, last := ActivityOf(events[..|events| - 1], source), events[|events| - 1];
      if IsFrom(last.payload, source) then Activity(before.events + 1, last.seqNo) else before
  }

  function LastSeq(events: History): int {
    if events == [] then -1 else events[|events| - 1].seqNo
  }

  ghost predicate LastDecisionAt(events: History, k: nat) {
    && k < |events| && events[k].payload.DecisionEvent?
    && forall j :: k < j < |events| ==> !events[j].payload.DecisionEvent?
  }

  /** The action of the newest retained decision. */
  function LastDecision(events: History): Option<Action> {
    if events == [] then None
    else if events[|events| - 1].payload.DecisionEvent? then Some(events[|events| - 1].payload.verdict.action)
    else LastDecision(events[..|events| - 1])
  }

  lemma AllTagsCounted(events: History, emitted: nat)
    ensures var counts := HealthOf(events, emitted).counts;
      forall t: Tag :: t in counts && counts[t] == Count(events, t)
  {
    var counts := HealthOf(events, emitted).counts;
    forall t: Tag
      ensures t in counts && counts[t] == Count(events, t)
    {
      var k := match t
               case Generated => 0 case Backtested => 1 case Approved => 2 case Rejected => 3 case PrRequests => 4
               case Versions => 5 case Outcomes => 6 case TradeGrades => 7 case Decisions => 8 case Executions => 9
               case Observations => 10;
      assert ALL_TAGS[k] == t;
      CountsReported(events, emitted, k);
    }
  }

  /** k is the largest of the positions. */
  ghost predicate Last(at: set<nat>, k: nat) {
    k in at && forall j :: j in at ==> j <= k
  }

  ghost predicate ActivityFits(events: History, activity: Activity, at: set<nat>) {
    && activity.events == |at|
    && if at == {} then activity.lastSeq == -1
       else exists k: nat :: Last(at, k) && k < |events| && activity.lastSeq == events[k].seqNo
  }

  lemma {:induction false} ActivityIs(events: History, source: Source, at: set<nat>)
    requires forall k: nat :: k in at <==> k < |events| && IsFrom(events[k].payload, source)
    ensures ActivityFits(events, ActivityOf(events, source), at)
  {
    if events == [] {
      assert at == {};
    } else {
      var n := |events| - 1;
      ActivityIs(events[..n], source, at - {n});
      OneMoreEvent(events, ActivityOf(events[..n], source), at);
    }
  }

  lemma OneMoreEvent(events: History, before: Activity, at: set<nat>)
    requires events != [] && forall k :: k in at ==> k < |events|
    requires var n := |events| - 1; ActivityFits(events[..n], before, at - {n})
    ensures var n := |events| - 1;
      ActivityFits(events, if n in at then Activity(before.events + 1, events[n].seqNo) else before, at)
  {
    var n := |events| - 1;
    if n in at {
      assert at == (at - {n}) + {n} && Last(at, n);
    } else {
      assert at - {n} == at;
      if at != {} {
        var k: nat :| Last(at, k) && k < n && before.lastSeq == events[..n][k].seqNo;
        assert events[k] == events[..n][k];
      }
    }
  }

  /** Every expected agent shows the number of its retained events and the number of its newest. */
  lemma AgentsCounted(events: History, agent: Agent)
    ensures ActivityFits(events, ActivityOf(events, Specialist(agent)),
                         set k: nat | k < |events| && events[k].payload == AgentSignal(agent))
    ensures ActivityFits(events, ActivityOf(events, ReasoningAgent),
                         set k: nat | k < |events| && events[k].payload == Reasoning)
    ensures ActivityFits(events, ActivityOf(events, ProposalAgent),
                         set k: nat | k < |events| && events[k].payload.ProposalEvent?)
  {
    ActivityIs(events, Specialist(agent), set k: nat | k < |events| && events[k].payload == AgentSignal(agent));
    ActivityIs(events, ReasoningAgent, set k: nat | k < |events| && events[k].payload == Reasoning);
    ActivityIs(events, ProposalAgent, set k: nat | k < |events| && events[k].payload.ProposalEvent?);
  }

  /** `max(0, trades_closed - trades_graded)` */
  function Ungraded(health: Health): nat
    requires Outcomes in health.counts && TradeGrades in health.counts
  {
    if health.counts[Outcomes] > health.counts[TradeGrades] then health.counts[Outcomes] - health.counts[TradeGrades]
      else 0
  }

  lemma CountsReported(events: History, emitted: nat, k: nat)
    requires k < |ALL_TAGS|
    ensures ALL_TAGS[k] in HealthOf(events, emitted).counts
    ensures HealthOf(events, emitted).counts[ALL_TAGS[k]] == Count(events, ALL_TAGS[k])
  {
  }

  /** The health view of any run between operations reports no ungraded trade, whatever was evicted. */
  lemma HealthNeverShowsUngraded(config: CognitiveConfig, cap: Option<nat>, ops: seq<Op>, show: nat -> string)
    ensures var b := Run(Start(config, cap), ops, show);
      var health := HealthOf(Retained(b.history, b.cap), |b.history|);
      Outcomes in health.counts && TradeGrades in health.counts && Ungraded(health) == 0
  {
    BrainRuns.NothingUngraded(config, cap, ops, show);
    var b := Run(Start(config, cap), ops, show);
    CountsReported(Retained(b.history, b.cap), |b.history|, 6);
    CountsReported(Retained(b.history, b.cap), |b.history|, 7);
  }
}
