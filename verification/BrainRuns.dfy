/** Whole runs of the brain: who may change behaviour, and what the counts on the stream add up to. */
module BrainRuns {
  import opened Rounding
  import opened Json
  import opened Config
  import opened Learning
  import opened Evolution
  import opened RecentKeys
  import opened EventStream
  import opened Brain
  import opened BrainProperties

  // ---------------------------------------------------------------- behaviour changes only by merge

  function CountMerges(ops: seq<Op>): nat {
    if ops == [] then 0 else CountMerges(ops[..|ops| - 1]) + if ops[|ops| - 1].Merge? then 1 else 0
  }

  lemma VersionsEmitted(op: Op, items: Items)
    requires Fits(op, items) && (op.Merge? ==> |items| == 1)
    ensures CountItems(items, Versions) == if op.Merge? then 1 else 0
  {
    if op.Merge? {
      assert items == [items[0]];
      CountOne(items[0], Versions);
    } else {
      CountNone(items, Versions);
    }
  }

  lemma OnlyMergeChanges(b: Brain, op: Op, show: Show)
    ensures var c := Apply(b, op, show);
      && Count(c.history, Versions) == Count(b.history, Versions) + (if op.Merge? then 1 else 0)
      && (!op.Merge? ==> c.config == b.config && c.proposalId == b.proposalId)
  {
    CountAppend(b.history, Emitted(b, op, show), Versions);
    EmittedFits(b, op, show);
    VersionsEmitted(op, Emitted(b, op, show));
  }

  /** One CONFIG_VERSION event at the start and one per merge; without a merge the configuration
      and its provenance are what they were, however much was stepped, closed, learned or evolved. */
  lemma {:induction false} OnlyMergesChangeBehaviour(config: CognitiveConfig, cap: Option<nat>, ops: seq<Op>,
                                                     show: Show)
    ensures var b := Run(Start(config, cap), ops, show);
      && Count(b.history, Versions) == 1 + CountMerges(ops)
      && (CountMerges(ops) == 0 ==> b.config == config && b.proposalId == None)
  {
    if ops == [] {
      CountAppend([], [VersionItem(config)], Versions);
      CountOne(VersionItem(config), Versions);
    } else {
      var n := |ops| - 1;
      OnlyMergesChangeBehaviour(config, cap, ops[..n], show);
      OnlyMergeChanges(Run(Start(config, cap), ops[..n], show), ops[n], show);
    }
  }

  // ---------------------------------------------------------------- the proposal funnel

  ghost predicate Funnel(h: History) {
    && Count(h, Generated) >= Count(h, Backtested)
    && Count(h, Backtested) == Count(h, Approved) + Count(h, Rejected)
    && Count(h, PrRequests) == Count(h, Approved)
  }

  ghost predicate FunnelItems(items: Items) {
    && CountItems(items, Generated) >= CountItems(items, Backtested)
    && CountItems(items, Backtested) == CountItems(items, Approved) + CountItems(items, Rejected)
    && CountItems(items, PrRequests) == CountItems(items, Approved)
  }

  lemma FunnelAppend(h: History, items: Items)
    requires Funnel(h) && FunnelItems(items)
    ensures Funnel(Append(h, items))
  {
    CountAppend(h, items, Generated);
    CountAppend(h, items, Backtested);
    CountAppend(h, items, Approved);
    CountAppend(h, items, Rejected);
    CountAppend(h, items, PrRequests);
  }

  ghost predicate OutsideFunnel(p: Payload) {
    !p.ProposalEvent? && !p.BacktestResult? && !p.ChallengerVerdict? && !p.PrRequest?
  }

  lemma OutsideFunnelItems(items: Items)
    requires forall i :: 0 <= i < |items| ==> OutsideFunnel(items[i].payload)
    ensures FunnelItems(items) && CountItems(items, Generated) == 0
    ensures CountItems(items, Backtested) == CountItems(items, Approved) == 0
  {
    CountNone(items, Generated);
    CountNone(items, Backtested);
    CountNone(items, Approved);
    CountNone(items, Rejected);
    CountNone(items, PrRequests);
  }

  lemma FunnelConcat(a: Items, b: Items)
    requires FunnelItems(a) && FunnelItems(b)
    ensures FunnelItems(a + b)
  {
    CountItemsConcat(a, b, Generated);
    CountItemsConcat(a, b, Backtested);
    CountItemsConcat(a, b, Approved);
    CountItemsConcat(a, b, Rejected);
    CountItemsConcat(a, b, PrRequests);
  }

  lemma CycleCount(p: Proposal, approved: bool, tag: Tag)
    ensures var items := [Plain(ProposalEvent(p))] + JudgedItems(approved);
      CountItems(items, tag) ==
        (if tag == Generated || tag == Backtested then 1 else 0)
        + (if (tag == Approved || tag == PrRequests) && approved then 1 else 0)
        + (if tag == Rejected && !approved then 1 else 0)
  {
    CountItemsConcat([Plain(ProposalEvent(p))], JudgedItems(approved), tag);
    CountOne(Plain(ProposalEvent(p)), tag);
    JudgedCount(approved, tag);
  }

  lemma JudgedCount(approved: bool, tag: Tag)
    ensures CountItems(JudgedItems(approved), tag) ==
        (if tag == Backtested then 1 else 0)
        + (if (tag == Approved || tag == PrRequests) && approved then 1 else 0)
        + (if tag == Rejected && !approved then 1 else 0)
  {
    var backtest, verdict, grade := Plain(BacktestResult), Plain(ChallengerVerdict(approved)),
      Plain(Grade(ProposalGrade));
    var request := if approved then [Plain(PrRequest)] else [];
    CountOne(backtest, tag);
    CountOne(verdict, tag);
    CountOne(grade, tag);
    CountOne(Plain(PrRequest), tag);
    CountItemsConcat([backtest], [verdict], tag);
    CountItemsConcat([backtest] + [verdict], [grade], tag);
    CountItemsConcat([backtest] + [verdict] + [grade], request, tag);
    assert JudgedItems(approved) == [backtest] + [verdict] + [grade] + request;
  }

  lemma EvolveFunnel(b: Brain, admitted: bool, approved: bool, readers: Readers)
    ensures FunnelItems(EvolveItems(b, admitted, approved, readers))
  {
    LearnFits(b, Learn);
    FitsOutsideFunnel(Learn, LearnItems(b));
    match Proposed(b) {
      case None =>
        assert EvolveItems(b, admitted, approved, readers) == LearnItems(b);
      case Some(p) =>
        var rest := [Plain(ProposalEvent(p))]
          + if admitted && ApplyProposal(b.config, p, readers).Candidate? then JudgedItems(approved) else [];
        if admitted && ApplyProposal(b.config, p, readers).Candidate? {
          CycleCount(p, approved, Generated);
          CycleCount(p, approved, Backtested);
          CycleCount(p, approved, Approved);
          CycleCount(p, approved, Rejected);
          CycleCount(p, approved, PrRequests);
        } else {
          assert rest == [Plain(ProposalEvent(p))];
          CountOne(Plain(ProposalEvent(p)), Generated);
          CountOne(Plain(ProposalEvent(p)), Backtested);
          CountOne(Plain(ProposalEvent(p)), Approved);
          CountOne(Plain(ProposalEvent(p)), Rejected);
          CountOne(Plain(ProposalEvent(p)), PrRequests);
        }
        FunnelConcat(LearnItems(b), rest);
        assert EvolveItems(b, admitted, approved, readers) == LearnItems(b) + rest;
    }
  }

  /** On the full history: proposals >= backtests = approvals + rejections, and one PR request per
      approval. */
  lemma {:induction false} FunnelHolds(config: CognitiveConfig, cap: Option<nat>, ops: seq<Op>, show: Show)
    ensures Funnel(Run(Start(config, cap), ops, show).history)
  {
    if ops == [] {
      OutsideFunnelItems([VersionItem(config)]);
      FunnelAppend([], [VersionItem(config)]);
    } else {
      var n := |ops| - 1;
      FunnelHolds(config, cap, ops[..n], show);
      var b := Run(Start(config, cap), ops[..n], show);
      FunnelEmitted(b, ops[n], show);
      FunnelAppend(b.history, Emitted(b, ops[n], show));
    }
  }

  lemma FitsOutsideFunnel(op: Op, items: Items)
    requires Fits(op, items) && !op.Evolve?
    ensures FunnelItems(items) && CountItems(items, Backtested) == CountItems(items, Approved) == 0
  {
    OutsideFunnelItems(items);
  }

  // ---------------------------------------------------------------- the scorecard

  /** What the scorecard knows can be counted on the stream: one attempt per backtest, one success
      per approval, all of weight changes. */
  ghost predicate ScoredFromStream(stats: map<ProposalType, TypeStat>, h: History) {
    && stats.Keys <= {WeightChange}
    && StatOf(stats, WeightChange) == TypeStat(Count(h, Backtested), Count(h, Approved))
  }

  /** Whether this cycle gets as far as a verdict. */
  ghost predicate Reaches(b: Brain, op: Op) {
    op.Evolve? && op.admitted && Proposed(b).Some? &&
    ApplyProposal(b.config, Proposed(b).value, op.readers).Candidate?
  }

  lemma VerdictsEmitted(b: Brain, op: Op, show: Show)
    ensures var items := Emitted(b, op, show);
      && CountItems(items, Backtested) == (if Reaches(b, op) then 1 else 0)
      && CountItems(items, Approved) == (if Reaches(b, op) && op.approved then 1 else 0)
  {
    if op.Evolve? {
      EvolveVerdicts(b, op, Backtested);
      EvolveVerdicts(b, op, Approved);
    } else {
      EmittedFits(b, op, show);
      FitsOutsideFunnel(op, Emitted(b, op, show));
    }
  }

  lemma EvolveVerdicts(b: Brain, op: Op, tag: Tag)
    requires op.Evolve? && (tag == Backtested || tag == Approved)
    ensures CountItems(EvolveItems(b, op.admitted, op.approved, op.readers), tag) ==
      if Reaches(b, op) && (tag == Approved ==> op.approved) then 1 else 0
  {
    LearnFits(b, Learn);
    FitsOutsideFunnel(Learn, LearnItems(b));
    var items := EvolveItems(b, op.admitted, op.approved, op.readers);
    match Proposed(b) {
      case None =>
        assert items == LearnItems(b);
      case Some(p) =>
        VerdictsOf(LearnItems(b), p, Reaches(b, op), op.approved, tag);
        assert items == CycleItems(LearnItems(b), p, Reaches(b, op), op.approved);
    }
  }

  function CycleItems(learned: Items, p: Proposal, judged: bool, approved: bool): Items {
    learned + ([Plain(ProposalEvent(p))] + if judged then JudgedItems(approved) else [])
  }

  lemma VerdictsOf(learned: Items, p: Proposal, judged: bool, approved: bool, tag: Tag)
    requires CountItems(learned, tag) == 0 && (tag == Backtested || tag == Approved)
    ensures CountItems(CycleItems(learned, p, judged, approved), tag) ==
      if judged && (tag == Approved ==> approved) then 1 else 0
  {
    CycleCount(p, approved, tag);
    CountOne(Plain(ProposalEvent(p)), tag);
    assert [Plain(ProposalEvent(p))] + [] == [Plain(ProposalEvent(p))];
    CountItemsConcat(learned, [Plain(ProposalEvent(p))] + if judged then JudgedItems(approved) else [], tag);
  }

  lemma StatsAfter(b: Brain, op: Op, show: Show)
    ensures Apply(b, op, show).stats ==
      if Reaches(b, op) then Recorded(b.stats, WeightChange, op.approved) else b.stats
  {
  }

  /** After any run the scorecard holds exactly the verdicts on the full history. */
  lemma {:induction false} ScorecardIsOnStream(config: CognitiveConfig, cap: Option<nat>, ops: seq<Op>, show: Show)
    ensures var b := Run(Start(config, cap), ops, show); ScoredFromStream(b.stats, b.history)
  {
    if ops == [] {
      OutsideFunnelItems([VersionItem(config)]);
      CountAppend([], [VersionItem(config)], Backtested);
      CountAppend([], [VersionItem(config)], Approved);
    } else {
      var n := |ops| - 1;
      var b := Run(Start(config, cap), ops[..n], show);
      ScorecardIsOnStream(config, cap, ops[..n], show);
      ScoreStep(b, ops[n], show);
    }
  }

  lemma ScoreStep(b: Brain, op: Op, show: Show)
    requires ScoredFromStream(b.stats, b.history)
    ensures ScoredFromStream(Apply(b, op, show).stats, Apply(b, op, show).history)
  {
    VerdictsEmitted(b, op, show);
    StatsAfter(b, op, show);
    CountAppend(b.history, Emitted(b, op, show), Backtested);
    CountAppend(b.history, Emitted(b, op, show), Approved);
  }

  lemma FunnelEmitted(b: Brain, op: Op, show: Show)
    ensures FunnelItems(Emitted(b, op, show))
  {
    if op.Evolve? {
      EvolveFunnel(b, op.admitted, op.approved, op.readers);
    } else {
      EmittedFits(b, op, show);
      FitsOutsideFunnel(op, Emitted(b, op, show));
    }
  }

  // ---------------------------------------------------------------- every close is graded

  /** From any point on there are at least as many trade grades as outcomes. */
  ghost predicate Covered(h: History) {
    forall k :: 0 <= k <= |h| ==> Count(h[k..], Outcomes) <= Count(h[k..], TradeGrades)
  }

  lemma {:induction false} CountSplits(a: History, b: History, tag: Tag)
    ensures Count(a + b, tag) == Count(a, tag) + Count(b, tag)
  {
    if b == [] {
      assert a + b == a;
    } else {
      CountSplits(a, b[..|b| - 1], tag);
      assert (a + b)[..|a + b| - 1] == a + b[..|b| - 1];
    }
  }

  lemma CoveredConcat(a: History, b: History)
    requires Covered(a) && Covered(b)
    ensures Covered(a + b)
  {
    forall k | 0 <= k <= |a + b| ensures Count((a + b)[k..], Outcomes) <= Count((a + b)[k..], TradeGrades) {
      if k <= |a| {
        assert (a + b)[k..] == a[k..] + b && b == b[0..];
        CountSplits(a[k..], b, Outcomes);
        CountSplits(a[k..], b, TradeGrades);
      } else {
        assert (a + b)[k..] == b[k - |a|..];
      }
    }
  }

  lemma {:induction false} NoOutcomes(h: History)
    requires forall i :: 0 <= i < |h| ==> !h[i].payload.TradeOutcome?
    ensures Count(h, Outcomes) == 0
  {
    if h != [] {
      NoOutcomes(h[..|h| - 1]);
    }
  }

  lemma NoOutcomesCovered(h: History)
    requires forall i :: 0 <= i < |h| ==> !h[i].payload.TradeOutcome?
    ensures Covered(h)
  {
    forall k | 0 <= k <= |h| ensures Count(h[k..], Outcomes) <= Count(h[k..], TradeGrades) {
      NoOutcomes(h[k..]);
    }
  }

  /** An outcome followed by its attribution, its grade and the counterfactual. */
  lemma CloseCovered(h: History)
    requires |h| == 4 && h[2].payload == Grade(TradeGrade)
    requires forall i :: 1 <= i < 4 ==> !h[i].payload.TradeOutcome?
    ensures Covered(h)
  {
    forall k | 0 <= k <= 4 ensures Count(h[k..], Outcomes) <= Count(h[k..], TradeGrades) {
      if k == 0 {
        assert h[0..] == h[..1] + h[1..] && h[1..] == h[1..2] + [h[2]] + [h[3]] && h[..1][..0] == [];
        NoOutcomes(h[1..]);
        CountSplits(h[..1], h[1..], Outcomes);
        CountSplits(h[..1], h[1..], TradeGrades);
        CountSplits(h[1..2] + [h[2]], [h[3]], TradeGrades);
        assert (h[1..2] + [h[2]])[..1] == h[1..2];
      } else {
        NoOutcomes(h[k..]);
      }
    }
  }

  lemma AppendIsConcat(h: History, items: Items)
    ensures Append(h, items) == h + Append(h, items)[|h|..]
    ensures |Append(h, items)[|h|..]| == |items|
    ensures forall i :: 0 <= i < |items| ==> Append(h, items)[|h|..][i].payload == items[i].payload
  {
  }

  lemma CoveredAppend(h: History, items: Items)
    requires Covered(h)
    requires (forall i :: 0 <= i < |items| ==> !items[i].payload.TradeOutcome?)
      || (|items| == 4 && items[2].payload == Grade(TradeGrade) && forall i :: 1 <= i < 4 ==>
        !items[i].payload.TradeOutcome?)
    ensures Covered(Append(h, items))
  {
    AppendIsConcat(h, items);
    var block := Append(h, items)[|h|..];
    if forall i :: 0 <= i < |items| ==> !items[i].payload.TradeOutcome? {
      NoOutcomesCovered(block);
    } else {
      CloseCovered(block);
    }
    CoveredConcat(h, block);
  }

  lemma {:induction false} RunIsCovered(config: CognitiveConfig, cap: Option<nat>, ops: seq<Op>, show: Show)
    ensures Covered(Run(Start(config, cap), ops, show).history)
  {
    if ops == [] {
      NoOutcomesCovered(Start(config, cap).history);
    } else {
      var n := |ops| - 1;
      RunIsCovered(config, cap, ops[..n], show);
      var b := Run(Start(config, cap), ops[..n], show);
      CloseShape(b, ops[n], show);
      CoveredAppend(b.history, Emitted(b, ops[n], show));
    }
  }

  lemma CloseShape(b: Brain, op: Op, show: Show)
    ensures var items := Emitted(b, op, show);
      (forall i :: 0 <= i < |items| ==> !items[i].payload.TradeOutcome?)
      || (|items| == 4 && items[2].payload == Grade(TradeGrade) && forall i :: 1 <= i < 4 ==>
        !items[i].payload.TradeOutcome?)
  {
    if op.CloseTrade? {
      assert |CloseItems(b, op.traceId, op.realizedPnl)| == 4;
    } else {
      EmittedFits(b, op, show);
      FitsNoClose(op, Emitted(b, op, show));
    }
  }

  lemma FitsNoClose(op: Op, items: Items)
    requires Fits(op, items) && !op.CloseTrade?
    ensures forall i :: 0 <= i < |items| ==> !items[i].payload.TradeOutcome? && !items[i].payload.AttributionEvent?
  {
  }

  /** Whatever retention has evicted, between operations the health view never shows an ungraded trade. */
  lemma NothingUngraded(config: CognitiveConfig, cap: Option<nat>, ops: seq<Op>, show: Show)
    ensures var b := Run(Start(config, cap), ops, show);
      var held := Retained(b.history, b.cap);
      Count(held, Outcomes) <= Count(held, TradeGrades)
  {
    RunIsCovered(config, cap, ops, show);
    var b := Run(Start(config, cap), ops, show);
    var held := Retained(b.history, b.cap);
    assert held == b.history[|b.history| - |held|..];
  }

  // ---------------------------------------------------------------- learning is a fold of the stream

  /** The tracker as anyone could rebuild it from TRADE_OUTCOME / ATTRIBUTION pairs. */
  function FoldHistory(h: History): PerSignal<Acc> {
    if h == [] then EMPTY_TRACKER
    else
      var n := |h| - 1;
      var before := FoldHistory(h[..n]);
      if n > 0 && h[n].payload.AttributionEvent? && h[n - 1].payload.TradeOutcome? then
        FoldTrade(before, h[n].payload.attribution, Sign(h[n - 1].payload.realizedPnl))
      else before
  }

  lemma {:induction false} FoldIgnores(h: History, items: Items)
    requires forall i :: 0 <= i < |items| ==> !items[i].payload.AttributionEvent?
    ensures FoldHistory(Append(h, items)) == FoldHistory(h)
  {
    if items == [] {
      AppendNothing(h);
    } else {
      FoldIgnores(h, items[..|items| - 1]);
      AppendLast(h, items);
    }
  }

  lemma FoldClose(b: Brain, traceId: string, pnl: real)
    ensures FoldHistory(Append(b.history, CloseItems(b, traceId, pnl))) ==
      FoldTrade(FoldHistory(b.history),
                Attribute(BreakdownOf(DecisionFor(Retained(b.history, b.cap), traceId)), pnl), Sign(Round(pnl, GRID6)))
  {
    var items := CloseItems(b, traceId, pnl);
    var outcome, attribution, rest := items[..1], items[1..2], items[2..];
    AppendTwice(b.history, outcome, attribution);
    AppendTwice(b.history, outcome + attribution, rest);
    assert items == outcome + attribution + rest;
    FoldIgnores(b.history, outcome);
    FoldPair(Append(b.history, outcome), items[1]);
    assert Append(Append(b.history, outcome), attribution) == Append(b.history, outcome + attribution);
    FoldIgnores(Append(b.history, outcome + attribution), rest);
  }

  lemma {:induction false} FoldPair(h: History, item: Item<Payload>)
    requires h != [] && h[|h| - 1].payload.TradeOutcome? && item.payload.AttributionEvent?
    ensures FoldHistory(Append(h, [item])) ==
      FoldTrade(FoldHistory(h), item.payload.attribution, Sign(h[|h| - 1].payload.realizedPnl))
  {
    var after := Append(h, [item]);
    assert after[..|h|] == h && after[|h|].payload == item.payload;
  }

  /** A PnL that rounding to six places leaves with its sign. */
  predicate Visible(pnl: real) {
    pnl == 0.0 || Abs(pnl) > HALF_MICRO
  }

  /** The tracker holds nothing the events do not. */
  ghost predicate Folds(b: Brain) {
    b.tracker == FoldHistory(b.history)
  }

  lemma OnlyClosesTrack(b: Brain, op: Op, show: Show)
    requires !op.CloseTrade?
    ensures FoldHistory(Apply(b, op, show).history) == FoldHistory(b.history)
    ensures Apply(b, op, show).tracker == b.tracker
  {
    EmittedFits(b, op, show);
    FitsNoClose(op, Emitted(b, op, show));
    FoldIgnores(b.history, Emitted(b, op, show));
  }

  /** Rounding the PnL of the trade loses its sign, and some contribution pointed that way. */
  ghost predicate Hidden(b: Brain, op: Op) {
    op.CloseTrade? && !Visible(op.realizedPnl) && PointsAlong(
      BreakdownOf(DecisionFor(Retained(b.history, b.cap), op.traceId)), Sign(op.realizedPnl))
  }

  ghost predicate PointsAlong(breakdown: PerSignal<real>, sign: int) {
    Sign(breakdown.news) == sign || Sign(breakdown.tech) == sign || Sign(breakdown.macro) == sign
  }

  /** The events never count more than memory does, and agree on everything else. */
  ghost predicate Lags(seen: PerSignal<Acc>, held: PerSignal<Acc>) {
    LagsAt(seen.news, held.news) && LagsAt(seen.tech, held.tech) && LagsAt(seen.macro, held.macro)
  }

  ghost predicate LagsAt(seen: Acc, held: Acc) {
    seen.correct <= held.correct && seen == held.(correct := seen.correct)
  }

  lemma SignalLags(seen: Acc, held: Acc, contribution: real, share: real, seenSign: int, sign: int)
    requires LagsAt(seen, held) && (seenSign == sign || seenSign == 0)
    ensures var newSeen, newHeld := FoldSignal(seen, contribution, share, seenSign),
      FoldSignal(held, contribution, share, sign);
      && LagsAt(newSeen, newHeld)
      && (newSeen == newHeld <==> seen == held && (seenSign == sign || Sign(contribution) != sign))
  {
  }

  /** A trade keeps the lag; there is none afterwards iff there was none and the trade is not hidden. */
  lemma TradeLags(seen: PerSignal<Acc>, held: PerSignal<Acc>, breakdown: PerSignal<real>, pnl: real)
    requires Lags(seen, held)
    ensures var a := Attribute(breakdown, pnl);
      var newSeen, newHeld := FoldTrade(seen, a, Sign(Round(pnl, GRID6))), FoldTrade(held, a, Sign(pnl));
      && Lags(newSeen, newHeld)
      && (newSeen == newHeld <==> seen == held && (Visible(pnl) || !PointsAlong(breakdown, Sign(pnl))))
  {
    var a, seenSign, sign := Attribute(breakdown, pnl), Sign(Round(pnl, GRID6)), Sign(pnl);
    SignSurvivesIff(pnl);
    if !Visible(pnl) {
      TinyRoundsToZero(pnl);
    }
    assert a.contributions == breakdown;
    SignalLags(seen.news, held.news, breakdown.news, a.pnlAttribution.news, seenSign, sign);
    SignalLags(seen.tech, held.tech, breakdown.tech, a.pnlAttribution.tech, seenSign, sign);
    SignalLags(seen.macro, held.macro, breakdown.macro, a.pnlAttribution.macro, seenSign, sign);
  }

  lemma StepLags(b: Brain, op: Op, show: Show)
    requires Lags(FoldHistory(b.history), b.tracker)
    ensures var c := Apply(b, op, show);
      Lags(FoldHistory(c.history), c.tracker) && (Folds(c) <==> Folds(b) && !Hidden(b, op))
  {
    if op.CloseTrade? {
      FoldClose(b, op.traceId, op.realizedPnl);
      var breakdown := BreakdownOf(DecisionFor(Retained(b.history, b.cap), op.traceId));
      TradeLags(FoldHistory(b.history), b.tracker, breakdown, op.realizedPnl);
    } else {
      OnlyClosesTrack(b, op, show);
    }
  }

  /** Some operation of the sequence satisfies p, a predicate on it and those before it. */
  ghost predicate Sometimes(ops: seq<Op>, p: (seq<Op>, Op) -> bool) {
    ops != [] && (Sometimes(ops[..|ops| - 1], p) || p(ops[..|ops| - 1], ops[|ops| - 1]))
  }

  lemma {:induction false} SometimesIff(ops: seq<Op>, p: (seq<Op>, Op) -> bool)
    ensures Sometimes(ops, p) <==> exists i: nat :: i < |ops| && p(ops[..i], ops[i])
  {
    if ops != [] {
      var n := |ops| - 1;
      SometimesIff(ops[..n], p);
      forall i: nat | i < n ensures ops[..n][..i] == ops[..i] && ops[..n][i] == ops[i] {
      }
      if i: nat :| i < n && p(ops[..i], ops[i]) {
        assert p(ops[..n][..i], ops[..n][i]);
      }
    }
  }

  /** The trade closed by `op` after `before` was hidden. */
  ghost function HiddenAfter(b: Brain, show: Show): (seq<Op>, Op) -> bool {
    (before, op) => Hidden(Run(b, before, show), op)
  }

  lemma {:induction false} RunLags(config: CognitiveConfig, cap: Option<nat>, ops: seq<Op>, show: Show)
    ensures var b := Run(Start(config, cap), ops, show);
      Lags(FoldHistory(b.history), b.tracker) && (Folds(b) <==> !Sometimes(ops, HiddenAfter(Start(config, cap), show)))
  {
    if ops == [] {
      StartFolds(config, cap);
    } else {
      var n := |ops| - 1;
      RunLags(config, cap, ops[..n], show);
      StepLags(Run(Start(config, cap), ops[..n], show), ops[n], show);
    }
  }

  /** The tracker in memory is exactly the fold of the events - no hidden state - if and only if no
      trade was closed with a PnL below half a micro-unit in the direction of a contribution. */
  lemma TrackerIsAFold(config: CognitiveConfig, cap: Option<nat>, ops: seq<Op>, show: Show)
    ensures Folds(Run(Start(config, cap), ops, show)) <==>
      forall i: nat :: i < |ops| ==> !HiddenAfter(Start(config, cap), show)(ops[..i], ops[i])
  {
    RunLags(config, cap, ops, show);
    SometimesIff(ops, HiddenAfter(Start(config, cap), show));
  }

  /** In particular when every closed PnL is zero or more than half a micro-unit. */
  lemma VisibleRunsFold(config: CognitiveConfig, cap: Option<nat>, ops: seq<Op>, show: Show)
    requires forall i :: 0 <= i < |ops| && ops[i].CloseTrade? ==> Visible(ops[i].realizedPnl)
    ensures Folds(Run(Start(config, cap), ops, show))
  {
    forall i: nat | i < |ops| ensures !HiddenAfter(Start(config, cap), show)(ops[..i], ops[i]) {
      VisibleIsNotHidden(Start(config, cap), show, ops[..i], ops[i]);
    }
    TrackerIsAFold(config, cap, ops, show);
  }

  lemma VisibleIsNotHidden(b: Brain, show: Show, before: seq<Op>, op: Op)
    requires op.CloseTrade? ==> Visible(op.realizedPnl)
    ensures !HiddenAfter(b, show)(before, op)
  {
  }

  lemma StartFolds(config: CognitiveConfig, cap: Option<nat>)
    ensures Folds(Start(config, cap))
  {
    FoldIgnores([], [VersionItem(config)]);
  }

  lemma GridIsVisible(pnl: real)
    requires OnGrid(pnl, GRID6)
    ensures Visible(pnl)
  {
    RoundFixed(pnl, GRID6);
    SignSurvivesIff(pnl);
  }

  // ---------------------------------------------------------------- safe evolution

  /** A candidate as an evolution cycle builds it from this configuration. */
  ghost predicate BuiltFrom(config: CognitiveConfig, candidate: CognitiveConfig) {
    exists observations, rate, readers ::
      && 0.0 <= rate <= 1.0
      && Propose(observations, config, rate).Some?
      && ApplyProposal(config, Propose(observations, config, rate).value, readers) == Candidate(candidate)
  }

  ghost predicate FairStats(stats: map<ProposalType, TypeStat>) {
    forall t :: t in stats ==> stats[t].successes <= stats[t].attempts
  }

  /** The candidate an admitted cycle hands out is always there, and built from the configuration
      in force: a generated proposal never fails to apply. */
  lemma CycleBuildsCandidate(b: Brain, readers: Readers)
    requires Safe(b.config) && FairStats(b.stats) && Proposed(b).Some?
    ensures ApplyProposal(b.config, Proposed(b).value, readers).Candidate?
    ensures BuiltFrom(b.config, ApplyProposal(b.config, Proposed(b).value, readers).config)
  {
    var rate := SuccessRate(b.stats, WeightChange);
    SuccessRateIsAFraction(b.stats, WeightChange);
    ProposalsAreSafeSteps(Observe(b.tracker), b.config, rate, readers);
    assert ApplyProposal(b.config, Propose(Observe(b.tracker), b.config, rate).value, readers)
      == Candidate(ApplyProposal(b.config, Proposed(b).value, readers).config);
  }

  /** Runs whose merges are all of candidates built from the configuration in force. */
  ghost predicate Disciplined(b: Brain, ops: seq<Op>, show: Show) {
    forall i: nat :: i < |ops| ==> MergesBuilt(b, ops, show, i)
  }

  ghost predicate MergesBuilt(b: Brain, ops: seq<Op>, show: Show, i: nat)
    requires i < |ops|
  {
    ops[i].Merge? ==> BuiltFrom(Run(b, ops[..i], show).config, ops[i].candidate)
  }

  lemma BuiltIsSafeStep(config: CognitiveConfig, candidate: CognitiveConfig)
    requires Safe(config) && BuiltFrom(config, candidate)
    ensures SafeStep(config, candidate)
  {
    var observations, rate, readers :|
      && 0.0 <= rate <= 1.0
      && Propose(observations, config, rate).Some?
      && ApplyProposal(config, Propose(observations, config, rate).value, readers) == Candidate(candidate);
    ProposalsAreSafeSteps(observations, config, rate, readers);
  }

  lemma StatsStayFair(b: Brain, op: Op, show: Show)
    requires FairStats(b.stats)
    ensures FairStats(Apply(b, op, show).stats)
  {
  }

  lemma ConfigAfter(b: Brain, op: Op, show: Show)
    requires Safe(b.config) && (op.Merge? ==> BuiltFrom(b.config, op.candidate))
    ensures Safe(Apply(b, op, show).config)
    ensures Apply(b, op, show).config.version == b.config.version + if op.Merge? then 1 else 0
  {
    if op.Merge? {
      MergeAdopts(b, op, show);
      BuiltIsSafeStep(b.config, op.candidate);
    } else {
      OnlyMergeChanges(b, op, show);
    }
  }

  lemma MergeAdopts(b: Brain, op: Op, show: Show)
    requires op.Merge?
    ensures Apply(b, op, show).config == op.candidate
  {
  }

  /** Along any disciplined run the active configuration is always inside the guardrails and its
      version is the initial one plus the number of merges. */
  lemma {:induction false} EvolutionIsSafe(config: CognitiveConfig, cap: Option<nat>, ops: seq<Op>, show: Show)
    requires Safe(config) && Disciplined(Start(config, cap), ops, show)
    ensures var b := Run(Start(config, cap), ops, show);
      Safe(b.config) && FairStats(b.stats) && b.config.version == config.version + CountMerges(ops)
  {
    if ops != [] {
      var n := |ops| - 1;
      DisciplinedPrefix(Start(config, cap), ops, show, n);
      EvolutionIsSafe(config, cap, ops[..n], show);
      var b := Run(Start(config, cap), ops[..n], show);
      StatsStayFair(b, ops[n], show);
      assert MergesBuilt(Start(config, cap), ops, show, n);
      ConfigAfter(b, ops[n], show);
    }
  }

  lemma DisciplinedPrefix(b: Brain, ops: seq<Op>, show: Show, n: nat)
    requires Disciplined(b, ops, show) && n <= |ops|
    ensures Disciplined(b, ops[..n], show)
  {
    forall i: nat | i < n ensures MergesBuilt(b, ops[..n], show, i) {
      assert ops[..n][..i] == ops[..i] && MergesBuilt(b, ops, show, i);
    }
  }

  /** ... and every merge moves exactly one weight, by at most 0.05 plus rounding. */
  lemma EveryMergeIsASafeStep(config: CognitiveConfig, cap: Option<nat>, ops: seq<Op>, show: Show, i: nat)
    requires Safe(config) && Disciplined(Start(config, cap), ops, show) && i < |ops| && ops[i].Merge?
    ensures SafeStep(Run(Start(config, cap), ops[..i], show).config, ops[i].candidate)
  {
    DisciplinedPrefix(Start(config, cap), ops, show, i);
    EvolutionIsSafe(config, cap, ops[..i], show);
    assert MergesBuilt(Start(config, cap), ops, show, i);
    BuiltIsSafeStep(Run(Start(config, cap), ops[..i], show).config, ops[i].candidate);
  }

  // ---------------------------------------------------------------- trace ids

  /** The default trace id is built from the number of *retained* events.  Two passes of one run get
      the same default id iff the history had reached the retention cap by the first of them, so
      from then on every default id is the same and `_decision_for` finds the newest pass only. */
  lemma DefaultTraceIdsCollideIff(a: Brain, b: Brain, show: Show)
    requires a.cap == b.cap && |a.history| < |b.history|
    requires forall m, n :: show(m) == show(n) ==> m == n
    ensures TraceId(a, None, show) == TraceId(b, None, show) <==> a.cap.Some? && |a.history| >= a.cap.value
  {
    var m, n := |Retained(a.history, a.cap)|, |Retained(b.history, b.cap)|;
    assert ("trace-" + show(m))[6..] == show(m) && ("trace-" + show(n))[6..] == show(n);
  }
}
