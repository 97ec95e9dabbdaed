/** What the recorded events of a run say about the features, contributions and money they came from. */
module Lineage {
  import opened Rounding
  import opened Json
  import opened Config
  import opened Trades
  import opened Decision
  import opened Learning
  import opened EventStream
  import opened Brain
  import opened BrainProperties

  // ---------------------------------------------------------------- decisions

  /** Every decision of any run follows the weighted sum of the features recorded two events before
      it, under the configuration a reader decodes from the stream. */
  lemma EveryDecisionFollowsScore(config: CognitiveConfig, cap: Option<nat>, ops: seq<Op>, show: Show, i: nat,
                                  readers: Readers)
    requires var h := Run(Start(config, cap), ops, show).history; i < |h| && h[i].payload.DecisionEvent?
    ensures var h := Run(Start(config, cap), ops, show).history;
      && i >= 2 && h[i - 2].payload.FeaturesEvent? && h[i - 2].traceId == h[i].traceId
      && var read := ConfigInForce(h[..i], readers);
         read.Some? && FollowsScore(h[i].payload.verdict, h[i - 2].payload.features, read.value)
  {
    EveryDecisionReplays(config, cap, ops, show, i, readers);
    var h := Run(Start(config, cap), ops, show).history;
    DecisionFollowsScore(h[i - 2].payload.features, ConfigInForce(h[..i], readers).value);
  }

  /** k is the newest decision of the trace among the events. */
  ghost predicate NewestDecision(events: History, traceId: string, k: nat) {
    && k < |events| && events[k].payload.DecisionEvent? && events[k].traceId == traceId
    && forall j :: k < j < |events| ==> !(events[j].payload.DecisionEvent? && events[j].traceId == traceId)
  }

  lemma {:induction false} DecisionForIsNewest(events: History, traceId: string)
    ensures match DecisionFor(events, traceId)
            case None =>
              forall j :: 0 <= j < |events| ==> !(events[j].payload.DecisionEvent? && events[j].traceId == traceId)
            case Some(p) => exists k: nat :: NewestDecision(events, traceId, k) && p == events[k].payload
  {
    if events != [] {
      var n := |events| - 1;
      if IsDecisionOf(events[n], traceId) {
        assert NewestDecision(events, traceId, n);
      } else {
        DecisionForIsNewest(events[..n], traceId);
        if DecisionFor(events, traceId).Some? {
          var k: nat :| NewestDecision(events[..n], traceId, k)
            && DecisionFor(events, traceId).value == events[..n][k].payload;
          assert NewestDecision(events, traceId, k);
        }
      }
    }
  }

  // ---------------------------------------------------------------- closed trades

  /** An attribution comes directly after the outcome of its trade.  Both go back to the newest
      decision of the trace that retention had left: the outcome carries its version and proposal,
      the attribution pays each signal for its own contribution to it; without one the outcome
      carries the version in force and nothing is attributed. */
  ghost predicate Settled(h: History, i: nat, cap: Option<nat>)
    requires i < |h| && h[i].payload.AttributionEvent?
  {
    && i >= 1 && h[i - 1].payload.TradeOutcome? && h[i - 1].traceId == h[i].traceId
    && SettledFrom(h[i - 1].payload, h[i].payload.attribution,
                   DecisionFor(Retained(h[..i - 1], cap), h[i].traceId), h[..i - 1])
  }

  ghost predicate SettledFrom(outcome: Payload, a: Attribution, decision: Option<Payload>, before: History)
    requires outcome.TradeOutcome?
  {
    match decision
    case Some(DecisionEvent(verdict, version, proposalId)) =>
      && outcome.configVersion == version && outcome.proposalId == proposalId
      && exists pnl :: SettlesAt(pnl, outcome, a, verdict.breakdown)
    case _ =>
      && outcome.proposalId == None && (exists c :: Announces(before, c) && outcome.configVersion == c.version)
      && exists pnl :: SettlesAt(pnl, outcome, a, PerSignal(0.0, 0.0, 0.0))
  }

  /** The outcome and the attribution are those of a trade that made this money. */
  ghost predicate SettlesAt(pnl: real, outcome: Payload, a: Attribution, breakdown: PerSignal<real>)
    requires outcome.TradeOutcome?
  {
    && Abs(outcome.realizedPnl - pnl) <= HALF_MICRO && a.realizedPnl == outcome.realizedPnl
    && a.contributions == breakdown
    && forall s: Signal :: PaidFor(a.pnlAttribution.At(s), breakdown, pnl, s)
  }

  lemma AttributionSettles(breakdown: PerSignal<real>, pnl: real, outcome: Payload)
    requires outcome.TradeOutcome? && outcome.realizedPnl == Round(pnl, GRID6)
    ensures SettlesAt(pnl, outcome, Attribute(breakdown, pnl), breakdown)
  {
    MicroRound(pnl);
    forall s: Signal
      ensures PaidFor(Attribute(breakdown, pnl).pnlAttribution.At(s), breakdown, pnl, s)
    {
      EachSignalIsPaid(breakdown, pnl, s);
    }
  }

  ghost predicate AllSettled(h: History, cap: Option<nat>) {
    forall i: nat :: i < |h| && h[i].payload.AttributionEvent? ==> Settled(h, i, cap)
  }

  lemma {:induction false} DecisionForIsDecision(events: History, traceId: string)
    ensures var decision := DecisionFor(events, traceId); decision.Some? ==> decision.value.DecisionEvent?
  {
    if events != [] && !IsDecisionOf(events[|events| - 1], traceId) {
      DecisionForIsDecision(events[..|events| - 1], traceId);
    }
  }

  lemma CloseSettles(b: Brain, traceId: string, pnl: real)
    requires Announces(b.history, b.config)
    ensures var items := CloseItems(b, traceId, pnl); var decision := DecisionFor(Retained(b.history, b.cap), traceId);
      && items[0].payload.TradeOutcome? && items[1].payload.AttributionEvent?
      && SettledFrom(items[0].payload, items[1].payload.attribution, decision, b.history)
  {
    var decision := DecisionFor(Retained(b.history, b.cap), traceId);
    DecisionForIsDecision(Retained(b.history, b.cap), traceId);
    var outcome, a := CloseItems(b, traceId, pnl)[0].payload, CloseItems(b, traceId, pnl)[1].payload.attribution;
    AttributionSettles(BreakdownOf(decision), pnl, outcome);
    assert SettlesAt(pnl, outcome, a, BreakdownOf(decision));
  }

  lemma PrefixKeepsSettled(h: History, g: History, cap: Option<nat>)
    requires |h| <= |g| && g[..|h|] == h && AllSettled(h, cap)
    ensures forall i: nat :: i < |h| && g[i].payload.AttributionEvent? ==> Settled(g, i, cap)
  {
    forall i: nat | i < |h| && g[i].payload.AttributionEvent? ensures Settled(g, i, cap) {
      assert Settled(h, i, cap) && (i >= 1 ==> g[..i - 1] == h[..i - 1]);
    }
  }

  lemma CloseKeepsSettled(b: Brain, traceId: string, pnl: real)
    requires Announces(b.history, b.config) && AllSettled(b.history, b.cap)
    ensures AllSettled(Append(b.history, CloseItems(b, traceId, pnl)), b.cap)
  {
    var items, h := CloseItems(b, traceId, pnl), b.history;
    CloseSettles(b, traceId, pnl);
    SettledAfterClose(h, items, b.cap);
  }

  lemma SettledAfterClose(h: History, items: Items, cap: Option<nat>)
    requires AllSettled(h, cap) && |items| == 4 && items[0].traceId == items[1].traceId
    requires items[0].payload.TradeOutcome? && items[1].payload.AttributionEvent?
    requires !items[2].payload.AttributionEvent? && !items[3].payload.AttributionEvent?
    requires SettledFrom(items[0].payload, items[1].payload.attribution,
                         DecisionFor(Retained(h, cap), items[1].traceId), h)
    ensures AllSettled(Append(h, items), cap)
  {
    var g := Append(h, items);
    PrefixKeepsSettled(h, g, cap);
    forall i: nat | i < |g| && g[i].payload.AttributionEvent? ensures Settled(g, i, cap) {
      if i >= |h| {
        assert g[i].payload == items[i - |h|].payload;
        assert i == |h| + 1 && g[..i - 1] == h;
      }
    }
  }

  lemma OthersKeepSettled(b: Brain, op: Op, show: Show, items: Items)
    requires AllSettled(b.history, b.cap) && !op.CloseTrade? && items == Emitted(b, op, show)
    ensures AllSettled(Append(b.history, items), b.cap)
  {
    EmittedFits(b, op, show);
    FitsUnattributed(op, items);
    SettledUndisturbed(b.history, items, b.cap);
  }

  lemma FitsUnattributed(op: Op, items: Items)
    requires Fits(op, items) && !op.CloseTrade?
    ensures forall i :: 0 <= i < |items| ==> !items[i].payload.AttributionEvent?
  {
  }

  lemma SettledUndisturbed(h: History, items: Items, cap: Option<nat>)
    requires AllSettled(h, cap) && forall i :: 0 <= i < |items| ==> !items[i].payload.AttributionEvent?
    ensures AllSettled(Append(h, items), cap)
  {
    var g := Append(h, items);
    PrefixKeepsSettled(h, g, cap);
  }

  /** Every attribution recorded in any run goes back to the newest decision its trace had left. */
  lemma {:induction false} EveryAttributionIsSettled(config: CognitiveConfig, cap: Option<nat>, ops: seq<Op>,
                                                     show: Show)
    ensures AllSettled(Run(Start(config, cap), ops, show).history, cap)
    ensures Run(Start(config, cap), ops, show).cap == cap
  {
    if ops == [] {
      NothingSettledYet(config, cap);
    } else {
      var op, before := ops[|ops| - 1], Run(Start(config, cap), ops[..|ops| - 1], show);
      EveryAttributionIsSettled(config, cap, ops[..|ops| - 1], show);
      RunIsSound(config, cap, ops[..|ops| - 1], show);
      if op.CloseTrade? {
        CloseKeepsSettled(before, op.traceId, op.realizedPnl);
      } else {
        OthersKeepSettled(before, op, show, Emitted(before, op, show));
      }
    }
  }

  lemma NothingSettledYet(config: CognitiveConfig, cap: Option<nat>)
    ensures AllSettled(Start(config, cap).history, cap)
  {
  }

  // ---------------------------------------------------------------- the tracker of a run

  /** The trades a run closed, each with the contributions of the decision it went back to. */
  function TradesOf(b: Brain, ops: seq<Op>, show: Show): seq<Closed> {
    if ops == [] then []
    else
      var n := |ops| - 1;
      TradesOf(b, ops[..n], show)
      + match ops[n]
        case CloseTrade(traceId, pnl) => [TradeOf(Run(b, ops[..n], show), traceId, pnl)]
        case _ => []
  }

  function TradeOf(b: Brain, traceId: string, pnl: real): Closed {
    match DecisionFor(Retained(b.history, b.cap), traceId)
    case Some(DecisionEvent(verdict, _, _)) => Closed(verdict.breakdown, pnl)
    case _ => Closed(PerSignal(0.0, 0.0, 0.0), pnl)
  }

  lemma {:induction false} RunTracks(config: CognitiveConfig, cap: Option<nat>, ops: seq<Op>, show: Show)
    ensures Run(Start(config, cap), ops, show).tracker == Track(TradesOf(Start(config, cap), ops, show))
  {
    var b := Start(config, cap);
    if ops != [] {
      var n := |ops| - 1;
      RunTracks(config, cap, ops[..n], show);
      TrackOne(Run(b, ops[..n], show), ops[n], show, TradesOf(b, ops[..n], show));
    }
  }

  lemma TrackOne(b: Brain, op: Op, show: Show, trades: seq<Closed>)
    requires b.tracker == Track(trades)
    ensures Apply(b, op, show).tracker ==
      Track(trades + match op case CloseTrade(traceId, pnl) => [TradeOf(b, traceId, pnl)] case _ => [])
  {
    if op.CloseTrade? {
      DecisionForIsDecision(Retained(b.history, b.cap), op.traceId);
      TrackMore(trades, TradeOf(b, op.traceId, op.realizedPnl));
    } else {
      assert trades + [] == trades;
    }
  }

  lemma TrackMore(trades: seq<Closed>, t: Closed)
    ensures Track(trades + [t]) == FoldTrade(Track(trades), Attribute(t.breakdown, t.realizedPnl), Sign(t.realizedPnl))
  {
    assert (trades + [t])[..|trades|] == trades;
  }

  /** After any run the tracker knows, of every signal, one sample per closed trade, the trades it
      called right, the sizes of its contributions, and its own part of the money to within half a
      micro-unit of each (|pnl| + 1). */
  lemma RunKnowsEachSignal(config: CognitiveConfig, cap: Option<nat>, ops: seq<Op>, show: Show, s: Signal)
    ensures Knows(Run(Start(config, cap), ops, show).tracker.At(s), TradesOf(Start(config, cap), ops, show), s)
  {
    RunTracks(config, cap, ops, show);
    TrackerKnowsEachSignal(TradesOf(Start(config, cap), ops, show), s);
  }

  lemma {:induction false} RightCallsAreTrades(trades: seq<Closed>, s: Signal)
    ensures |RightCalls(trades, s)| <= |trades|
  {
    if trades == [] {
      assert RightCalls(trades, s) == {};
    } else {
      RightCallsAreTrades(trades[..|trades| - 1], s);
      RightStep(trades, s);
    }
  }

  /** An observation of any run is earned on its trades: at least thirty closed, and its own signal
      right in six tenths of them and not losing money on its parts - or right in at most four tenths,
      or losing. */
  lemma ObservedFromTrades(config: CognitiveConfig, cap: Option<nat>, ops: seq<Op>, show: Show, o: Observation)
    requires o in Observe(Run(Start(config, cap), ops, show).tracker)
    ensures var trades := TradesOf(Start(config, cap), ops, show);
      && |trades| >= 30
      && EarnedOn(o, |RightCalls(trades, o.signal)| as real / |trades| as real, ExactParts(trades, o.signal),
                  HALF_MICRO * (Allowance(trades) + 1.0))
  {
    var trades := TradesOf(Start(config, cap), ops, show);
    RunKnowsEachSignal(config, cap, ops, show, o.signal);
    RightCallsAreTrades(trades, o.signal);
    ObservationsAreEarned(Run(Start(config, cap), ops, show).tracker, o);
    EarnedByTrades(o, Run(Start(config, cap), ops, show).tracker.At(o.signal), trades);
  }

  lemma EarnedByTrades(o: Observation, acc: Acc, trades: seq<Closed>)
    requires Knows(acc, trades, o.signal) && Earned(o, acc)
    ensures |trades| >= 30
    ensures EarnedOn(o, |RightCalls(trades, o.signal)| as real / |trades| as real, ExactParts(trades, o.signal),
                     HALF_MICRO * (Allowance(trades) + 1.0))
  {
  }

  ghost predicate EarnedOn(o: Observation, rate: real, money: real, margin: real) {
    if o.outperforming then rate >= 0.6 - HALF_MICRO && money >= -margin
    else rate <= 0.4 + HALF_MICRO || money < margin
  }
}
