/** cognitive/learning.py: PnL attribution, importance metadata, observations. */
module Learning {
  import opened Rounding
  import opened Config

  function Abs(x: real): real {
    if x >= 0.0 then x else -x
  }

  function Sign(x: real): int {
    if x > 0.0 then 1 else if x < 0.0 then -1 else 0
  }

  datatype Attribution = Attribution(
    contributions: PerSignal<real>, shares: PerSignal<real>, pnlAttribution: PerSignal<real>, realizedPnl: real)

  function Total(c: PerSignal<real>): real {
    Abs(c.news) + Abs(c.tech) + Abs(c.macro)
  }

  function SumOf(c: PerSignal<real>): real {
    c.news + c.tech + c.macro
  }

  function Exact(c: real, total: real): (share: real)
    requires total > 0.0
    ensures share * total == Abs(c)
  {
    Abs(c) / total
  }

  function Share(c: real, total: real): real {
    if total > 0.0 then Round(Exact(c, total), GRID6) else 0.0
  }

  function Part(share: real, pnl: real): real {
    share * pnl
  }

  function Paid(share: real, pnl: real): real {
    Round(Part(share, pnl), GRID6)
  }

  /** Splits realised PnL by each signal's share of the absolute contributions. */
  function Attribute(breakdown: PerSignal<real>, realizedPnl: real): Attribution {
    var total := Total(breakdown);
    var shares := PerSignal(Share(breakdown.news, total), Share(breakdown.tech, total), Share(breakdown.macro, total));
    Attribution(breakdown, shares,
                PerSignal(Paid(shares.news, realizedPnl), Paid(shares.tech, realizedPnl),
                          Paid(shares.macro, realizedPnl)),
                Round(realizedPnl, GRID6))
  }

  // ---------------------------------------------------------------- attribution loses almost nothing

  lemma AbsBound(x: real, bound: real)
    requires -bound <= x <= bound
    ensures Abs(x) <= bound
  {
  }

  lemma AbsChain(r: real, m: real, e: real, a: real, b: real)
    requires Abs(r - m) <= a && Abs(m - e) <= b
    ensures Abs(r - e) <= a + b
  {
  }

  lemma AbsSum3(a: real, b: real, c: real, x: real, y: real, z: real, bound: real)
    requires Abs(a - x) <= bound && Abs(b - y) <= bound && Abs(c - z) <= bound
    ensures Abs(a + b + c - (x + y + z)) <= 3.0 * bound
  {
  }

  lemma Negated(a: real, b: real)
    ensures a * (-b) == -(a * b) && (-a) * b == -(a * b)
  {
  }

  lemma AbsTimes(e: real, bound: real, p: real)
    requires Abs(e) <= bound
    ensures Abs(Part(e, p)) <= Part(bound, Abs(p))
  {
    var m := Abs(p);
    MultiplyMono(e, bound, m);
    MultiplyMono(-bound, e, m);
    Negated(bound, m);
    Negated(e, p);
    AbsBound(Part(e, m), Part(bound, m));
  }

  lemma MicroRound(x: real)
    ensures Abs(Round(x, GRID6) - x) <= HALF_MICRO
  {
    RoundNear(x, GRID6);
    AbsBound(Round(x, GRID6) - x, HALF_MICRO);
  }

  lemma ExactShares(c: PerSignal<real>)
    requires Total(c) > 0.0
    ensures Exact(c.news, Total(c)) + Exact(c.tech, Total(c)) + Exact(c.macro, Total(c)) == 1.0
  {
    var t := Total(c);
    AddQuotients(Abs(c.news), Abs(c.tech), t);
    AddQuotients(Abs(c.news) + Abs(c.tech), Abs(c.macro), t);
    IsQuotient(t, t, 1.0);
  }

  /** What one signal is paid differs from its exact part of the PnL by at most half a micro-unit
      of share, plus half a micro-unit of money. */
  ghost predicate NearlyPaid(part: real, paid: real, size: real) {
    Abs(paid - part) <= HALF_MICRO * size + HALF_MICRO
  }

  lemma PartDifference(share: real, exact: real, p: real)
    requires Abs(share - exact) <= HALF_MICRO
    ensures Abs(Part(share, p) - Part(exact, p)) <= HALF_MICRO * Abs(p)
  {
    AbsTimes(share - exact, HALF_MICRO, p);
    PartsAdd(share - exact, exact, p);
  }

  lemma PartsAdd(x: real, y: real, p: real)
    ensures Part(x + y, p) == Part(x, p) + Part(y, p)
  {
  }

  lemma SharePaid(c: real, total: real, p: real)
    requires total > 0.0
    ensures NearlyPaid(Part(Exact(c, total), p), Paid(Share(c, total), p), Abs(p))
  {
    var exact, share := Exact(c, total), Share(c, total);
    MicroRound(exact);
    MicroRound(Part(share, p));
    PartDifference(share, exact, p);
    AbsChain(Paid(share, p), Part(share, p), Part(exact, p), HALF_MICRO, HALF_MICRO * Abs(p));
  }

  lemma ThreeSignals(a: real, b: real, c: real, x: real, y: real, z: real, p: real, size: real)
    requires x + y + z == p && NearlyPaid(x, a, size) && NearlyPaid(y, b, size) && NearlyPaid(z, c, size)
    ensures Abs(a + b + c - p) <= 3.0 * HALF_MICRO * (size + 1.0)
  {
    AbsSum3(a, b, c, x, y, z, HALF_MICRO * size + HALF_MICRO);
  }

  lemma PartsAddUp(c: PerSignal<real>, p: real)
    requires Total(c) > 0.0
    ensures var t := Total(c);
      Part(Exact(c.news, t), p) + Part(Exact(c.tech, t), p) + Part(Exact(c.macro, t), p) == p
  {
    var t := Total(c);
    ExactShares(c);
    var x, y, z := Exact(c.news, t), Exact(c.tech, t), Exact(c.macro, t);
    PartsAdd(x, y, p);
    PartsAdd(x + y, z, p);
    assert Part(1.0, p) == p;
  }

  lemma NothingToAttribute(p: real)
    ensures Paid(0.0, p) == 0.0
  {
    assert 0.0 * p == 0.0 && 0.0 == GridValue(0, GRID6);
    RoundFixed(0.0, GRID6);
  }

  lemma SpreadError(breakdown: PerSignal<real>, p: real)
    requires Total(breakdown) > 0.0
    ensures var t := Total(breakdown);
      Abs(Paid(Share(breakdown.news, t), p) + Paid(Share(breakdown.tech, t), p) +
        Paid(Share(breakdown.macro, t), p) - p)
      <= 3.0 * HALF_MICRO * (Abs(p) + 1.0)
  {
    var t := Total(breakdown);
    PartsAddUp(breakdown, p);
    SharePaid(breakdown.news, t, p);
    SharePaid(breakdown.tech, t, p);
    SharePaid(breakdown.macro, t, p);
    ThreeSignals(Paid(Share(breakdown.news, t), p), Paid(Share(breakdown.tech, t), p),
                 Paid(Share(breakdown.macro, t), p),
                 Part(Exact(breakdown.news, t), p), Part(Exact(breakdown.tech, t), p),
                   Part(Exact(breakdown.macro, t), p),
                 p, Abs(p));
  }

  /** The three attributed amounts add up to the realised PnL within 1.5e-6 (|pnl| + 1) - unless
      nothing contributed to the decision, when nothing at all is attributed. */
  lemma AttributionError(breakdown: PerSignal<real>, p: real)
    ensures Total(breakdown) > 0.0 ==>
      Abs(SumOf(Attribute(breakdown, p).pnlAttribution) - p) <= 3.0 * HALF_MICRO * (Abs(p) + 1.0)
    ensures Total(breakdown) == 0.0 ==> SumOf(Attribute(breakdown, p).pnlAttribution) == 0.0
  {
    if Total(breakdown) > 0.0 {
      SpreadError(breakdown, p);
    } else {
      NothingToAttribute(p);
    }
  }

  /** A signal's part of a PnL, by the size of its contribution. */
  function ExactPart(breakdown: PerSignal<real>, p: real, s: Signal): real {
    if Total(breakdown) > 0.0 then Part(Exact(breakdown.At(s), Total(breakdown)), p) else 0.0
  }

  /** Each signal is paid for its own contribution: its part of the PnL is the size of its
      contribution among all three, to within half a micro-unit of (|pnl| + 1), and exactly nothing
      if it contributed nothing. */
  lemma EachSignalIsPaid(breakdown: PerSignal<real>, p: real, s: Signal)
    ensures PaidFor(Attribute(breakdown, p).pnlAttribution.At(s), breakdown, p, s)
    ensures Attribute(breakdown, p).contributions.At(s) == breakdown.At(s)
    ensures if Total(breakdown) > 0.0
            then Abs(Attribute(breakdown, p).shares.At(s) - Exact(breakdown.At(s), Total(breakdown))) <= HALF_MICRO
            else Attribute(breakdown, p).shares.At(s) == 0.0
  {
    ShareAt(breakdown, p, s);
    PaidAt(breakdown, p, s);
    PaidForShare(breakdown, p, s, Paid(Share(breakdown.At(s), Total(breakdown)), p));
  }

  lemma PaidForShare(breakdown: PerSignal<real>, p: real, s: Signal, paid: real)
    requires paid == Paid(Share(breakdown.At(s), Total(breakdown)), p)
    ensures PaidFor(paid, breakdown, p, s)
  {
    var total := Total(breakdown);
    if total > 0.0 {
      SharePaid(breakdown.At(s), total, p);
      ZeroIsPaidNothing(breakdown.At(s), total, p);
    } else {
      NothingToAttribute(p);
    }
  }

  ghost predicate PaidFor(paid: real, breakdown: PerSignal<real>, p: real, s: Signal) {
    && NearlyPaid(ExactPart(breakdown, p, s), paid, Abs(p))
    && (breakdown.At(s) == 0.0 ==> paid == 0.0)
  }

  lemma ShareAt(breakdown: PerSignal<real>, p: real, s: Signal)
    ensures var share := Attribute(breakdown, p).shares.At(s);
      if Total(breakdown) > 0.0 then Abs(share - Exact(breakdown.At(s), Total(breakdown))) <= HALF_MICRO
      else share == 0.0
  {
    if Total(breakdown) > 0.0 {
      MicroRound(Exact(breakdown.At(s), Total(breakdown)));
    }
  }

  lemma PaidAt(breakdown: PerSignal<real>, p: real, s: Signal)
    ensures Attribute(breakdown, p).pnlAttribution.At(s) == Paid(Share(breakdown.At(s), Total(breakdown)), p)
  {
  }

  lemma ZeroIsPaidNothing(c: real, total: real, p: real)
    requires total > 0.0
    ensures c == 0.0 ==> Paid(Share(c, total), p) == 0.0
  {
    if c == 0.0 {
      IsQuotient(0.0, total, 0.0);
      assert 0.0 == GridValue(0, GRID6);
      RoundFixed(0.0, GRID6);
      NothingToAttribute(p);
    }
  }

  // ---------------------------------------------------------------- the tracker

  datatype Acc = Acc(samples: nat, absContribution: real, pnl: real, correct: nat)

  const NO_SAMPLES := Acc(0, 0.0, 0.0, 0)
  const EMPTY_TRACKER: PerSignal<Acc> := PerSignal(NO_SAMPLES, NO_SAMPLES, NO_SAMPLES)

  function FoldSignal(acc: Acc, contribution: real, pnl: real, outcomeSign: int): Acc {
    var sign := Sign(contribution);
    Acc(acc.samples + 1, acc.absContribution + Abs(contribution), acc.pnl + pnl,
        acc.correct + if sign != 0 && sign == outcomeSign then 1 else 0)
  }

  function FoldTrade(tracker: PerSignal<Acc>, a: Attribution, outcomeSign: int): PerSignal<Acc> {
    PerSignal(FoldSignal(tracker.news, a.contributions.news, a.pnlAttribution.news, outcomeSign),
              FoldSignal(tracker.tech, a.contributions.tech, a.pnlAttribution.tech, outcomeSign),
              FoldSignal(tracker.macro, a.contributions.macro, a.pnlAttribution.macro, outcomeSign))
  }

  class ImportanceTracker {
    var acc: PerSignal<Acc>

    constructor ()
      ensures acc == EMPTY_TRACKER
    {
      acc := EMPTY_TRACKER;
    }

    /** Every signal takes one more sample; it was right if its contribution had the outcome's sign. */
    method Update(a: Attribution, outcomeSign: int)
      modifies this
      ensures acc == FoldTrade(old(acc), a, outcomeSign)
    {
      for i := 0 to |WEIGHT_KEYS|
        invariant forall s: Signal :: s in WEIGHT_KEYS[..i] ==>
          acc.At(s) == FoldSignal(old(acc).At(s), a.contributions.At(s), a.pnlAttribution.At(s), outcomeSign)
        invariant forall s: Signal :: s !in WEIGHT_KEYS[..i] ==> acc.At(s) == old(acc).At(s)
      {
        var key := WEIGHT_KEYS[i];
        assert WEIGHT_KEYS[..i + 1] == WEIGHT_KEYS[..i] + [key];
        assert forall j, k :: 0 <= j < k < |WEIGHT_KEYS| ==> WEIGHT_KEYS[j] != WEIGHT_KEYS[k];
        acc := acc.With(key, FoldSignal(acc.At(key), a.contributions.At(key), a.pnlAttribution.At(key), outcomeSign));
      }
      assert WEIGHT_KEYS[0] == News && WEIGHT_KEYS[1] == Tech && WEIGHT_KEYS[2] == Macro;
      assert WEIGHT_KEYS[..|WEIGHT_KEYS|] == WEIGHT_KEYS;
      assert acc.At(News) == FoldSignal(old(acc).At(News), a.contributions.At(News), a.pnlAttribution.At(News),
                                        outcomeSign);
      assert acc.At(Tech) == FoldSignal(old(acc).At(Tech), a.contributions.At(Tech), a.pnlAttribution.At(Tech),
                                        outcomeSign);
      assert acc.At(Macro) == FoldSignal(old(acc).At(Macro), a.contributions.At(Macro), a.pnlAttribution.At(Macro),
                                         outcomeSign);
    }
  }

  /** A closed trade as `close_trade` sees it. */
  datatype Closed = Closed(breakdown: PerSignal<real>, realizedPnl: real)

  function Track(trades: seq<Closed>): PerSignal<Acc> {
    if trades == [] then EMPTY_TRACKER
    else
      var last := trades[|trades| - 1];
      FoldTrade(Track(trades[..|trades| - 1]), Attribute(last.breakdown, last.realizedPnl), Sign(last.realizedPnl))
  }

  function Attributed(tracker: PerSignal<Acc>): real {
    tracker.news.pnl + tracker.tech.pnl + tracker.macro.pnl
  }

  function Realized(trades: seq<Closed>): real {
    if trades == [] then 0.0 else Realized(trades[..|trades| - 1]) + trades[|trades| - 1].realizedPnl
  }

  function Allowance(trades: seq<Closed>): real {
    if trades == [] then 0.0 else Allowance(trades[..|trades| - 1]) + (Abs(trades[|trades| - 1].realizedPnl) + 1.0)
  }

  /** Over any list of trades with non-zero breakdowns the accumulated attributions stay within
      1.5e-6 times the summed (|pnl| + 1) of the accumulated realised PnL. */
  lemma {:induction false} AttributionErrorOverRuns(trades: seq<Closed>)
    requires forall t :: t in trades ==> Total(t.breakdown) > 0.0
    ensures Abs(Attributed(Track(trades)) - Realized(trades)) <= 3.0 * HALF_MICRO * Allowance(trades)
  {
    if trades != [] {
      var front, last := trades[..|trades| - 1], trades[|trades| - 1];
      assert last in trades && forall t :: t in front ==> t in trades;
      AttributionErrorOverRuns(front);
      AttributionError(last.breakdown, last.realizedPnl);
      var a := SumOf(Attribute(last.breakdown, last.realizedPnl).pnlAttribution);
      AbsChain(Attributed(Track(trades)) - Realized(trades), Attributed(Track(front)) - Realized(front), 0.0,
               3.0 * HALF_MICRO * (Abs(last.realizedPnl) + 1.0), 3.0 * HALF_MICRO * Allowance(front));
    }
  }

  /** The exact parts of one signal, over a list of trades. */
  function ExactParts(trades: seq<Closed>, s: Signal): real {
    if trades == [] then 0.0
    else
      var last := trades[|trades| - 1];
      ExactParts(trades[..|trades| - 1], s) + ExactPart(last.breakdown, last.realizedPnl, s)
  }

  function Sizes(trades: seq<Closed>, s: Signal): real {
    if trades == [] then 0.0 else Sizes(trades[..|trades| - 1], s) + Abs(trades[|trades| - 1].breakdown.At(s))
  }

  /** The trades in which the signal pointed the way the money went. */
  ghost function RightCalls(trades: seq<Closed>, s: Signal): set<nat> {
    set k: nat | k < |trades| && SameWay(trades[k].breakdown.At(s), trades[k].realizedPnl)
  }

  ghost predicate SameWay(contribution: real, pnl: real) {
    (contribution > 0.0 && pnl > 0.0) || (contribution < 0.0 && pnl < 0.0)
  }

  /** What the tracker holds of each signal: one sample per trade, the trades it called right, the
      sizes of its contributions, and its own exact parts of the PnLs within half a micro-unit of the
      summed (|pnl| + 1). */
  lemma {:induction false} TrackerKnowsEachSignal(trades: seq<Closed>, s: Signal)
    ensures Knows(Track(trades).At(s), trades, s)
  {
    if trades == [] {
      assert RightCalls(trades, s) == {};
    } else {
      var n := |trades| - 1;
      var front, last := trades[..n], trades[n];
      TrackerKnowsEachSignal(front, s);
      var a := Attribute(last.breakdown, last.realizedPnl);
      EachSignalIsPaid(last.breakdown, last.realizedPnl, s);
      var paid := a.pnlAttribution.At(s);
      TrackStep(trades, s);
      KnowsMore(trades, s, Track(front).At(s), paid);
    }
  }

  ghost predicate Knows(acc: Acc, trades: seq<Closed>, s: Signal) {
    && acc.samples == |trades| && acc.correct == |RightCalls(trades, s)| && acc.absContribution == Sizes(trades, s)
    && Abs(acc.pnl - ExactParts(trades, s)) <= HALF_MICRO * Allowance(trades)
  }

  lemma TrackStep(trades: seq<Closed>, s: Signal)
    requires trades != []
    ensures var last := trades[|trades| - 1];
      Track(trades).At(s) ==
        FoldSignal(Track(trades[..|trades| - 1]).At(s), last.breakdown.At(s),
                   Attribute(last.breakdown, last.realizedPnl).pnlAttribution.At(s), Sign(last.realizedPnl))
  {
  }

  lemma KnowsMore(trades: seq<Closed>, s: Signal, acc: Acc, paid: real)
    requires trades != []
    requires Knows(acc, trades[..|trades| - 1], s)
    requires var last := trades[|trades| - 1]; PaidFor(paid, last.breakdown, last.realizedPnl, s)
    ensures var last := trades[|trades| - 1];
      Knows(FoldSignal(acc, last.breakdown.At(s), paid, Sign(last.realizedPnl)), trades, s)
  {
    var n := |trades| - 1;
    var front, last := trades[..n], trades[n];
    var c, p := last.breakdown.At(s), last.realizedPnl;
    RightStep(trades, s);
    AbsStep(acc.pnl, ExactParts(front, s), paid, ExactPart(last.breakdown, p, s), Allowance(front), Abs(p) + 1.0);
  }

  lemma RightStep(trades: seq<Closed>, s: Signal)
    requires trades != []
    ensures var last := trades[|trades| - 1];
      |RightCalls(trades, s)| ==
        |RightCalls(trades[..|trades| - 1], s)|
        + if SameWay(last.breakdown.At(s), last.realizedPnl) then 1 else 0
  {
    var n := |trades| - 1;
    var front, last := trades[..n], trades[n];
    assert RightCalls(trades, s) == RightCalls(front, s) +
        if SameWay(last.breakdown.At(s), last.realizedPnl) then {n} else {};
  }

  lemma AbsStep(a: real, x: real, b: real, y: real, m: real, n: real)
    requires Abs(a - x) <= HALF_MICRO * m && Abs(b - y) <= HALF_MICRO * n
    ensures Abs(a + b - (x + y)) <= HALF_MICRO * (m + n)
  {
  }

  // ---------------------------------------------------------------- reconstructing from events

  /** Rounding to the six places of the event keeps a PnL's sign iff it is zero or more than half
      a micro-unit. */
  lemma SignSurvivesIff(p: real)
    ensures Sign(Round(p, GRID6)) == Sign(p) <==> p == 0.0 || Abs(p) > HALF_MICRO
  {
    var q := p * GRID6;
    RoundScaled(p, GRID6, q);
    var n := RoundToInt(q);
    assert Round(p, GRID6) == n as real / GRID6;
    RoundToIntNear(q);
    if 0.0 < p <= HALF_MICRO {
      assert 0.0 < q <= 0.5 && q.Floor == 0;
    } else if -HALF_MICRO <= p < 0.0 {
      assert -0.5 <= q < 0.0 && q.Floor == -1;
    }
  }

  /** Folding the events (whose outcome is rounded) instead of the trade gives the same tracker iff
      the sign survives or no contribution pointed the way of the outcome anyway. */
  lemma EventFoldAgreesIff(tracker: PerSignal<Acc>, breakdown: PerSignal<real>, p: real)
    ensures var a := Attribute(breakdown, p);
      FoldTrade(tracker, a, Sign(a.realizedPnl)) == FoldTrade(tracker, a, Sign(p)) <==>
        p == 0.0 || Abs(p) > HALF_MICRO
        || (Sign(breakdown.news) != Sign(p) && Sign(breakdown.tech) != Sign(p) && Sign(breakdown.macro) != Sign(p))
  {
    SignSurvivesIff(p);
    var a := Attribute(breakdown, p);
    if p != 0.0 && Abs(p) <= HALF_MICRO {
      TinyRoundsToZero(p);
    }
  }

  lemma TinyRoundsToZero(p: real)
    requires p != 0.0 && Abs(p) <= HALF_MICRO
    ensures Sign(Round(p, GRID6)) == 0
  {
    var q := p * GRID6;
    RoundScaled(p, GRID6, q);
    if p > 0.0 {
      assert 0.0 < q <= 0.5 && q.Floor == 0;
    } else {
      assert -0.5 <= q < 0.0 && q.Floor == -1;
    }
  }

  // ---------------------------------------------------------------- observations

  datatype Stats = Stats(samples: nat, totalPnl: real, correctRate: real)

  function Metadata(acc: Acc): Stats {
    Stats(acc.samples, Round(acc.pnl, GRID6),
          if acc.samples == 0 then 0.0 else Round(acc.correct as real / acc.samples as real, GRID6))
  }

  const MIN_SAMPLES := 30
  const OUTPERFORM_RATE := 0.60
  const UNDERPERFORM_RATE := 0.40

  datatype Observation = Observation(signal: Signal, confidence: real, outperforming: bool)

  function Clamp01(x: real): real {
    if x < 0.0 then 0.0 else if x > 1.0 then 1.0 else x
  }

  function Confidence(stats: Stats): real {
    var effect := Abs(stats.correctRate - 0.5) * 2.0;
    var coverage := Clamp01(stats.samples as real / 90.0);
    Round(Clamp01(0.6 * effect + 0.4 * coverage), GRID2)
  }

  function ObserveSignal(signal: Signal, stats: Stats): seq<Observation> {
    if stats.samples < MIN_SAMPLES then []
    else if stats.correctRate >= OUTPERFORM_RATE && stats.totalPnl >= 0.0 then
      [Observation(signal, Confidence(stats), true)]
    else if stats.correctRate <= UNDERPERFORM_RATE || stats.totalPnl < 0.0 then
      [Observation(signal, Confidence(stats), false)]
    else []
  }

  function Observe(tracker: PerSignal<Acc>): seq<Observation> {
    ObserveSignal(News, Metadata(tracker.news))
    + ObserveSignal(Tech, Metadata(tracker.tech))
    + ObserveSignal(Macro, Metadata(tracker.macro))
  }

  /** The record of a signal behind an observation, from the unrounded tallies: at least 30 samples, and
      right in six tenths of them without a loss - or right in at most four tenths, or at a loss.  The
      rounding of the statistics lets through what misses a mark by half a micro-unit. */
  ghost predicate Earned(o: Observation, acc: Acc) {
    && acc.samples >= 30
    && var rate := acc.correct as real / acc.samples as real;
       if o.outperforming then rate >= 0.6 - HALF_MICRO && acc.pnl >= -HALF_MICRO
       else rate <= 0.4 + HALF_MICRO || acc.pnl < 0.0
  }

  /** Six tenths for how far the signal is from a coin toss, four tenths for the samples up to 90. */
  ghost predicate Weighted(o: Observation, acc: Acc)
    requires acc.samples > 0
  {
    var rate := acc.correct as real / acc.samples as real;
    var effect := 2.0 * Abs(rate - 0.5);
    var coverage := if acc.samples >= 90 then 1.0 else acc.samples as real / 90.0;
    Abs(o.confidence - (0.6 * effect + 0.4 * coverage)) <= 0.005001
  }

  lemma CorrectRateIs(acc: Acc)
    requires acc.samples > 0
    ensures var rate := acc.correct as real / acc.samples as real; var shown := Metadata(acc).correctRate;
      && Abs(shown - rate) <= HALF_MICRO
      && (rate >= 0.6 ==> shown >= 0.6) && (rate <= 0.4 ==> shown <= 0.4)
      && (acc.correct <= acc.samples ==> 0.0 <= shown <= 1.0)
  {
    var n, k := acc.samples as real, acc.correct as real;
    var rate := k / n;
    MicroRound(rate);
    SixAndFourTenths();
    if rate >= 0.6 {
      RoundMono(0.6, rate, GRID6);
    }
    if rate <= 0.4 {
      RoundMono(rate, 0.4, GRID6);
    }
    if acc.correct <= acc.samples {
      DivideMono(k, n, n);
      DivideMono(0.0, k, n);
      IsQuotient(n, n, 1.0);
      UnitOnGrid4();
      RoundWithin(rate, 0.0, 1.0, GRID6);
    }
  }

  lemma SixAndFourTenths()
    ensures Round(0.6, GRID6) == 0.6 && Round(0.4, GRID6) == 0.4
  {
    assert 0.6 == GridValue(600_000, GRID6) && 0.4 == GridValue(400_000, GRID6);
    RoundFixed(0.6, GRID6);
    RoundFixed(0.4, GRID6);
  }

  lemma TotalPnlIs(acc: Acc)
    ensures var shown := Metadata(acc).totalPnl;
      Abs(shown - acc.pnl) <= HALF_MICRO && (acc.pnl >= 0.0 ==> shown >= 0.0) && (shown < 0.0 ==> acc.pnl < 0.0)
  {
    MicroRound(acc.pnl);
    UnitOnGrid4();
    RoundFixed(0.0, GRID6);
    if acc.pnl >= 0.0 {
      RoundMono(0.0, acc.pnl, GRID6);
    }
  }

  lemma ObservedOne(tracker: PerSignal<Acc>, o: Observation)
    requires o in Observe(tracker)
    ensures ObserveSignal(o.signal, Metadata(tracker.At(o.signal))) == [o]
  {
  }

  /** Every observation is earned by the record of its own signal, and as confident as that record
      is long and one-sided. */
  lemma ObservationsAreEarned(tracker: PerSignal<Acc>, o: Observation)
    requires o in Observe(tracker) && tracker.At(o.signal).correct <= tracker.At(o.signal).samples
    ensures Earned(o, tracker.At(o.signal)) && Weighted(o, tracker.At(o.signal))
  {
    var acc := tracker.At(o.signal);
    ObservedOne(tracker, o);
    CorrectRateIs(acc);
    TotalPnlIs(acc);
    ConfidenceIs(o, acc);
  }

  lemma ConfidenceIs(o: Observation, acc: Acc)
    requires acc.samples > 0 && acc.correct <= acc.samples && o.confidence == Confidence(Metadata(acc))
    ensures Weighted(o, acc)
  {
    var stats := Metadata(acc);
    CorrectRateIs(acc);
    var raw := 0.6 * (Abs(stats.correctRate - 0.5) * 2.0) + 0.4 * Clamp01(acc.samples as real / 90.0);
    RoundNear(Clamp01(raw), GRID2);
    AbsBound(o.confidence - raw, 0.005);
  }

  /** A clear record is observed: 30 samples, six tenths right and no loss make the signal
      outperforming; a loss of more than half a micro-unit, or at most four tenths right without
      both, underperforming. */
  lemma ClearRecordsAreObserved(tracker: PerSignal<Acc>, s: Signal)
    requires tracker.At(s).samples >= 30
    ensures var acc := tracker.At(s); var rate := acc.correct as real / acc.samples as real;
      && (rate >= 0.6 && acc.pnl >= 0.0 ==>
            exists o :: o in Observe(tracker) && o.signal == s && o.outperforming)
      && (acc.pnl < -HALF_MICRO || rate <= 0.4 ==>
            exists o :: o in Observe(tracker) && o.signal == s && !o.outperforming)
  {
    var acc := tracker.At(s);
    CorrectRateIs(acc);
    TotalPnlIs(acc);
    var seen := ObserveSignal(s, Metadata(acc));
    if seen != [] {
      SeenIsObserved(tracker, s, seen[0]);
    }
  }

  lemma SeenIsObserved(tracker: PerSignal<Acc>, s: Signal, o: Observation)
    requires ObserveSignal(s, Metadata(tracker.At(s))) == [o]
    ensures o in Observe(tracker)
  {
    var observed := Observe(tracker);
    var news, tech := ObserveSignal(News, Metadata(tracker.news)), ObserveSignal(Tech, Metadata(tracker.tech));
    var k := if s.News? then 0 else if s.Tech? then |news| else |news| + |tech|;
    assert observed[k] == o;
  }

  /** `LearningEngine.observe`: at most one observation per signal, in their order. */
  method CollectObservations(tracker: PerSignal<Acc>) returns (observations: seq<Observation>)
    ensures observations == Observe(tracker)
  {
    observations := [];
    for i := 0 to |WEIGHT_KEYS|
      invariant observations == ObservedSoFar(tracker, i)
    {
      var signal := WEIGHT_KEYS[i];
      var stats := Metadata(tracker.At(signal));
      if stats.samples >= MIN_SAMPLES {
        if stats.correctRate >= OUTPERFORM_RATE && stats.totalPnl >= 0.0 {
          observations := observations + [Observation(signal, Confidence(stats), true)];
        } else if stats.correctRate <= UNDERPERFORM_RATE || stats.totalPnl < 0.0 {
          observations := observations + [Observation(signal, Confidence(stats), false)];
        }
      }
    }
    AllObserved(tracker);
  }

  function ObservedSoFar(tracker: PerSignal<Acc>, n: nat): seq<Observation>
    requires n <= |WEIGHT_KEYS|
  {
    if n == 0 then []
    else ObservedSoFar(tracker, n - 1) + ObserveSignal(WEIGHT_KEYS[n - 1], Metadata(tracker.At(WEIGHT_KEYS[n - 1])))
  }

  lemma AllObserved(tracker: PerSignal<Acc>)
    ensures ObservedSoFar(tracker, 3) == Observe(tracker)
  {
    assert ObservedSoFar(tracker, 1) == ObserveSignal(News, Metadata(tracker.news));
    assert ObservedSoFar(tracker, 2) == ObservedSoFar(tracker, 1) + ObserveSignal(Tech, Metadata(tracker.tech));
  }
}
