/** What both backtest loops have in common: a stream of BUY / SELL / HOLD decisions
    cut into alternating long and short lots, and the compounding of their growth factors. */
module Trades {
  datatype Action = Buy | Sell | Hold

  type Price = p: real | p > 0.0 witness 1.0

  /** One uniform draw of the slippage generator; 0.0 stands for a frictionless fill. */
  const SLIPPAGE_MIN_PCT := 0.0001
  const SLIPPAGE_MAX_PCT := 0.0005
  type Slip = s: real | 0.0 <= s <= SLIPPAGE_MAX_PCT
  type Draws = nat -> Slip

  const NO_SLIPPAGE: Draws := (k: nat) => 0.0

  ghost predicate ProductionDraws(slip: Draws) {
    forall k: nat :: SLIPPAGE_MIN_PCT <= slip(k)
  }

  /** Buys (direction > 0) slip up, sells slip down. */
  function Fill(price: Price, direction: int, slip: Slip): (fill: Price)
    ensures direction > 0 ==> price <= fill
    ensures direction <= 0 ==> fill <= price
  {
    var signed: real := if direction > 0 then slip else 0.0 - slip;
    var factor := 1.0 + signed;
    FillBounds(price, factor);
    price * factor
  }

  lemma FillBounds(price: Price, factor: real)
    requires 0.0 < factor
    ensures 0.0 < price * factor
    ensures factor >= 1.0 ==> price <= price * factor
    ensures factor <= 1.0 ==> price * factor <= price
  {
    assert price * (factor - 1.0) == price * factor - price;
  }

  /** A larger draw is a worse fill. */
  lemma FillMonotone(price: Price, direction: int, a: Slip, b: Slip)
    requires a <= b
    ensures direction > 0 ==> Fill(price, direction, a) <= Fill(price, direction, b)
    ensures direction <= 0 ==> Fill(price, direction, b) <= Fill(price, direction, a)
    ensures direction > 0 && a < b ==> Fill(price, direction, a) < Fill(price, direction, b)
    ensures direction <= 0 && a < b ==> Fill(price, direction, b) < Fill(price, direction, a)
  {
    assert price * (1.0 + b) - price * (1.0 + a) == price * (b - a);
    assert price * (1.0 - a) - price * (1.0 - b) == price * (b - a);
    assert price * (b - a) >= 0.0;
    if a < b {
      assert price * (b - a) > 0.0;
    }
  }

  /** Entering and leaving at the same price costs the sum of the two draws in parts of that price,
      in either direction. */
  lemma RoundTripCost(price: Price, dir: int, entering: Slip, leaving: Slip)
    requires dir == 1 || dir == -1
    ensures dir as real * (Fill(price, -dir, leaving) - Fill(price, dir, entering)) == -(entering + leaving) * price
  {
  }

  // ---------------------------------------------------------------- lots

  function DirOf(action: Action): int
    requires !action.Hold?
  {
    if action.Buy? then 1 else -1
  }

  /** A position opened at `bar`. */
  datatype Lot = Lot(bar: nat, dir: int)

  function LastDir(lots: seq<Lot>): int {
    if lots == [] then 0 else lots[|lots| - 1].dir
  }

  /** The lots the flip rule opens: a non-HOLD decision that is not the current direction. */
  function Lots(actions: seq<Action>): seq<Lot> {
    if actions == [] then []
    else
      var earlier := Lots(actions[..|actions| - 1]);
      var last := actions[|actions| - 1];
      if last.Hold? || DirOf(last) == LastDir(earlier) then earlier
      else earlier + [Lot(|actions| - 1, DirOf(last))]
  }

  ghost predicate Alternating(lots: seq<Lot>) {
    && (forall k :: 0 <= k < |lots| ==> lots[k].dir == 1 || lots[k].dir == -1)
    && (forall j, k :: 0 <= j < |lots| - 1 && k == j + 1 ==> lots[k].dir == -lots[j].dir && lots[j].bar < lots[k].bar)
  }

  /** j is the latest BUY or SELL decision before bar `hi`. */
  ghost predicate LatestSignal(actions: seq<Action>, j: nat, hi: nat)
    requires hi <= |actions|
  {
    j < hi && !actions[j].Hold? && AllHold(actions, j + 1, hi)
  }

  ghost predicate AllHold(actions: seq<Action>, lo: nat, hi: nat)
    requires hi <= |actions|
  {
    forall i :: lo <= i < hi ==> actions[i].Hold?
  }

  /** Direct reading of the flip rule: bar b opens a lot iff it decides BUY or SELL and the
      latest earlier signal, if there is one, was the other way. */
  ghost predicate OpensAt(actions: seq<Action>, b: nat)
    requires b < |actions|
  {
    !actions[b].Hold? && forall j: nat :: LatestSignal(actions, j, b) ==> actions[j] != actions[b]
  }

  lemma OpensAtPrefix(actions: seq<Action>, n: nat, b: nat)
    requires b < n <= |actions|
    ensures OpensAt(actions[..n], b) <==> OpensAt(actions, b)
  {
    forall j: nat
      ensures LatestSignal(actions[..n], j, b) <==> LatestSignal(actions, j, b)
    {
    }
    if OpensAt(actions[..n], b) {
      forall j: nat | LatestSignal(actions, j, b)
        ensures actions[j] != actions[b]
      {
        assert LatestSignal(actions[..n], j, b);
      }
    }
  }

  lemma LatestSignalUnique(actions: seq<Action>, i: nat, j: nat, hi: nat)
    requires hi <= |actions| && LatestSignal(actions, i, hi) && LatestSignal(actions, j, hi)
    ensures i == j
  {
  }

  /** The direction in force is that of the latest signal, so once there has been a signal
      the position is never flat again. */
  lemma {:induction false} LastDirIsLatestSignal(actions: seq<Action>) returns (j: int)
    ensures j == -1 ==> LastDir(Lots(actions)) == 0 && AllHold(actions, 0, |actions|)
    ensures j != -1 ==> 0 <= j < |actions| && LatestSignal(actions, j, |actions|)
    ensures j != -1 ==> LastDir(Lots(actions)) == DirOf(actions[j]) != 0
  {
    if actions == [] {
      return -1;
    }
    var n := |actions| - 1;
    if actions[n].Hold? {
      j := LastDirIsLatestSignal(actions[..n]);
      if j == -1 {
        assert forall i :: 0 <= i < n ==> actions[i] == actions[..n][i];
      } else {
        assert forall i :: j <= i < n ==> actions[i] == actions[..n][i];
      }
    } else {
      j := n;
    }
  }

  ghost predicate ReadsFlips(actions: seq<Action>, lots: seq<Lot>) {
    forall lot :: lot in lots <==>
      (lot.bar < |actions| && OpensAt(actions, lot.bar) && lot.dir == DirOf(actions[lot.bar]))
  }

  /** Lots are ordered, alternate in direction, and are exactly the flips of the decisions. */
  lemma {:induction false} LotsAreTheFlips(actions: seq<Action>)
    ensures Alternating(Lots(actions)) && ReadsFlips(actions, Lots(actions))
  {
    if actions != [] {
      var n := |actions| - 1;
      LotsAreTheFlips(actions[..n]);
      LastBarFlips(actions, Lots(actions[..n]));
    }
  }

  lemma LastBarOpens(actions: seq<Action>)
    requires actions != [] && !actions[|actions| - 1].Hold?
    ensures OpensAt(actions, |actions| - 1)
      <==> DirOf(actions[|actions| - 1]) != LastDir(Lots(actions[..|actions| - 1]))
  {
    var n := |actions| - 1;
    var j := LastDirIsLatestSignal(actions[..n]);
    if j == -1 {
      assert forall i: nat :: i < n ==> actions[i] == actions[..n][i];
    } else {
      assert forall i: nat :: i < n ==> actions[i] == actions[..n][i];
      assert LatestSignal(actions, j, n);
      forall i: nat | LatestSignal(actions, i, n) ensures i == j {
        LatestSignalUnique(actions, i, j, n);
      }
    }
  }

  lemma OneMoreBar(actions: seq<Action>, earlier: seq<Lot>, lot: Lot)
    requires actions != [] && ReadsFlips(actions[..|actions| - 1], earlier)
    ensures lot in earlier <==>
      (lot.bar < |actions| - 1 && OpensAt(actions, lot.bar) && lot.dir == DirOf(actions[lot.bar]))
  {
    if lot.bar < |actions| - 1 {
      OpensAtPrefix(actions, |actions| - 1, lot.bar);
    }
  }

  lemma LastBarFlips(actions: seq<Action>, earlier: seq<Lot>)
    requires actions != [] && earlier == Lots(actions[..|actions| - 1])
    requires Alternating(earlier) && ReadsFlips(actions[..|actions| - 1], earlier)
    ensures Alternating(Lots(actions)) && ReadsFlips(actions, Lots(actions))
  {
    LastBarAlternates(actions, earlier);
    if !actions[|actions| - 1].Hold? {
      LastBarOpens(actions);
    }
    forall lot
      ensures lot in Lots(actions) <==>
        (lot.bar < |actions| && OpensAt(actions, lot.bar) && lot.dir == DirOf(actions[lot.bar]))
    {
      OneMoreBar(actions, earlier, lot);
    }
  }

  lemma LastBarAlternates(actions: seq<Action>, earlier: seq<Lot>)
    requires actions != [] && earlier == Lots(actions[..|actions| - 1])
    requires Alternating(earlier) && ReadsFlips(actions[..|actions| - 1], earlier)
    ensures Alternating(Lots(actions))
  {
    var n := |actions| - 1;
    if !actions[n].Hold? && DirOf(actions[n]) != LastDir(earlier) {
      if earlier != [] {
        assert earlier[|earlier| - 1] in earlier;
      }
      AlternatingExtends(earlier, Lot(n, DirOf(actions[n])));
    }
  }

  lemma AlternatingExtends(earlier: seq<Lot>, lot: Lot)
    requires Alternating(earlier) && (lot.dir == 1 || lot.dir == -1) && lot.dir != LastDir(earlier)
    requires earlier != [] ==> earlier[|earlier| - 1].bar < lot.bar
    ensures Alternating(earlier + [lot])
  {
    var lots := earlier + [lot];
    assert forall k :: 0 <= k < |earlier| ==> lots[k] == earlier[k];
    assert lots[|earlier|] == lot;
  }

  /** BUY and SELL decisions, acted on or not. */
  function CountSignals(actions: seq<Action>): nat {
    if actions == [] then 0
    else CountSignals(actions[..|actions| - 1]) + if actions[|actions| - 1].Hold? then 0 else 1
  }

  /** One more bar: the lots and the signal count grow as the flip rule says. */
  lemma LotsStep(actions: seq<Action>, i: nat)
    requires i < |actions|
    ensures Lots(actions[..i + 1]) ==
      if actions[i].Hold? || DirOf(actions[i]) == LastDir(Lots(actions[..i])) then Lots(actions[..i])
      else Lots(actions[..i]) + [Lot(i, DirOf(actions[i]))]
  {
    assert actions[..i + 1][..i] == actions[..i];
  }

  lemma SignalsStep(actions: seq<Action>, i: nat)
    requires i < |actions|
    ensures CountSignals(actions[..i + 1]) == CountSignals(actions[..i]) + if actions[i].Hold? then 0 else 1
  {
    assert actions[..i + 1][..i] == actions[..i];
  }

  // ---------------------------------------------------------------- round trips

  /** A closed round trip: fills on both sides, and the unslipped price it opened at. */
  datatype Trade = Trade(dir: int, entry: Price, exit: Price, mark: Price)

  /** The k-th lot uses draw 2k to open and draw 2k + 1 to close. */
  function RoundTrip(prices: seq<Price>, lot: Lot, exitBar: nat, k: nat, slip: Draws): Trade
    requires lot.bar < |prices| && exitBar < |prices|
  {
    Trade(lot.dir,
          Fill(prices[lot.bar], lot.dir, slip(2 * k)),
          Fill(prices[exitBar], -lot.dir, slip(2 * k + 1)),
          prices[lot.bar])
  }

  ghost predicate InRange(lots: seq<Lot>, n: nat) {
    forall k :: 0 <= k < |lots| ==> lots[k].bar < n
  }

  /** Every lot but the last closes on the bar its successor opens. */
  function ClosedTrades(prices: seq<Price>, lots: seq<Lot>, slip: Draws): (trades: seq<Trade>)
    requires InRange(lots, |prices|)
    ensures |trades| == if lots == [] then 0 else |lots| - 1
  {
    if |lots| < 2 then []
    else
      var m := |lots| - 1;
      ClosedTrades(prices, lots[..m], slip) + [RoundTrip(prices, lots[m - 1], lots[m].bar, m - 1, slip)]
  }

  /** ... and the last one at the final price. */
  function AllTrades(prices: seq<Price>, lots: seq<Lot>, slip: Draws): (trades: seq<Trade>)
    requires InRange(lots, |prices|)
    ensures |trades| == |lots|
  {
    if lots == [] then []
    else
      ClosedTrades(prices, lots, slip)
      + [RoundTrip(prices, lots[|lots| - 1], |prices| - 1, |lots| - 1, slip)]
  }

  function ExitBar(lots: seq<Lot>, k: nat, n: nat): nat
    requires k < |lots| && n > 0
  {
    if k + 1 < |lots| then lots[k + 1].bar else n - 1
  }

  lemma {:induction false} ClosedTradeAt(prices: seq<Price>, lots: seq<Lot>, slip: Draws, k: nat)
    requires InRange(lots, |prices|) && k + 1 < |lots|
    ensures ClosedTrades(prices, lots, slip)[k] == RoundTrip(prices, lots[k], lots[k + 1].bar, k, slip)
  {
    var m := |lots| - 1;
    if k < m - 1 {
      ClosedTradeAt(prices, lots[..m], slip, k);
    }
  }

  lemma TradeAt(prices: seq<Price>, lots: seq<Lot>, slip: Draws, k: nat)
    requires InRange(lots, |prices|) && k < |lots|
    ensures AllTrades(prices, lots, slip)[k] == RoundTrip(prices, lots[k], ExitBar(lots, k, |prices|), k, slip)
  {
    if k + 1 < |lots| {
      ClosedTradeAt(prices, lots, slip, k);
    }
  }

  lemma {:induction false} LotsInRange(actions: seq<Action>)
    ensures InRange(Lots(actions), |actions|)
  {
    LotsAreTheFlips(actions);
    assert forall k :: 0 <= k < |Lots(actions)| ==> Lots(actions)[k] in Lots(actions);
  }

  lemma LotShape(actions: seq<Action>, k: nat)
    requires k < |Lots(actions)|
    ensures var lots := Lots(actions);
      && (lots[k].dir == 1 || lots[k].dir == -1)
      && lots[k].bar < |actions|
      && (k + 1 < |lots| ==> lots[k + 1].dir == -lots[k].dir && lots[k].bar < lots[k + 1].bar < |actions|)
  {
    LotsAreTheFlips(actions);
    LotsInRange(actions);
  }

  // ---------------------------------------------------------------- compounding

  /** start times the product of the growth factors. */
  function Compound(start: real, growth: seq<real>): real {
    if growth == [] then start
    else Compound(start, growth[..|growth| - 1]) * growth[|growth| - 1]
  }

  function Sum(xs: seq<real>): real {
    if xs == [] then 0.0 else Sum(xs[..|xs| - 1]) + xs[|xs| - 1]
  }

  function CountWins(pnls: seq<real>): nat {
    if pnls == [] then 0
    else CountWins(pnls[..|pnls| - 1]) + if pnls[|pnls| - 1] > 0.0 then 1 else 0
  }

  function CountLosses(pnls: seq<real>): nat {
    if pnls == [] then 0
    else CountLosses(pnls[..|pnls| - 1]) + if pnls[|pnls| - 1] < 0.0 then 1 else 0
  }

  method CountWinsLoop(pnls: seq<real>) returns (wins: nat)
    ensures wins == CountWins(pnls)
  {
    wins := 0;
    for i := 0 to |pnls|
      invariant wins == CountWins(pnls[..i])
    {
      assert pnls[..i + 1][..i] == pnls[..i];
      if pnls[i] > 0.0 {
        wins := wins + 1;
      }
    }
    assert pnls[..|pnls|] == pnls;
  }

  lemma {:induction false} CompoundScales(c: real, start: real, growth: seq<real>)
    ensures Compound(c * start, growth) == c * Compound(start, growth)
  {
    if growth != [] {
      CompoundScales(c, start, growth[..|growth| - 1]);
    }
  }

  lemma {:induction false} CompoundDominance(start: real, low: seq<real>, high: seq<real>)
    requires start >= 0.0 && |low| == |high|
    requires forall k :: 0 <= k < |low| ==> 0.0 <= low[k] <= high[k]
    ensures 0.0 <= Compound(start, low) <= Compound(start, high)
  {
    if low != [] {
      var m := |low| - 1;
      CompoundDominance(start, low[..m], high[..m]);
      ProductMono(Compound(start, low[..m]), Compound(start, high[..m]), low[m], high[m]);
    }
  }

  lemma {:induction false} CompoundStrictDominance(start: real, low: seq<real>, high: seq<real>)
    requires start > 0.0 && |low| == |high| > 0
    requires forall k :: 0 <= k < |low| ==> 0.0 <= low[k] < high[k]
    ensures 0.0 <= Compound(start, low) < Compound(start, high)
  {
    var m := |low| - 1;
    if m == 0 {
      assert Compound(start, low[..0]) == start == Compound(start, high[..0]);
      StrictProduct(start, start, low[0], high[0]);
    } else {
      CompoundStrictDominance(start, low[..m], high[..m]);
      StrictProduct(Compound(start, low[..m]), Compound(start, high[..m]), low[m], high[m]);
    }
  }

  lemma ProductMono(a: real, b: real, x: real, y: real)
    requires 0.0 <= a <= b && 0.0 <= x <= y
    ensures 0.0 <= a * x <= b * y
  {
    assert a * x >= 0.0;
    assert b * y - a * x == b * (y - x) + (b - a) * x;
    assert b * (y - x) >= 0.0 && (b - a) * x >= 0.0;
  }

  lemma StrictProduct(a: real, b: real, x: real, y: real)
    requires 0.0 <= a <= b && 0.0 < b && 0.0 <= x < y
    ensures 0.0 <= a * x < b * y
  {
    assert a * x >= 0.0;
    assert b * y - a * x == b * (y - x) + (b - a) * x;
    assert b * (y - x) > 0.0 && (b - a) * x >= 0.0;
  }
}
