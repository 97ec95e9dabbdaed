/** The cash-flow engine against the PnL-booking gate, and what its reports mean. */
module EngineProperties {
  import opened Rounding
  import opened Trades
  import opened Drawdown
  import opened Sharpe
  import opened Report
  import Gate = BacktestGate
  import GateProperties
  import Engine = BacktestEngine

  // ---------------------------------------------------------------- the two simulators agree

  lemma SizingRelation(t: Trade, f: real)
    ensures Engine.Growth(t, f) - 1.0 == (Gate.Growth(t, f) - 1.0) * (t.entry / t.mark)
  {
    var x, y := t.exit / t.entry, t.entry / t.mark;
    assert x * t.entry == t.exit && y * t.mark == t.entry;
    var move := (x - 1.0) * y;
    assert move * t.mark == (x - 1.0) * (y * t.mark) == x * t.entry - t.entry;
    IsQuotient(t.exit - t.entry, t.mark, move);
    var d := t.dir as real;
    assert f * (d * move) == f * (d * (x - 1.0)) * y;
  }

  lemma SameGrowthUnslipped(t: Trade, f: real)
    requires t.entry == t.mark
    ensures Engine.Growth(t, f) == Gate.Growth(t, f)
  {
    SizingRelation(t, f);
    IsQuotient(t.entry, t.mark, 1.0);
  }

  lemma FrictionlessGrowths(trades: seq<Trade>, f: real)
    requires forall k :: 0 <= k < |trades| ==> trades[k].entry == trades[k].mark
    ensures Engine.Growths(trades, f) == Gate.Growths(trades, f)
  {
    forall k | 0 <= k < |trades| ensures Engine.Growth(trades[k], f) == Gate.Growth(trades[k], f) {
      SameGrowthUnslipped(trades[k], f);
    }
  }

  lemma FillUnslipped(price: Price, dir: int)
    ensures Fill(price, dir, 0.0) == price
  {
  }

  lemma TripUnslipped(bars: seq<Price>, lot: Lot, exitBar: nat, k: nat, equity: real, f: real)
    requires lot.bar < |bars| && exitBar < |bars|
    ensures Engine.Trip(bars, lot, exitBar, k, NO_SLIPPAGE, equity, f) == RoundTrip(bars, lot, exitBar, k, NO_SLIPPAGE)
    ensures RoundTrip(bars, lot, exitBar, k, NO_SLIPPAGE).entry == bars[lot.bar]
  {
    FillUnslipped(bars[lot.bar], lot.dir);
    FillUnslipped(bars[exitBar], -lot.dir);
    FillUnslipped(bars[lot.bar], Engine.Side(Engine.Signed(lot.dir, Engine.Quantity(equity, f, bars[lot.bar]))));
    FillUnslipped(bars[exitBar], Engine.Side(-Engine.Signed(lot.dir, Engine.Quantity(equity, f, bars[lot.bar]))));
  }

  lemma {:induction false} ClosedUnslipped(bars: seq<Price>, lots: seq<Lot>, start: real, f: real)
    requires InRange(lots, |bars|)
    ensures Engine.Closed(bars, lots, NO_SLIPPAGE, start, f) == ClosedTrades(bars, lots, NO_SLIPPAGE)
    ensures Engine.Realised(bars, lots, NO_SLIPPAGE, start, f) ==
      Compound(start, Gate.Growths(ClosedTrades(bars, lots, NO_SLIPPAGE), f))
  {
    if |lots| >= 2 {
      var m := |lots| - 1;
      ClosedUnslipped(bars, lots[..m], start, f);
      TripUnslipped(bars, lots[m - 1], lots[m].bar, m - 1, Engine.Realised(bars, lots[..m], NO_SLIPPAGE, start, f), f);
    }
    var trades := ClosedTrades(bars, lots, NO_SLIPPAGE);
    forall k | 0 <= k < |trades| ensures trades[k].entry == trades[k].mark {
      ClosedTradeAt(bars, lots, NO_SLIPPAGE, k);
      FillUnslipped(bars[lots[k].bar], lots[k].dir);
    }
    FrictionlessGrowths(trades, f);
  }

  lemma UnslippedTrades(bars: seq<Price>, actions: seq<Action>, start: real, f: real)
    requires |actions| == |bars|
    ensures Engine.EngineTrades(bars, actions, NO_SLIPPAGE, start, f) == Gate.GateTrades(bars, actions, NO_SLIPPAGE)
  {
    LotsInRange(actions);
    var lots := Lots(actions);
    ClosedUnslipped(bars, lots, start, f);
    if lots != [] {
      TripUnslipped(bars, lots[|lots| - 1], |bars| - 1, |lots| - 1, Engine.Realised(bars, lots, NO_SLIPPAGE, start, f),
                    f);
    }
  }

  /** Without slippage the two accounting schemes end with the same money. */
  lemma FrictionlessRunsAgree(bars: seq<Price>, actions: seq<Action>, start: real, f: real)
    requires |actions| == |bars|
    ensures Engine.FinalEquity(bars, actions, NO_SLIPPAGE, start, f) ==
      Gate.FinalCash(bars, actions, NO_SLIPPAGE, start, f)
  {
    UnslippedTrades(bars, actions, start, f);
    var trades := Gate.GateTrades(bars, actions, NO_SLIPPAGE);
    forall k | 0 <= k < |trades| ensures trades[k].entry == trades[k].mark {
      GateProperties.GateTradeAt(bars, actions, NO_SLIPPAGE, k);
      FillUnslipped(bars[Lots(actions)[k].bar], Lots(actions)[k].dir);
    }
    FrictionlessGrowths(trades, f);
  }

  /** ... and show the same marked equity on every bar on the way. */
  lemma FrictionlessMarksAgree(bars: seq<Price>, actions: seq<Action>, start: real, f: real, i: nat)
    requires |actions| == |bars| && i < |bars|
    ensures Engine.MarkedAt(bars, actions, NO_SLIPPAGE, start, f, i) ==
      Gate.MarkedAt(bars, actions, NO_SLIPPAGE, start, f, i)
  {
    LotsInRange(actions[..i + 1]);
    var lots := Lots(actions[..i + 1]);
    ClosedUnslipped(bars, lots, start, f);
    if lots != [] {
      var lot := lots[|lots| - 1];
      var cash := Engine.Realised(bars, lots, NO_SLIPPAGE, start, f);
      TripUnslipped(bars, lot, lot.bar, |lots| - 1, cash, f);
      SameMark(cash, lot.dir, f, bars[lot.bar], bars[i]);
    }
  }

  lemma SameMark(cash: real, dir: int, f: real, entry: Price, price: Price)
    ensures Engine.Gain(dir, Engine.Quantity(cash, f, entry), entry, price) == Gate.Pnl(cash, dir, f, entry, price)
  {
    SameQuantity(cash, f, entry);
  }

  lemma SameQuantity(cash: real, f: real, price: Price)
    ensures Engine.Quantity(cash, f, price) == Gate.Quantity(cash, f, price)
  {
    assert f * cash == cash * f;
  }

  // ---------------------------------------------------------------- which side the engine fills on

  /** The engine slips an order by the sign of the quantity it trades.  An opening order slips
      against the lot's direction exactly when the capital put in is positive, or nothing slips,
      or a lot of size zero is a short. */
  lemma OpeningFillIff(price: Price, dir: int, equity: real, f: real, slip: Slip)
    requires dir == 1 || dir == -1
    ensures Engine.FillSigned(price, Engine.Signed(dir, Engine.Quantity(equity, f, price)), slip) ==
      Fill(price, dir, slip)
      <==> f * equity > 0.0 || slip == 0.0 || (f * equity == 0.0 && dir == -1)
  {
    SignOfQuantity(equity, f, price);
    FillsDiffer(price, slip);
  }

  /** ... and likewise for the closing order. */
  lemma ClosingFillIff(price: Price, mark: Price, dir: int, equity: real, f: real, slip: Slip)
    requires dir == 1 || dir == -1
    ensures Engine.FillSigned(price, -Engine.Signed(dir, Engine.Quantity(equity, f, mark)), slip) ==
      Fill(price, -dir, slip)
      <==> f * equity > 0.0 || slip == 0.0 || (f * equity == 0.0 && dir == 1)
  {
    SignOfQuantity(equity, f, mark);
    FillsDiffer(price, slip);
  }

  lemma SignOfQuantity(equity: real, f: real, price: Price)
    ensures Engine.Quantity(equity, f, price) > 0.0 <==> f * equity > 0.0
    ensures Engine.Quantity(equity, f, price) < 0.0 <==> f * equity < 0.0
  {
    SignOfQuotient(f * equity, price);
  }

  lemma SignOfQuotient(x: real, price: Price)
    ensures x / price > 0.0 <==> x > 0.0
    ensures x / price < 0.0 <==> x < 0.0
  {
    var q := x / price;
    assert q * price == x;
    GateProperties.SignOfProduct(q, price);
    GateProperties.SignOfProduct(-q, price);
    assert -q * price == -x;
  }

  lemma FillsDiffer(price: Price, slip: Slip)
    ensures Fill(price, 1, slip) == Fill(price, -1, slip) <==> slip == 0.0
  {
    assert Fill(price, 1, slip) - Fill(price, -1, slip) == 2.0 * (price * slip);
    if slip > 0.0 {
      assert price * slip > 0.0;
    }
  }

  /** A lot bought with positive capital is filled like the gate's: by its direction. */
  lemma SolventTrip(bars: seq<Price>, lot: Lot, exitBar: nat, k: nat, slip: Draws, equity: real, f: real)
    requires lot.bar < |bars| && exitBar < |bars| && (lot.dir == 1 || lot.dir == -1) && f * equity > 0.0
    ensures Engine.Trip(bars, lot, exitBar, k, slip, equity, f) == RoundTrip(bars, lot, exitBar, k, slip)
  {
    OpeningFillIff(bars[lot.bar], lot.dir, equity, f, slip(2 * k));
    ClosingFillIff(bars[exitBar], bars[lot.bar], lot.dir, equity, f, slip(2 * k + 1));
  }

  ghost predicate Directed(lots: seq<Lot>) {
    forall k :: 0 <= k < |lots| ==> lots[k].dir == 1 || lots[k].dir == -1
  }

  /** As long as no trade filled by direction takes more than the account, the money is that of
      the trades filled by direction: they are the engine's own until the account is empty, and
      an empty account stays empty. */
  lemma {:induction false} SolventMoney(bars: seq<Price>, lots: seq<Lot>, slip: Draws, start: real, f: real)
    requires InRange(lots, |bars|) && Directed(lots) && start >= 0.0 && f >= 0.0
    requires forall g :: g in Engine.Growths(ClosedTrades(bars, lots, slip), f) ==> g >= 0.0
    ensures Engine.Realised(bars, lots, slip, start, f) ==
      Compound(start, Engine.Growths(ClosedTrades(bars, lots, slip), f)) >= 0.0
  {
    if |lots| >= 2 {
      var m := |lots| - 1;
      var front, last := ClosedTrades(bars, lots[..m], slip), RoundTrip(bars, lots[m - 1], lots[m].bar, m - 1, slip);
      GrowthsOfNext(front, last, f);
      SolventMoney(bars, lots[..m], slip, start, f);
      var mine := Engine.Closed(bars, lots[..m], slip, start, f);
      var equity := Engine.Realised(bars, lots[..m], slip, start, f);
      var trip := Engine.Trip(bars, lots[m - 1], lots[m].bar, m - 1, slip, equity, f);
      SameMoneyNext(bars, lots[m - 1], lots[m].bar, m - 1, slip, equity, f);
      SameCompoundNext(start, mine, trip, front, last, f);
    }
  }

  function Grow(cash: real, t: Trade, f: real): real {
    cash * Engine.Growth(t, f)
  }

  lemma SameCompoundNext(start: real, mine: seq<Trade>, trip: Trade, front: seq<Trade>, last: Trade, f: real)
    requires Compound(start, Engine.Growths(mine, f)) == Compound(start, Engine.Growths(front, f))
    requires var cash := Compound(start, Engine.Growths(front, f)); Grow(cash, trip, f) == Grow(cash, last, f) >= 0.0
    ensures Compound(start, Engine.Growths(mine + [trip], f)) ==
      Compound(start, Engine.Growths(front + [last], f)) >= 0.0
  {
    CompoundNext(start, mine, trip, f);
    CompoundNext(start, front, last, f);
  }

  lemma GrowthsOfNext(front: seq<Trade>, last: Trade, f: real)
    ensures Engine.Growths(front + [last], f) == Engine.Growths(front, f) + [Engine.Growth(last, f)]
    ensures forall g :: g in Engine.Growths(front, f) ==> g in Engine.Growths(front + [last], f)
    ensures Engine.Growth(last, f) in Engine.Growths(front + [last], f)
  {
    assert Engine.Growths(front + [last], f)[|front|] == Engine.Growth(last, f);
    forall g | g in Engine.Growths(front, f) ensures g in Engine.Growths(front + [last], f) {
      var k :| 0 <= k < |front| && Engine.Growths(front, f)[k] == g;
      assert Engine.Growths(front + [last], f)[k] == g;
    }
  }

  lemma CompoundNext(start: real, front: seq<Trade>, last: Trade, f: real)
    ensures Compound(start, Engine.Growths(front + [last], f)) ==
      Grow(Compound(start, Engine.Growths(front, f)), last, f)
  {
    assert Engine.Growths(front + [last], f)[..|front|] == Engine.Growths(front, f);
  }

  lemma SameMoneyNext(bars: seq<Price>, lot: Lot, exitBar: nat, k: nat, slip: Draws, equity: real, f: real)
    requires lot.bar < |bars| && exitBar < |bars| && (lot.dir == 1 || lot.dir == -1) && equity >= 0.0 && f >= 0.0
    requires Engine.Growth(RoundTrip(bars, lot, exitBar, k, slip), f) >= 0.0
    ensures Grow(equity, Engine.Trip(bars, lot, exitBar, k, slip, equity, f), f) ==
      Grow(equity, RoundTrip(bars, lot, exitBar, k, slip), f) >= 0.0
  {
    var mine, trade := Engine.Trip(bars, lot, exitBar, k, slip, equity, f), RoundTrip(bars, lot, exitBar, k, slip);
    if equity > 0.0 && f > 0.0 {
      assert f * equity > 0.0;
      SolventTrip(bars, lot, exitBar, k, slip, equity, f);
    } else if f == 0.0 {
      Uninvested(mine);
      Uninvested(trade);
    }
    ProductMono(0.0, equity, 0.0, Engine.Growth(trade, f));
  }

  lemma Uninvested(t: Trade)
    ensures Engine.Growth(t, 0.0) == 1.0
  {
  }

  /** The trades as the lots' directions would fill them. */
  function Directional(bars: seq<Price>, actions: seq<Action>, slip: Draws): seq<Trade>
    requires |actions| == |bars|
  {
    Gate.GateTrades(bars, actions, slip)
  }

  lemma SolventFinal(bars: seq<Price>, actions: seq<Action>, slip: Draws, start: real, f: real)
    requires |actions| == |bars| && start >= 0.0 && f >= 0.0
    requires forall g :: g in Engine.Growths(Directional(bars, actions, slip), f) ==> g >= 0.0
    ensures Engine.FinalEquity(bars, actions, slip, start, f) ==
      Compound(start, Engine.Growths(Directional(bars, actions, slip), f))
  {
    LotsDirected(actions);
    var lots := Lots(actions);
    if lots != [] {
      var k := |lots| - 1;
      var front, last := ClosedTrades(bars, lots, slip), RoundTrip(bars, lots[k], |bars| - 1, k, slip);
      assert Directional(bars, actions, slip) == front + [last];
      GrowthsOfNext(front, last, f);
      SolventMoney(bars, lots, slip, start, f);
      var equity := Engine.Realised(bars, lots, slip, start, f);
      SameMoneyNext(bars, lots[k], |bars| - 1, k, slip, equity, f);
      SameCompoundNext(start, Engine.Closed(bars, lots, slip, start, f),
                       Engine.LastTrade(bars, lots, |bars| - 1, slip, start, f),
                       front, last, f);
    }
  }

  /** While the account is never empty before a fill, every trade is filled by its direction. */
  lemma {:induction false} SolventFills(bars: seq<Price>, lots: seq<Lot>, slip: Draws, start: real, f: real)
    requires InRange(lots, |bars|) && Directed(lots) && start > 0.0 && f > 0.0
    requires forall g :: g in Engine.Growths(ClosedTrades(bars, lots, slip), f) ==> g > 0.0
    ensures Engine.Closed(bars, lots, slip, start, f) == ClosedTrades(bars, lots, slip)
    ensures Engine.Realised(bars, lots, slip, start, f) > 0.0
  {
    if |lots| >= 2 {
      var m := |lots| - 1;
      var front, last := ClosedTrades(bars, lots[..m], slip), RoundTrip(bars, lots[m - 1], lots[m].bar, m - 1, slip);
      GrowthsOfNext(front, last, f);
      SolventFills(bars, lots[..m], slip, start, f);
      var equity := Engine.Realised(bars, lots[..m], slip, start, f);
      FundedTrip(bars, lots[m - 1], lots[m].bar, m - 1, slip, equity, f);
      StillSolvent(start, front, last, f);
    }
  }

  lemma FundedTrip(bars: seq<Price>, lot: Lot, exitBar: nat, k: nat, slip: Draws, equity: real, f: real)
    requires lot.bar < |bars| && exitBar < |bars| && (lot.dir == 1 || lot.dir == -1) && f > 0.0 && equity > 0.0
    ensures Engine.Trip(bars, lot, exitBar, k, slip, equity, f) == RoundTrip(bars, lot, exitBar, k, slip)
  {
    PositiveProduct(f, equity);
    SolventTrip(bars, lot, exitBar, k, slip, equity, f);
  }

  lemma StillSolvent(start: real, front: seq<Trade>, last: Trade, f: real)
    requires Compound(start, Engine.Growths(front, f)) > 0.0 && Engine.Growth(last, f) > 0.0
    ensures Compound(start, Engine.Growths(front + [last], f)) > 0.0
  {
    CompoundNext(start, front, last, f);
    PositiveProduct(Compound(start, Engine.Growths(front, f)), Engine.Growth(last, f));
  }

  lemma PositiveProduct(a: real, b: real)
    requires a > 0.0 && b > 0.0
    ensures a * b > 0.0
  {
  }

  lemma SolventRunFillsByDirection(bars: seq<Price>, actions: seq<Action>, slip: Draws, start: real, f: real)
    requires |actions| == |bars| && start > 0.0 && f > 0.0 && InRange(Lots(actions), |bars|)
    requires forall g :: g in Engine.Growths(ClosedTrades(bars, Lots(actions), slip), f) ==> g > 0.0
    ensures Engine.EngineTrades(bars, actions, slip, start, f) == Directional(bars, actions, slip)
  {
    var lots := Lots(actions);
    LotsDirected(actions);
    SolventFills(bars, lots, slip, start, f);
    if lots != [] {
      var equity := Engine.Realised(bars, lots, slip, start, f);
      FundedTrip(bars, lots[|lots| - 1], |bars| - 1, |lots| - 1, slip, equity, f);
      SplitLast(bars, actions, slip, start, f);
    }
  }

  lemma LotsDirected(actions: seq<Action>)
    ensures Directed(Lots(actions)) && InRange(Lots(actions), |actions|)
  {
    LotsInRange(actions);
    LotsAreTheFlips(actions);
  }

  lemma SplitLast(bars: seq<Price>, actions: seq<Action>, slip: Draws, start: real, f: real)
    requires |actions| == |bars| > 0 && Lots(actions) != [] && InRange(Lots(actions), |bars|)
    ensures var lots := Lots(actions);
      && Engine.EngineTrades(bars, actions, slip, start, f)
         == Engine.Closed(bars, lots, slip, start, f) + [Engine.LastTrade(bars, lots, |bars| - 1, slip, start, f)]
      && Directional(bars, actions, slip)
         == ClosedTrades(bars, lots, slip) + [RoundTrip(bars, lots[|lots| - 1], |bars| - 1, |lots| - 1, slip)]
  {
  }

  const RUIN_BARS: seq<Price> := [1.0, 4.0]

  /** A ruined account fills the wrong way round: after a short that loses more than everything,
      the BUY at 4 is filled below 4. */
  lemma RuinedBuyFillsLow(slip: Draws)
    requires ProductionDraws(slip)
    ensures Lots([Sell, Buy]) == [Lot(0, -1), Lot(1, 1)]
    ensures Engine.EngineTrades(RUIN_BARS, [Sell, Buy], slip, 100.0, 0.95)[1].dir == 1
    ensures Engine.EngineTrades(RUIN_BARS, [Sell, Buy], slip, 100.0, 0.95)[1].entry < 4.0
  {
    RuinLots();
    LotsInRange([Sell, Buy]);
    var lots := [Lot(0, -1), Lot(1, 1)];
    assert lots[..1] == [Lot(0, -1)];
    var first := Engine.Trip(RUIN_BARS, lots[0], 1, 0, slip, 100.0, 0.95);
    assert Engine.Closed(RUIN_BARS, lots[..1], slip, 100.0, 0.95) == [];
    SolventTrip(RUIN_BARS, lots[0], 1, 0, slip, 100.0, 0.95);
    assert first.entry <= 1.0 && first.exit >= 4.0 && first.mark == 1.0;
    RuinousGrowth(first.entry, first.exit);
    assert Engine.Closed(RUIN_BARS, lots, slip, 100.0, 0.95) == [first];
    CompoundNext(100.0, [], first, 0.95);
    assert [] + [first] == [first];
    var equity := Engine.Realised(RUIN_BARS, lots, slip, 100.0, 0.95);
    assert equity < 0.0;
    SignOfQuantity(equity, 0.95, 4.0);
    LowSide(4.0, slip(2));
  }

  lemma RuinLots()
    ensures Lots([Sell, Buy]) == [Lot(0, -1), Lot(1, 1)]
  {
    assert [Sell, Buy][..1] == [Sell] && [Sell][..0] == [];
    assert Lots([Sell]) == [Lot(0, -1)];
  }

  lemma RuinousGrowth(entry: Price, exit: Price)
    requires entry <= 1.0 && exit >= 4.0
    ensures Engine.Growth(Trade(-1, entry, exit, 1.0), 0.95) < 0.0
  {
    IsQuotient(exit - entry, 1.0, exit - entry);
  }

  lemma LowSide(price: Price, slip: Slip)
    requires slip > 0.0
    ensures Fill(price, -1, slip) < price
  {
    assert price * slip > 0.0;
  }

  // ---------------------------------------------------------------- slippage

  lemma EngineGrowthDominance(t: Trade, t0: Trade, f: real)
    requires f >= 0.0 && t.dir == t0.dir && (t.dir == 1 || t.dir == -1) && t.mark == t0.mark
    requires GateProperties.WorseFills(t, t0)
    ensures Engine.Growth(t, f) <= Engine.Growth(t0, f)
  {
    var d := t.dir as real;
    if t.dir == 1 {
      DivideMono(t.exit - t.entry, t0.exit - t0.entry, t.mark);
    } else {
      DivideMono(t0.exit - t0.entry, t.exit - t.entry, t.mark);
    }
    GateProperties.ScaleGap(f, d * ((t.exit - t.entry) / t.mark), d * ((t0.exit - t0.entry) / t0.mark));
  }

  /** Slippage never helps the engine either, while no trade filled by direction takes more than
      the account. */
  lemma EngineSlippageNeverHelps(bars: seq<Price>, actions: seq<Action>, slip: Draws, start: real, f: real)
    requires |actions| == |bars| && start >= 0.0 && f >= 0.0
    requires forall g :: g in Engine.Growths(Directional(bars, actions, slip), f) ==> g >= 0.0
    ensures Engine.FinalEquity(bars, actions, slip, start, f) <= Engine.FinalEquity(bars, actions, NO_SLIPPAGE, start,
      f)
  {
    var trades, ideal := Directional(bars, actions, slip), Directional(bars, actions, NO_SLIPPAGE);
    var low, high := Engine.Growths(trades, f), Engine.Growths(ideal, f);
    forall k | 0 <= k < |trades| ensures 0.0 <= low[k] <= high[k] {
      GateProperties.TradeFills(bars, actions, slip, k);
      GateProperties.GateTradeAt(bars, actions, slip, k);
      GateProperties.GateTradeAt(bars, actions, NO_SLIPPAGE, k);
      assert low[k] in low;
      EngineGrowthDominance(trades[k], ideal[k], f);
    }
    CompoundDominance(start, low, high);
    SolventFinal(bars, actions, slip, start, f);
    UnslippedTrades(bars, actions, start, f);
  }

  // ---------------------------------------------------------------- time in the market

  function TotalHeld(lots: seq<Lot>, exits: seq<nat>): int
    requires |exits| <= |lots|
  {
    if exits == [] then 0
    else TotalHeld(lots, exits[..|exits| - 1]) + exits[|exits| - 1] - lots[|exits| - 1].bar
  }

  lemma {:induction false} HeldTelescopes(lots: seq<Lot>, m: nat)
    requires 0 < m <= |lots|
    ensures TotalHeld(lots, Engine.Exits(lots)[..m - 1]) == lots[m - 1].bar - lots[0].bar
  {
    if m > 1 {
      HeldTelescopes(lots, m - 1);
      assert Engine.Exits(lots)[..m - 1][..m - 2] == Engine.Exits(lots)[..m - 2];
    }
  }

  /** From the first signal to the last bar the account is always in the market: the holding
      periods of all scored round trips add up to exactly that stretch. */
  lemma HoldingPeriodsCover(actions: seq<Action>)
    requires Lots(actions) != []
    ensures |actions| > 0
    ensures TotalHeld(Lots(actions), Engine.AllExits(Lots(actions), |actions|)) == |actions| - 1 - Lots(actions)[0].bar
  {
    LotShape(actions, 0);
    var lots := Lots(actions);
    var exits := Engine.AllExits(lots, |actions|);
    HeldTelescopes(lots, |lots|);
    assert exits[..|exits| - 1] == Engine.Exits(lots)[..|lots| - 1];
  }

  /** The reported money, counts and evaluations tie together: final equity is the starting
      equity plus the PnL of every evaluation, one per flip. */
  lemma ReportConservesMoney(bars: seq<Price>, actions: seq<Action>, slip: Draws, start: real, f: real,
                             r: Engine.Result)
    requires |actions| == |bars| && start != 0.0
    requires Engine.ReportsTrades(bars, actions, slip, start, f, r)
    ensures |r.evaluations| == r.trades == |Lots(actions)|
    ensures r.finalEquity == start + Sum(EvaluationPnls(r.evaluations))
    ensures Times(r.totalReturnPct, start) == Times(100.0, Sum(EvaluationPnls(r.evaluations)))
    ensures r.evaluations != [] ==>
      Times(r.avgTradePnl, |r.evaluations| as real) == Sum(EvaluationPnls(r.evaluations))
    ensures r.signals == |SignalBars(actions)|
  {
    var trades := Engine.EngineTrades(bars, actions, slip, start, f);
    Engine.CashIsSumAndProduct(start, f, trades);
    PnlsAreEvaluated(bars, actions, slip, start, f, r);
    MoneyConserved(start, r.finalEquity, Sum(EvaluationPnls(r.evaluations)));
    SignalsCounted(actions);
    AverageTimesCount(EvaluationPnls(r.evaluations));
  }

  lemma AverageTimesCount(pnls: seq<real>)
    ensures pnls != [] ==> Times(Engine.Average(pnls), |pnls| as real) == Sum(pnls)
  {
    if pnls != [] {
      DivideMultiply(Sum(pnls), |pnls| as real);
    }
  }

  lemma PnlsAreEvaluated(bars: seq<Price>, actions: seq<Action>, slip: Draws, start: real, f: real, r: Engine.Result)
    requires |actions| == |bars| && start != 0.0 && Engine.ReportsTrades(bars, actions, slip, start, f, r)
    ensures EvaluationPnls(r.evaluations) == Engine.Pnls(start, f, Engine.EngineTrades(bars, actions, slip, start, f))
    ensures EvaluationPcts(r.evaluations) == Engine.Pcts(Engine.EngineTrades(bars, actions, slip, start, f))
  {
  }

  lemma MoneyConserved(start: real, final: real, gain: real)
    requires start != 0.0 && final == start + gain
    ensures Times(Engine.ReturnPct(start, final), start) == Times(100.0, gain)
  {
    ReturnTimesStart(start, final);
    assert final - start == gain;
  }

  lemma ReturnTimesStart(start: real, final: real)
    requires start != 0.0
    ensures Times(Engine.ReturnPct(start, final), start) == Times(100.0, final - start)
  {
    var q := (final - start) / start;
    assert q * start == final - start;
    assert q * 100.0 * start == 100.0 * (q * start);
  }

  /** The rates shown are those of the evaluations: the share that made money, and the Sharpe ratio of
      their percentages. */
  lemma ReportRates(bars: seq<Price>, actions: seq<Action>, slip: Draws, start: real, f: real, root: Root,
                    r: Engine.Result)
    requires |actions| == |bars| && start != 0.0 && IsSquareRoot(root)
    requires Engine.ReportsTrades(bars, actions, slip, start, f, r)
    requires Engine.ReportsRates(bars, actions, slip, start, f, root, r)
    ensures RateFits(r.winRate, |Winners(EvaluationPnls(r.evaluations))|, r.trades)
    ensures AnnualFits(r.sharpe, EvaluationPcts(r.evaluations), root(TRADING_DAYS))
  {
    var pnls := EvaluationPnls(r.evaluations);
    PnlsAreEvaluated(bars, actions, slip, start, f, r);
    WinsCounted(pnls);
    AnnualIsMeanOverDeviation(EvaluationPcts(r.evaluations), root);
    if pnls != [] {
      NearGrid4(CountWins(pnls) as real / |pnls| as real);
    }
  }

  function EvaluationPcts(evaluations: seq<Engine.Evaluation>): seq<real> {
    seq(|evaluations|, k requires 0 <= k < |evaluations| => evaluations[k].pnlPct)
  }

  /** The percentage of an evaluation is its PnL over what the lot was worth at its entry price. */
  lemma PercentageIsPnlOverNotional(t: Trade, cash: real, f: real, heldBars: int)
    ensures var e := Engine.Evaluate(t, Engine.TradePnl(cash, f, t), heldBars);
      && (t.dir == 1 ==> e.closesLong) && (t.dir == -1 ==> !e.closesLong) && e.entry == t.entry && e.exit == t.exit
      && Times(e.pnlPct, Times(Engine.Quantity(cash, f, t.mark), t.entry)) == Times(100.0, e.pnl)
  {
    PercentOfNotional(t.dir as real, t.exit - t.entry, t.entry, Engine.Quantity(cash, f, t.mark));
  }

  lemma PercentOfNotional(d: real, move: real, entry: real, qty: real)
    requires entry > 0.0
    ensures Times(d * move / entry * 100.0, Times(qty, entry)) == Times(100.0, d * qty * move)
  {
    var p := d * move / entry;
    assert p * entry == d * move;
    assert p * 100.0 * (qty * entry) == 100.0 * qty * (p * entry);
    assert 100.0 * qty * (d * move) == 100.0 * (d * qty * move);
  }

  function EvaluationPnls(evaluations: seq<Engine.Evaluation>): seq<real> {
    seq(|evaluations|, k requires 0 <= k < |evaluations| => evaluations[k].pnl)
  }

  // ---------------------------------------------------------------- account size is irrelevant here too

  /** A larger account of the same sign trades on the same side. */
  lemma SameSide(c: real, dir: int, equity: real, scaled: real, f: real, price: Price)
    requires c > 0.0 && scaled == Times(c, equity)
    ensures var q, r := Engine.Signed(dir, Engine.Quantity(equity, f, price)),
      Engine.Signed(dir, Engine.Quantity(scaled, f, price));
      r == Times(c, q) && Engine.Side(r) == Engine.Side(q) && Engine.Side(-r) == Engine.Side(-q)
  {
    var q := Engine.Quantity(equity, f, price);
    QuantityScales(c, equity, scaled, f, price);
    SignScales(c, dir as real, q);
  }

  lemma QuantityScales(c: real, equity: real, scaled: real, f: real, price: Price)
    requires scaled == Times(c, equity)
    ensures Engine.Quantity(scaled, f, price) == Times(c, Engine.Quantity(equity, f, price))
  {
    var q := Engine.Quantity(equity, f, price);
    assert q * price == f * equity;
    assert Times(c, q) * price == c * (q * price) == f * scaled;
    IsQuotient(f * scaled, price, Times(c, q));
  }

  lemma SignScales(c: real, d: real, q: real)
    requires c > 0.0
    ensures d * Times(c, q) == Times(c, d * q)
    ensures (Times(c, d * q) > 0.0 <==> d * q > 0.0) && (-Times(c, d * q) > 0.0 <==> -(d * q) > 0.0)
  {
    var x := d * q;
    assert d * (c * q) == c * x;
  }

  lemma TripScales(c: real, bars: seq<Price>, lot: Lot, exitBar: nat, k: nat, slip: Draws, equity: real, scaled: real,
                   f: real)
    requires c > 0.0 && lot.bar < |bars| && exitBar < |bars| && scaled == Times(c, equity)
    ensures Engine.Trip(bars, lot, exitBar, k, slip, scaled, f) == Engine.Trip(bars, lot, exitBar, k, slip, equity, f)
  {
    SameSide(c, lot.dir, equity, scaled, f, bars[lot.bar]);
  }

  lemma {:induction false} ClosedScales(c: real, bars: seq<Price>, lots: seq<Lot>, slip: Draws, start: real,
                                        scaled: real, f: real)
    requires c > 0.0 && InRange(lots, |bars|) && scaled == c * start
    ensures Engine.Closed(bars, lots, slip, scaled, f) == Engine.Closed(bars, lots, slip, start, f)
    ensures Engine.Realised(bars, lots, slip, scaled, f) == Times(c, Engine.Realised(bars, lots, slip, start, f))
  {
    if |lots| >= 2 {
      var m := |lots| - 1;
      ClosedScales(c, bars, lots[..m], slip, start, scaled, f);
      ClosedUnfold(bars, lots, slip, start, f);
      ClosedUnfold(bars, lots, slip, scaled, f);
      TripScales(c, bars, lots[m - 1], lots[m].bar, m - 1, slip, Engine.Realised(bars, lots[..m], slip, start, f),
                 Engine.Realised(bars, lots[..m], slip, scaled, f), f);
    }
    RealisedScales(c, bars, lots, slip, start, scaled, f);
  }

  lemma RealisedScales(c: real, bars: seq<Price>, lots: seq<Lot>, slip: Draws, start: real, scaled: real, f: real)
    requires InRange(lots, |bars|) && scaled == c * start
    requires Engine.Closed(bars, lots, slip, scaled, f) == Engine.Closed(bars, lots, slip, start, f)
    ensures Engine.Realised(bars, lots, slip, scaled, f) == Times(c, Engine.Realised(bars, lots, slip, start, f))
  {
    CompoundTimes(c, start, scaled, Engine.Growths(Engine.Closed(bars, lots, slip, start, f), f));
  }

  lemma CompoundTimes(c: real, start: real, scaled: real, growth: seq<real>)
    requires scaled == c * start
    ensures Compound(scaled, growth) == Times(c, Compound(start, growth))
  {
    CompoundScales(c, start, growth);
  }

  lemma ClosedUnfold(bars: seq<Price>, lots: seq<Lot>, slip: Draws, start: real, f: real)
    requires InRange(lots, |bars|) && |lots| >= 2
    ensures var m := |lots| - 1;
      Engine.Closed(bars, lots, slip, start, f) == Engine.Closed(bars, lots[..m], slip, start, f)
        + [Engine.Trip(bars, lots[m - 1], lots[m].bar, m - 1, slip, Engine.Realised(bars, lots[..m], slip, start, f),
                       f)]
  {
  }

  lemma TradesScale(c: real, bars: seq<Price>, actions: seq<Action>, slip: Draws, start: real, scaled: real, f: real)
    requires c > 0.0 && |actions| == |bars| && scaled == c * start
    ensures Engine.EngineTrades(bars, actions, slip, scaled, f) == Engine.EngineTrades(bars, actions, slip, start, f)
    ensures Engine.FinalEquity(bars, actions, slip, scaled, f) ==
      Times(c, Engine.FinalEquity(bars, actions, slip, start, f))
  {
    LotsInRange(actions);
    var lots := Lots(actions);
    ClosedScales(c, bars, lots, slip, start, scaled, f);
    if lots != [] {
      TripScales(c, bars, lots[|lots| - 1], |bars| - 1, |lots| - 1, slip, Engine.Realised(bars, lots, slip, start, f),
                 Engine.Realised(bars, lots, slip, scaled, f), f);
    }
    CompoundTimes(c, start, scaled, Engine.Growths(Engine.EngineTrades(bars, actions, slip, start, f), f));
  }

  lemma {:induction false} EnginePnlsScale(c: real, start: real, scaled: real, f: real, trades: seq<Trade>)
    requires scaled == c * start
    ensures Scaled(c, Engine.Pnls(start, f, trades), Engine.Pnls(scaled, f, trades))
  {
    if trades != [] {
      var front, last := trades[..|trades| - 1], trades[|trades| - 1];
      EnginePnlsScale(c, start, scaled, f, front);
      CompoundScales(c, start, Engine.Growths(front, f));
      var cash, scaledCash := Compound(start, Engine.Growths(front, f)), Compound(scaled, Engine.Growths(front, f));
      EnginePnlScales(c, cash, scaledCash, f, last);
      GateProperties.ScaledExtends(c, Engine.Pnls(start, f, front), Engine.Pnls(scaled, f, front),
                                   Engine.TradePnl(cash, f, last), Engine.TradePnl(scaledCash, f, last));
    }
  }

  lemma EnginePnlScales(c: real, cash: real, scaledCash: real, f: real, t: Trade)
    requires scaledCash == Times(c, cash)
    ensures Engine.TradePnl(scaledCash, f, t) == Times(c, Engine.TradePnl(cash, f, t))
  {
    QuantityScales(c, cash, scaledCash, f, t.mark);
    var q, move := Engine.Quantity(cash, f, t.mark), t.exit - t.entry;
    var d := t.dir as real;
    assert d * Times(c, q) * move == c * (d * q * move);
  }

  lemma SameWinRate(c: real, start: real, scaled: real, f: real, trades: seq<Trade>)
    requires c > 0.0 && scaled == c * start
    ensures Engine.WinRate(Engine.Pnls(scaled, f, trades)) == Engine.WinRate(Engine.Pnls(start, f, trades))
  {
    EnginePnlsScale(c, start, scaled, f, trades);
    GateProperties.CountsScale(c, Engine.Pnls(start, f, trades), Engine.Pnls(scaled, f, trades));
  }

  lemma SameReturn(c: real, start: real, scaled: real, final: real, scaledFinal: real)
    requires c > 0.0 && start != 0.0 && scaled != 0.0 && scaled == Times(c, start) && scaledFinal == Times(c, final)
    ensures Engine.ReturnPct(scaled, scaledFinal) == Engine.ReturnPct(start, final)
  {
    assert scaledFinal - scaled == c * (final - start);
    RatioScales(c, final - start, start, scaledFinal - scaled, scaled);
  }

  /** What a report says of a run, apart from amounts of money. */
  ghost predicate SameReport(r: Engine.Result, s: Engine.Result) {
    && s.totalReturnPct == r.totalReturnPct && s.trades == r.trades && s.holds == r.holds && s.signals == r.signals
    && s.winRate == r.winRate && s.sharpe == r.sharpe
  }

  /** Two accounts that start with the same sign run alike in the engine: same fills, same
      evaluations in percent, so the same return, win rate and Sharpe ratio - without the exception
      the gate's ratio has. */
  lemma ReportIgnoresAccountSize(c: real, bars: seq<Price>, actions: seq<Action>, slip: Draws, start: real,
                                 scaled: real,
                                 f: real, root: Root, r: Engine.Result, s: Engine.Result)
    requires c > 0.0 && start != 0.0 && scaled != 0.0 && scaled == Times(c, start) && |actions| == |bars|
    requires Engine.ReportsTrades(bars, actions, slip, start, f, r) &&
      Engine.ReportsRates(bars, actions, slip, start, f, root, r)
    requires Engine.ReportsTrades(bars, actions, slip, scaled, f, s) &&
      Engine.ReportsRates(bars, actions, slip, scaled, f, root, s)
    ensures SameReport(r, s) && s.finalEquity == Times(c, r.finalEquity)
  {
    TradesScale(c, bars, actions, slip, start, scaled, f);
    SameWinRate(c, start, scaled, f, Engine.EngineTrades(bars, actions, slip, start, f));
    SameReturn(c, start, scaled, r.finalEquity, s.finalEquity);
  }
}
