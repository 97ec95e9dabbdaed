/** What the backtest gate's numbers mean. */
module GateProperties {
  import opened Rounding
  import opened Trades
  import opened Json
  import opened Config
  import opened Decision
  import opened Drawdown
  import opened Sharpe
  import opened BacktestGate

  // ---------------------------------------------------------------- round trips chain

  lemma GateTradeAt(prices: seq<Price>, actions: seq<Action>, slip: Draws, k: nat)
    requires |actions| == |prices| && k < |Lots(actions)|
    ensures |GateTrades(prices, actions, slip)| == |Lots(actions)|
    ensures Lots(actions)[k].bar <= ExitBar(Lots(actions), k, |prices|) < |prices|
    ensures GateTrades(prices, actions, slip)[k]
      == RoundTrip(prices, Lots(actions)[k], ExitBar(Lots(actions), k, |prices|), k, slip)
  {
    LotsInRange(actions);
    LotShape(actions, k);
    TradeAt(prices, Lots(actions), slip, k);
  }

  /** Consecutive round trips alternate in direction, and the next entry fills on the very bar,
      with the very next draw, of the previous exit. */
  lemma TradesChain(prices: seq<Price>, actions: seq<Action>, slip: Draws, k: nat)
    requires |actions| == |prices| && k + 1 < |GateTrades(prices, actions, slip)|
    ensures var a, b := GateTrades(prices, actions, slip)[k], GateTrades(prices, actions, slip)[k + 1];
      && (a.dir == 1 || a.dir == -1) && b.dir == -a.dir
      && a.exit == Fill(b.mark, -a.dir, slip(2 * k + 1))
      && b.entry == Fill(b.mark, b.dir, slip(2 * k + 2))
  {
    GateTradeAt(prices, actions, slip, k);
    GateTradeAt(prices, actions, slip, k + 1);
    LotShape(actions, k);
  }

  // ---------------------------------------------------------------- slippage never helps

  lemma TradeFills(prices: seq<Price>, actions: seq<Action>, slip: Draws, k: nat)
    requires |actions| == |prices| && k < |Lots(actions)|
    ensures var t, t0 := GateTrades(prices, actions, slip)[k], GateTrades(prices, actions, NO_SLIPPAGE)[k];
      && t.dir == t0.dir && (t.dir == 1 || t.dir == -1) && WorseFills(t, t0)
      && (ProductionDraws(slip) ==> t.entry != t0.entry && t.exit != t0.exit)
  {
    var lots := Lots(actions);
    LotShape(actions, k);
    GateTradeAt(prices, actions, slip, k);
    GateTradeAt(prices, actions, NO_SLIPPAGE, k);
    FillMonotone(prices[lots[k].bar], lots[k].dir, 0.0, slip(2 * k));
    FillMonotone(prices[ExitBar(lots, k, |prices|)], -lots[k].dir, 0.0, slip(2 * k + 1));
  }

  ghost predicate WorseFills(t: Trade, t0: Trade) {
    if t.dir > 0 then t0.entry <= t.entry && t.exit <= t0.exit
    else t.entry <= t0.entry && t0.exit <= t.exit
  }

  lemma RatioMono(a: Price, b: Price, c: Price, d: Price)
    requires a <= b && c <= d
    ensures a / d <= b / c
    ensures a < b ==> a / d < b / c
  {
    var x, y := a / d, b / c;
    assert x * d == a && y * c == b && x > 0.0;
    MultiplyMono(c, d, x);
    assert x * c <= y * c;
    CancelFactor(x, y, c);
  }

  lemma CancelFactor(x: real, y: real, c: Price)
    ensures x * c <= y * c ==> x <= y
    ensures x * c < y * c ==> x < y
  {
  }

  lemma GrowthDominance(t: Trade, t0: Trade, f: real)
    requires f >= 0.0 && t.dir == t0.dir && (t.dir == 1 || t.dir == -1) && WorseFills(t, t0)
    ensures Growth(t, f) <= Growth(t0, f)
    ensures f > 0.0 && t.exit != t0.exit ==> Growth(t, f) < Growth(t0, f)
  {
    var r, r0 := t.exit / t.entry, t0.exit / t0.entry;
    if t.dir == 1 {
      RatioMono(t.exit, t0.exit, t0.entry, t.entry);
      GrowthGap(f, 1, r, r0);
    } else {
      RatioMono(t0.exit, t.exit, t.entry, t0.entry);
      GrowthGap(f, -1, r, r0);
    }
  }

  lemma GrowthGap(f: real, dir: int, r: real, r0: real)
    requires f >= 0.0 && ((dir == 1 && r <= r0) || (dir == -1 && r0 <= r))
    ensures Grown(f, dir, r) <= Grown(f, dir, r0)
    ensures f > 0.0 && r != r0 ==> Grown(f, dir, r) < Grown(f, dir, r0)
  {
    GrownDifference(f, dir, r, r0);
    ScaleGap(f, 0.0, if dir == 1 then r0 - r else r - r0);
  }

  lemma GrownDifference(f: real, dir: int, r: real, r0: real)
    requires dir == 1 || dir == -1
    ensures Grown(f, dir, r0) - Grown(f, dir, r) == f * (if dir == 1 then r0 - r else r - r0)
  {
  }

  lemma ScaleGap(f: real, a: real, b: real)
    requires f >= 0.0 && a <= b
    ensures f * a <= f * b
    ensures f > 0.0 && a < b ==> f * a < f * b
  {
    assert f * b - f * a == f * (b - a);
    assert f * (b - a) >= 0.0;
    if f > 0.0 && a < b {
      assert f * (b - a) > 0.0;
    }
  }

  ghost predicate NoNegativeGrowth(trades: seq<Trade>, f: real) {
    forall k :: 0 <= k < |trades| ==> Growth(trades[k], f) >= 0.0
  }

  /** On the same decisions, slippage never leaves more cash than frictionless fills - and
      strictly less once something was traded - as long as no slipped trade loses more than
      the whole account. */
  lemma SlippageNeverHelps(prices: seq<Price>, actions: seq<Action>, slip: Draws, start: real, f: real)
    requires |actions| == |prices| && start >= 0.0 && f >= 0.0
    requires NoNegativeGrowth(GateTrades(prices, actions, slip), f)
    ensures FinalCash(prices, actions, slip, start, f) <= FinalCash(prices, actions, NO_SLIPPAGE, start, f)
    ensures ProductionDraws(slip) && start > 0.0 && f > 0.0 && Lots(actions) != [] ==>
      FinalCash(prices, actions, slip, start, f) < FinalCash(prices, actions, NO_SLIPPAGE, start, f)
  {
    var trades, ideal := GateTrades(prices, actions, slip), GateTrades(prices, actions, NO_SLIPPAGE);
    var low, high := Growths(trades, f), Growths(ideal, f);
    forall k | 0 <= k < |trades|
      ensures 0.0 <= low[k] <= high[k]
      ensures ProductionDraws(slip) && f > 0.0 ==> low[k] < high[k]
    {
      TradeFills(prices, actions, slip, k);
      GrowthDominance(trades[k], ideal[k], f);
    }
    CompoundDominance(start, low, high);
    if ProductionDraws(slip) && start > 0.0 && f > 0.0 && Lots(actions) != [] {
      CompoundStrictDominance(start, low, high);
    }
  }

  /** When a trade's growth is non-negative: always for a long with 0 <= f <= 1; for a short
      exactly when f times its exit fill is at most 1 + f times its entry fill. */
  lemma GrowthSign(t: Trade, f: real)
    requires 0.0 <= f <= 1.0
    ensures t.dir == 1 ==> Growth(t, f) > 0.0 || (f == 1.0 && Growth(t, f) >= 0.0)
    ensures t.dir == -1 ==> (Growth(t, f) >= 0.0 <==> t.exit * f <= (1.0 + f) * t.entry)
  {
    var r := t.exit / t.entry;
    assert r * t.entry == t.exit;
    if t.dir == 1 {
      assert r > 0.0;
      assert f * r >= 0.0;
      assert f * (r - 1.0) == f * r - f;
    } else if t.dir == -1 {
      assert f * (-1.0 * (r - 1.0)) == f - f * r;
      var g := 1.0 + f - f * r;
      assert Growth(t, f) == g;
      assert g * t.entry == (1.0 + f) * t.entry - f * (r * t.entry);
      SignOfProduct(g, t.entry);
    }
  }

  lemma SignOfProduct(g: real, p: Price)
    ensures g >= 0.0 <==> g * p >= 0.0
  {
  }

  /** A condition on prices alone, checkable before the run: no later price exceeds an earlier
      one by more than the factor a short can survive, slippage at its worst included. */
  ghost predicate ShortsSurvivable(prices: seq<Price>, f: real) {
    forall i, j :: 0 <= i <= j < |prices| ==> Survivable(prices[i], prices[j], f)
  }

  predicate Survivable(sold: Price, bought: Price, f: real) {
    bought * (1.0 + SLIPPAGE_MAX_PCT) * f <= (1.0 + f) * (sold * (1.0 - SLIPPAGE_MAX_PCT))
  }

  lemma SurvivableGrowth(prices: seq<Price>, actions: seq<Action>, slip: Draws, f: real, k: nat)
    requires |actions| == |prices| && 0.0 <= f <= 1.0 && ShortsSurvivable(prices, f)
    requires k < |GateTrades(prices, actions, slip)|
    ensures Growth(GateTrades(prices, actions, slip)[k], f) >= 0.0
  {
    var lots := Lots(actions);
    LotShape(actions, k);
    GateTradeAt(prices, actions, slip, k);
    RoundTripSurvives(prices, lots[k], ExitBar(lots, k, |prices|), k, slip, f);
  }

  lemma RoundTripSurvives(prices: seq<Price>, lot: Lot, exitBar: nat, k: nat, slip: Draws, f: real)
    requires 0.0 <= f <= 1.0 && lot.bar <= exitBar < |prices| && (lot.dir == 1 || lot.dir == -1)
    requires Survivable(prices[lot.bar], prices[exitBar], f)
    ensures Growth(RoundTrip(prices, lot, exitBar, k, slip), f) >= 0.0
  {
    GrowthSign(RoundTrip(prices, lot, exitBar, k, slip), f);
    if lot.dir == -1 {
      ShortFills(prices[lot.bar], prices[exitBar], slip(2 * k), slip(2 * k + 1), f);
    }
  }

  lemma ShortFills(sold: Price, bought: Price, a: Slip, b: Slip, f: real)
    requires 0.0 <= f && Survivable(sold, bought, f)
    ensures Fill(bought, 1, b) * f <= (1.0 + f) * Fill(sold, -1, a)
  {
    FillMonotone(sold, -1, a, SLIPPAGE_MAX_PCT);
    FillMonotone(bought, 1, b, SLIPPAGE_MAX_PCT);
    var worstBuy, worstSell := bought * (1.0 + SLIPPAGE_MAX_PCT), sold * (1.0 - SLIPPAGE_MAX_PCT);
    MultiplyMono(Fill(bought, 1, b), worstBuy, f);
    ScaleGap(1.0 + f, worstSell, Fill(sold, -1, a));
  }

  lemma SlippageNeverHelpsOnPrices(prices: seq<Price>, actions: seq<Action>, slip: Draws, start: real, f: real)
    requires |actions| == |prices| && start >= 0.0 && 0.0 <= f <= 1.0 && ShortsSurvivable(prices, f)
    ensures 0.0 <= FinalCash(prices, actions, slip, start, f) <= FinalCash(prices, actions, NO_SLIPPAGE, start, f)
  {
    var trades := GateTrades(prices, actions, slip);
    forall k | 0 <= k < |trades| ensures Growth(trades[k], f) >= 0.0 {
      SurvivableGrowth(prices, actions, slip, f, k);
    }
    SlippageNeverHelps(prices, actions, slip, start, f);
    CompoundDominance(start, Growths(trades, f), Growths(trades, f));
  }

  // ---------------------------------------------------------------- ... and when it does

  /** Sell at bar i, buy at bar j, nothing else. */
  function ShortThenLong(n: nat, i: nat, j: nat): (actions: seq<Action>)
    ensures |actions| == n
  {
    seq(n, k => if k == i then Sell else if k == j then Buy else Hold)
  }

  /** Only the third fill - the opening of the second lot - slips. */
  const ONE_SLIP: Draws := (k: nat) => if k == 2 then SLIPPAGE_MAX_PCT else 0.0

  lemma {:induction false} PrefixLots(n: nat, i: nat, j: nat, m: nat)
    requires i < j < n && m <= n
    ensures Lots(ShortThenLong(n, i, j)[..m]) ==
      if m <= i then [] else if m <= j then [Lot(i, -1)] else [Lot(i, -1), Lot(j, 1)]
  {
    if m > 0 {
      PrefixLots(n, i, j, m - 1);
      LotsStep(ShortThenLong(n, i, j), m - 1);
    }
  }

  lemma TwoLots(n: nat, i: nat, j: nat)
    requires i < j < n
    ensures Lots(ShortThenLong(n, i, j)) == [Lot(i, -1), Lot(j, 1)]
  {
    PrefixLots(n, i, j, n);
    assert ShortThenLong(n, i, j)[..n] == ShortThenLong(n, i, j);
  }

  function AfterTwo(start: real, x: real, y: real): real {
    start * x * y
  }

  lemma CompoundTwo(start: real, x: real, y: real)
    ensures Compound(start, [x, y]) == AfterTwo(start, x, y)
  {
    assert [x, y][..1] == [x] && [x][..0] == [];
    assert Compound(start, [x]) == start * x;
  }

  /** The money of a short from i to j and a long from j to the end. */
  lemma ShortThenLongCash(prices: seq<Price>, i: nat, j: nat, slip: Draws, start: real, f: real)
    requires i < j < |prices|
    ensures var n := |prices|;
      FinalCash(prices, ShortThenLong(n, i, j), slip, start, f) ==
        AfterTwo(start, Growth(RoundTrip(prices, Lot(i, -1), j, 0, slip), f),
                 Growth(RoundTrip(prices, Lot(j, 1), n - 1, 1, slip), f))
  {
    var n := |prices|;
    var actions := ShortThenLong(n, i, j);
    TwoLots(n, i, j);
    GateTradeAt(prices, actions, slip, 0);
    GateTradeAt(prices, actions, slip, 1);
    var x, y := Growth(RoundTrip(prices, Lot(i, -1), j, 0, slip), f),
      Growth(RoundTrip(prices, Lot(j, 1), n - 1, 1, slip), f);
    assert Growths(GateTrades(prices, actions, slip), f) == [x, y];
    CompoundTwo(start, x, y);
  }

  lemma StrictRatio(a: Price, c: Price, d: Price)
    requires c < d
    ensures a / d < a / c
  {
    var x, y := a / d, a / c;
    assert x * d == a && y * c == a && x > 0.0;
    assert x * c < x * d;
    CancelFactor(x, y, c);
  }

  /** A long that buys dearer grows less. */
  lemma DearerLongGrowsLess(t: Trade, t0: Trade, f: real)
    requires t.dir == t0.dir == 1 && t.exit == t0.exit && t0.entry < t.entry && f > 0.0
    ensures Growth(t, f) < Growth(t0, f)
  {
    StrictRatio(t.exit, t0.entry, t.entry);
    GrowthGap(f, 1, t.exit / t.entry, t0.exit / t0.entry);
  }

  /** After a ruinous trade, the smaller next factor leaves more. */
  lemma LessIsMore(start: real, g: real, x: real, y: real)
    requires start > 0.0 && g < 0.0 && x < y
    ensures AfterTwo(start, g, x) > AfterTwo(start, g, y)
  {
    var cash := start * g;
    assert cash < 0.0;
    assert cash * x - cash * y == cash * (x - y);
    assert cash * (x - y) > 0.0;
  }

  lemma Unslipped(price: Price, dir: int)
    ensures Fill(price, dir, 0.0) == price
  {
  }

  /** A short that loses more than everything, even without slippage. */
  predicate Ruinous(sold: Price, bought: Price, f: real) {
    bought * f > (1.0 + f) * sold
  }

  lemma RuinousGrowth(prices: seq<Price>, i: nat, j: nat, slip: Draws, f: real)
    requires i < j < |prices| && 0.0 < f <= 1.0 && Ruinous(prices[i], prices[j], f) && slip(0) == slip(1) == 0.0
    ensures Growth(RoundTrip(prices, Lot(i, -1), j, 0, slip), f) < 0.0
    ensures RoundTrip(prices, Lot(i, -1), j, 0, slip) == Trade(-1, prices[i], prices[j], prices[i])
  {
    Unslipped(prices[i], -1);
    Unslipped(prices[j], 1);
    GrowthSign(RoundTrip(prices, Lot(i, -1), j, 0, slip), f);
  }

  /** Whenever the series holds a ruinous short, slippage can help: on an account below zero the
      dearer long does less harm.  With SlippageNeverHelpsOnPrices this settles the question up to
      the margin of the slippage itself. */
  lemma SlippageCanHelp(prices: seq<Price>, i: nat, j: nat, start: real, f: real)
    requires i < j < |prices| && 0.0 < f <= 1.0 && start > 0.0 && Ruinous(prices[i], prices[j], f)
    ensures var actions := ShortThenLong(|prices|, i, j);
      FinalCash(prices, actions, ONE_SLIP, start, f) > FinalCash(prices, actions, NO_SLIPPAGE, start, f)
  {
    var n := |prices|;
    ShortThenLongCash(prices, i, j, ONE_SLIP, start, f);
    ShortThenLongCash(prices, i, j, NO_SLIPPAGE, start, f);
    RuinousGrowth(prices, i, j, ONE_SLIP, f);
    RuinousGrowth(prices, i, j, NO_SLIPPAGE, f);
    var dear, fair := RoundTrip(prices, Lot(j, 1), n - 1, 1, ONE_SLIP),
      RoundTrip(prices, Lot(j, 1), n - 1, 1, NO_SLIPPAGE);
    FillMonotone(prices[j], 1, 0.0, SLIPPAGE_MAX_PCT);
    DearerLongGrowsLess(dear, fair, f);
    LessIsMore(start, Growth(RoundTrip(prices, Lot(i, -1), j, 0, NO_SLIPPAGE), f), Growth(dear, f), Growth(fair, f));
  }

  // ---------------------------------------------------------------- an equity curve below zero

  const SHORT_PRICES: seq<Price> := [1.0, 0.5, 4.0]
  const SHORT_ACTIONS: seq<Action> := [Sell, Hold, Hold]

  lemma ShortLots(m: nat)
    requires 1 <= m <= 3
    ensures Lots(SHORT_ACTIONS[..m]) == [Lot(0, -1)]
  {
    LotsStep(SHORT_ACTIONS, m - 1);
    if m > 1 {
      ShortLots(m - 1);
    } else {
      assert SHORT_ACTIONS[..0] == [];
    }
  }

  lemma ShortMark(slip: Draws, k: nat, entry: Price)
    requires k < 3 && entry == Fill(1.0, -1, slip(0))
    ensures MarkedAt(SHORT_PRICES, SHORT_ACTIONS, slip, 100.0, 0.95, k) == 195.0 - 95.0 * (SHORT_PRICES[k] / entry)
  {
    ShortLots(k + 1);
    LotsInRange(SHORT_ACTIONS[..k + 1]);
    var t := Trade(-1, entry, SHORT_PRICES[k], 1.0);
    PnlIsGrowth(100.0, 0.95, t);
    assert ClosedTrades(SHORT_PRICES, [Lot(0, -1)], slip) == [];
    assert Compound(100.0, Growths([], 0.95)) == 100.0;
    assert MarkedAt(SHORT_PRICES, SHORT_ACTIONS, slip, 100.0, 0.95, k) == 100.0 + TradePnl(100.0, 0.95, t);
  }

  lemma RatioBounds(x: real, entry: Price)
    requires x > 0.0 && 0.9995 <= entry <= 1.0
    ensures x <= x / entry <= 1.001 * x
  {
    var q := x / entry;
    assert q * entry == x && q > 0.0;
    MultiplyMono(0.9995, entry, q);
    MultiplyMono(entry, 1.0, q);
  }

  /** Such curves are those of runs: whatever the draws, selling at 1 and seeing 0.5 and then 4
      leads through a higher bar to one below zero, and the reported drawdown misses the worst pair. */
  lemma RunIsUnderstated(slip: Draws)
    ensures var curve := EquityCurve(SHORT_PRICES, SHORT_ACTIONS, slip, 100.0, 0.95, 3);
      !BoundsAllDrops(curve, WorstDrop(curve, NonZeroPeak))
  {
    var curve := EquityCurve(SHORT_PRICES, SHORT_ACTIONS, slip, 100.0, 0.95, 3);
    var entry := Fill(1.0, -1, slip(0));
    assert 0.9995 <= entry <= 1.0;
    ShortMark(slip, 0, entry);
    ShortMark(slip, 1, entry);
    ShortMark(slip, 2, entry);
    RatioBounds(1.0, entry);
    RatioBounds(0.5, entry);
    RatioBounds(4.0, entry);
    assert 0.0 < curve[0] < curve[1] && curve[2] < 0.0;
    assert curve == [curve[0], curve[1]] + [curve[2]];
    FallPastZeroIff([curve[0], curve[1]], curve[2], NonZeroPeak);
    assert [curve[0], curve[1]][1] != [curve[0], curve[1]][0];
  }

  // ---------------------------------------------------------------- account size is irrelevant

  lemma TradePnlScales(c: real, cash: real, scaledCash: real, f: real, t: Trade)
    requires scaledCash == Times(c, cash)
    ensures TradePnl(scaledCash, f, t) == Times(c, TradePnl(cash, f, t))
  {
    PnlIsGrowth(cash, f, t);
    PnlIsGrowth(scaledCash, f, t);
    TimesOverProduct(c, cash, Growth(t, f));
  }

  lemma TimesOverProduct(c: real, cash: real, g: real)
    ensures Times(c, cash) * g - Times(c, cash) == Times(c, cash * g - cash)
  {
  }

  lemma {:induction false} PnlsScale(c: real, start: real, scaled: real, f: real, trades: seq<Trade>)
    requires scaled == c * start
    ensures Scaled(c, Pnls(start, f, trades), Pnls(scaled, f, trades))
  {
    if trades != [] {
      var front, last := trades[..|trades| - 1], trades[|trades| - 1];
      PnlsScale(c, start, scaled, f, front);
      CompoundScales(c, start, Growths(front, f));
      var cash, scaledCash := Compound(start, Growths(front, f)), Compound(scaled, Growths(front, f));
      TradePnlScales(c, cash, scaledCash, f, last);
      ScaledExtends(c, Pnls(start, f, front), Pnls(scaled, f, front), TradePnl(cash, f, last),
                    TradePnl(scaledCash, f, last));
    }
  }

  lemma ScaledExtends(c: real, xs: seq<real>, scaled: seq<real>, x: real, scaledX: real)
    requires Scaled(c, xs, scaled) && scaledX == Times(c, x)
    ensures Scaled(c, xs + [x], scaled + [scaledX])
  {
  }

  lemma {:induction false} CountsScale(c: real, pnls: seq<real>, scaled: seq<real>)
    requires c > 0.0 && Scaled(c, pnls, scaled)
    ensures CountWins(scaled) == CountWins(pnls) && CountLosses(scaled) == CountLosses(pnls)
  {
    if pnls != [] {
      var n := |pnls| - 1;
      CountsScale(c, pnls[..n], scaled[..n]);
      ScaledDrop(c, pnls[n], 0.0);
    }
  }

  lemma CountsIgnoreAccountSize(c: real, start: real, scaled: real, f: real, trades: seq<Trade>)
    requires c > 0.0 && scaled == c * start
    ensures |Pnls(scaled, f, trades)| == |Pnls(start, f, trades)|
    ensures CountWins(Pnls(scaled, f, trades)) == CountWins(Pnls(start, f, trades))
    ensures CountLosses(Pnls(scaled, f, trades)) == CountLosses(Pnls(start, f, trades))
  {
    PnlsScale(c, start, scaled, f, trades);
    CountsScale(c, Pnls(start, f, trades), Pnls(scaled, f, trades));
  }

  lemma SumScales(c: real, a: real, b: real, ca: real, cb: real)
    requires ca == c * a && cb == c * b
    ensures ca + cb == Times(c, a + b)
  {
  }

  lemma MarkedScales(c: real, prices: seq<Price>, actions: seq<Action>, slip: Draws, start: real, f: real, i: nat)
    requires |actions| == |prices| && i < |prices|
    ensures MarkedAt(prices, actions, slip, c * start, f, i) == Times(c, MarkedAt(prices, actions, slip, start, f, i))
  {
    LotsInRange(actions[..i + 1]);
    var lots := Lots(actions[..i + 1]);
    var gs := Growths(ClosedTrades(prices, lots, slip), f);
    CompoundScales(c, start, gs);
    if lots != [] {
      var entry := EntryFill(prices, lots, slip);
      var cash, t := Compound(start, gs), Trade(LastDir(lots), entry, prices[i], entry);
      var scaledCash := Compound(c * start, gs);
      TradePnlScales(c, cash, scaledCash, f, t);
      SumScales(c, cash, TradePnl(cash, f, t), scaledCash, TradePnl(scaledCash, f, t));
      assert MarkedAt(prices, actions, slip, start, f, i) == cash + TradePnl(cash, f, t);
    }
  }

  lemma DrawdownScales(c: real, prices: seq<Price>, actions: seq<Action>, slip: Draws, start: real, scaled: real,
                       f: real)
    requires |actions| == |prices| && c > 0.0 && scaled == c * start
    ensures WorstDrop(EquityCurve(prices, actions, slip, scaled, f, |prices|), NonZeroPeak)
         == WorstDrop(EquityCurve(prices, actions, slip, start, f, |prices|), NonZeroPeak)
  {
    var low, high := EquityCurve(prices, actions, slip, start, f, |prices|),
      EquityCurve(prices, actions, slip, scaled, f, |prices|);
    forall i | 0 <= i < |prices| ensures high[i] == Times(c, low[i]) {
      MarkedScales(c, prices, actions, slip, start, f, i);
    }
    WorstDropScaleInvariant(c, low, high, NonZeroPeak);
  }

  lemma ReturnScales(c: real, prices: seq<Price>, actions: seq<Action>, slip: Draws, start: real, scaled: real, f: real)
    requires |actions| == |prices| && c > 0.0 && start > 0.0 && scaled > 0.0 && scaled == c * start
    ensures ReturnPct(FinalCash(prices, actions, slip, scaled, f), scaled) ==
      ReturnPct(FinalCash(prices, actions, slip, start, f), start)
  {
    CompoundScales(c, start, Growths(GateTrades(prices, actions, slip), f));
    SameReturn(c, FinalCash(prices, actions, slip, start, f), start, FinalCash(prices, actions, slip, scaled, f),
               scaled);
  }

  lemma SameReturn(c: real, cash: real, start: real, scaledCash: real, scaledStart: real)
    requires c > 0.0 && start != 0.0 && scaledCash == c * cash && scaledStart == c * start
    ensures scaledStart != 0.0 && ReturnPct(scaledCash, scaledStart) == ReturnPct(cash, start)
  {
    RatioScales(c, cash, start, scaledCash, scaledStart);
  }

  /** Return, drawdown, counts and rates are the same for any two positive starting equities.  The
      Sharpe ratio is too, unless its absolute cut on the deviation falls between the two sizes and
      the ratio does not round to zero. */
  lemma MetricsIgnoreAccountSize(prices: seq<Price>, actions: seq<Action>, slip: Draws, start: real, other: real,
                                 f: real, root: Root)
    requires |actions| == |prices| && start > 0.0 && other > 0.0 && IsSquareRoot(root)
    ensures var low, high := MetricsOf(prices, actions, slip, start, f, root),
      MetricsOf(prices, actions, slip, other, f, root);
      var pnls := Pnls(start, f, GateTrades(prices, actions, slip));
      && high == low.(sharpe := high.sharpe)
      && (high.sharpe == low.sharpe <==>
            |pnls| < 2 || SameSideOfCut(other / start, Deviation(pnls, root)) || RoundedRatio(pnls, root) == 0.0)
  {
    var c, trades := ScaleFactor(start, other), GateTrades(prices, actions, slip);
    CountsIgnoreAccountSize(c, start, other, f, trades);
    ReturnScales(c, prices, actions, slip, start, other, f);
    DrawdownScales(c, prices, actions, slip, start, other, f);
    PnlsScale(c, start, other, f, trades);
    SharpeAgreesIff(c, Pnls(start, f, trades), Pnls(other, f, trades), root);
    SameSummary(ReturnPct(FinalCash(prices, actions, slip, start, f), start),
                DrawdownPct(EquityCurve(prices, actions, slip, start, f, |prices|)),
                Pnls(start, f, trades), Pnls(other, f, trades), CountSignals(actions), root);
  }

  lemma SharpeAgreesIff(c: real, pnls: seq<real>, scaled: seq<real>, root: Root)
    requires c > 0.0 && Scaled(c, pnls, scaled) && IsSquareRoot(root)
    ensures SharpeOf(scaled, root) == SharpeOf(pnls, root) <==>
      |pnls| < 2 || SameSideOfCut(c, Deviation(pnls, root)) || RoundedRatio(pnls, root) == 0.0
  {
    if pnls != [] {
      SharpeScaled(c, pnls, scaled, root);
    }
  }

  function ScaleFactor(start: real, other: real): (c: real)
    requires start > 0.0 && other > 0.0
    ensures c == other / start && c > 0.0 && other == c * start
  {
    other / start
  }

  lemma SameSummary(returnPct: real, drawdownPct: real, pnls: seq<real>, others: seq<real>, signals: nat, root: Root)
    requires |others| == |pnls| && CountWins(others) == CountWins(pnls) && CountLosses(others) == CountLosses(pnls)
    ensures var low, high := Summary(returnPct, drawdownPct, pnls, signals, root),
      Summary(returnPct, drawdownPct, others, signals, root);
      high == low.(sharpe := high.sharpe)
  {
  }
}
