/** cognitive/backtest_gate.py: the paired, config-parameterised backtest that judges proposals. */
module BacktestGate {
  import opened Rounding
  import opened Trades
  import opened Json
  import opened Config
  import opened Decision
  import opened Drawdown
  import opened Sharpe
  import opened Report

  const HISTORY_WINDOW := 64

  /** The four specialists and their aggregation: a function of the visible history and news. */
  type Perceive = (seq<Price>, Option<real>) -> Features

  function History(prices: seq<Price>, index: nat): seq<Price>
    requires index < |prices|
  {
    prices[if index < HISTORY_WINDOW then 0 else index - HISTORY_WINDOW + 1..index + 1]
  }

  function NewsAt(news: Option<seq<real>>, index: nat): Option<real> {
    if news.Some? && index < |news.value| then Some(news.value[index]) else None
  }

  function ActionAt(prices: seq<Price>, news: Option<seq<real>>, config: CognitiveConfig, perceive: Perceive,
                    index: nat): Action
    requires index < |prices|
  {
    Decide(perceive(History(prices, index), NewsAt(news, index)), config).action
  }

  function Actions(prices: seq<Price>, news: Option<seq<real>>, config: CognitiveConfig,
                   perceive: Perceive): seq<Action> {
    seq(|prices|, i requires 0 <= i < |prices| => ActionAt(prices, news, config, perceive, i))
  }

  // ---------------------------------------------------------------- closed forms

  /** What one round trip multiplies the account by. */
  function Growth(t: Trade, f: real): real {
    Grown(f, t.dir, t.exit / t.entry)
  }

  /** ... as a function of the exit/entry ratio. */
  function Grown(f: real, dir: int, ratio: real): real {
    1.0 + f * (dir as real * (ratio - 1.0))
  }

  function Growths(trades: seq<Trade>, f: real): (gs: seq<real>)
    ensures |gs| == |trades|
  {
    seq(|trades|, k requires 0 <= k < |trades| => Growth(trades[k], f))
  }

  function Quantity(cash: real, f: real, entry: Price): real {
    cash * f / entry
  }

  function Gain(dir: int, qty: real, entry: real, price: real): real {
    dir as real * qty * (price - entry)
  }

  /** Gain of a lot sized from `cash`. */
  function Pnl(cash: real, dir: int, f: real, entry: Price, price: Price): real {
    Gain(dir, Quantity(cash, f, entry), entry, price)
  }

  function Pnls(start: real, f: real, trades: seq<Trade>): (pnls: seq<real>)
    ensures |pnls| == |trades|
  {
    if trades == [] then []
    else
      var front, last := trades[..|trades| - 1], trades[|trades| - 1];
      Pnls(start, f, front) + [TradePnl(Compound(start, Growths(front, f)), f, last)]
  }

  function TradePnl(cash: real, f: real, t: Trade): real {
    Pnl(cash, t.dir, f, t.entry, t.exit)
  }

  lemma PnlIsGrowth(cash: real, f: real, t: Trade)
    ensures cash + TradePnl(cash, f, t) == cash * Growth(t, f)
  {
    var r := t.exit / t.entry - 1.0;
    assert t.exit / t.entry * t.entry == t.exit;
    assert r * t.entry == t.exit - t.entry;
    var q := cash * f / t.entry;
    assert q * t.entry == cash * f;
    var d := t.dir as real;
    calc {
      d * q * (t.exit - t.entry);
      d * q * (r * t.entry);
      d * r * (q * t.entry);
      d * r * (cash * f);
      cash * (f * (d * r));
    }
  }

  lemma GrowthsFront(trades: seq<Trade>, f: real)
    requires trades != []
    ensures Growths(trades, f)[..|trades| - 1] == Growths(trades[..|trades| - 1], f)
  {
  }

  /** Cash flow and product forms agree: start + sum of trade PnL = start x product of growths. */
  lemma {:induction false} CashIsSumAndProduct(start: real, f: real, trades: seq<Trade>)
    ensures start + Sum(Pnls(start, f, trades)) == Compound(start, Growths(trades, f))
  {
    if trades != [] {
      var n := |trades| - 1;
      var front, last := trades[..n], trades[n];
      CashIsSumAndProduct(start, f, front);
      GrowthsFront(trades, f);
      assert Pnls(start, f, trades)[..n] == Pnls(start, f, front);
      PnlIsGrowth(Compound(start, Growths(front, f)), f, last);
    }
  }

  // ---------------------------------------------------------------- metrics

  datatype Metrics = Metrics(
    totalReturnPct: real, sharpe: real, maxDrawdownPct: real, trades: nat, signals: nat, winRate: real,
      falsePositiveRate: real)

  function Rate(count: nat, trades: nat): real {
    if trades == 0 then 0.0 else Round(count as real / trades as real, GRID4)
  }

  /** Account value with the last of `lots` open and marked at `price`. */
  function Marked(prices: seq<Price>, lots: seq<Lot>, slip: Draws, start: real, f: real, price: Price): real
    requires InRange(lots, |prices|)
  {
    var cash := Compound(start, Growths(ClosedTrades(prices, lots, slip), f));
    if lots == [] then cash
    else cash + Pnl(cash, LastDir(lots), f, EntryFill(prices, lots, slip), price)
  }

  function EntryFill(prices: seq<Price>, lots: seq<Lot>, slip: Draws): Price
    requires InRange(lots, |prices|) && lots != []
  {
    var k := |lots| - 1;
    Fill(prices[lots[k].bar], lots[k].dir, slip(2 * k))
  }

  function MarkedAt(prices: seq<Price>, actions: seq<Action>, slip: Draws, start: real, f: real, i: nat): real
    requires |actions| == |prices| && i < |prices|
  {
    LotsInRange(actions[..i + 1]);
    Marked(prices, Lots(actions[..i + 1]), slip, start, f, prices[i])
  }

  function EquityCurve(prices: seq<Price>, actions: seq<Action>, slip: Draws, start: real, f: real,
                       n: nat): (curve: seq<real>)
    requires n <= |actions| == |prices|
    ensures |curve| == n
  {
    seq(n, i requires 0 <= i < n => MarkedAt(prices, actions, slip, start, f, i))
  }

  function GateTrades(prices: seq<Price>, actions: seq<Action>, slip: Draws): seq<Trade>
    requires |actions| == |prices|
  {
    LotsInRange(actions);
    AllTrades(prices, Lots(actions), slip)
  }

  function FinalCash(prices: seq<Price>, actions: seq<Action>, slip: Draws, start: real, f: real): real
    requires |actions| == |prices|
  {
    Compound(start, Growths(GateTrades(prices, actions, slip), f))
  }

  /** The read-out of one run. */
  function Summary(returnPct: real, drawdownPct: real, pnls: seq<real>, signals: nat, root: Root): Metrics {
    Metrics(returnPct, SharpeOf(pnls, root), drawdownPct, |pnls|, signals,
            Rate(CountWins(pnls), |pnls|), Rate(CountLosses(pnls), |pnls|))
  }

  function DrawdownPct(curve: seq<real>): real {
    Round(WorstDrop(curve, NonZeroPeak) * 100.0, GRID4)
  }

  function ReturnPct(cash: real, start: real): real
    requires start != 0.0
  {
    Round((cash / start - 1.0) * 100.0, GRID4)
  }

  function MetricsOf(prices: seq<Price>, actions: seq<Action>, slip: Draws, start: real, f: real, root: Root): Metrics
    requires |actions| == |prices| && start != 0.0
  {
    Summary(ReturnPct(FinalCash(prices, actions, slip, start, f), start),
            DrawdownPct(EquityCurve(prices, actions, slip, start, f, |prices|)),
            Pnls(start, f, GateTrades(prices, actions, slip)), CountSignals(actions), root)
  }

  // ---------------------------------------------------------------- what the read-out means

  /** The return is the money made in percent of the start, the rates are the shares of the round
      trips that made and that lost money, and the Sharpe ratio is theirs. */
  ghost predicate Reports(m: Metrics, pnls: seq<real>, start: real, root: Root)
    requires start != 0.0
  {
    && ReturnFits(m.totalReturnPct, Sum(pnls), start)
    && m.trades == |pnls|
    && RateFits(m.winRate, |Winners(pnls)|, |pnls|) && RateFits(m.falsePositiveRate, |Losers(pnls)|, |pnls|)
    && (IsSquareRoot(root) ==> SharpeFits(m.sharpe, pnls))
  }

  lemma ReturnIsGain(cash: real, gain: real, start: real)
    requires start != 0.0 && cash == start + gain
    ensures ReturnFits(ReturnPct(cash, start), gain, start)
  {
    GainOverStart(cash, gain, start);
    NearGrid4((cash / start - 1.0) * 100.0);
  }

  lemma RateIsShare(count: nat, trades: nat)
    ensures RateFits(Rate(count, trades), count, trades)
  {
    if trades > 0 {
      NearGrid4(count as real / trades as real);
    }
  }

  lemma SummaryReports(cash: real, drawdownPct: real, pnls: seq<real>, signals: nat, start: real, root: Root)
    requires start != 0.0 && cash == start + Sum(pnls)
    ensures Reports(Summary(ReturnPct(cash, start), drawdownPct, pnls, signals, root), pnls, start, root)
  {
    ReturnIsGain(cash, Sum(pnls), start);
    WinsCounted(pnls);
    LossesCounted(pnls);
    RateIsShare(CountWins(pnls), |pnls|);
    RateIsShare(CountLosses(pnls), |pnls|);
    if IsSquareRoot(root) {
      SharpeIsMeanOverDeviation(pnls, root);
    }
  }

  /** The metrics of a run are those of its round trips, its signals and its equity curve. */
  lemma MetricsReport(prices: seq<Price>, actions: seq<Action>, slip: Draws, start: real, f: real, root: Root)
    requires |actions| == |prices| && start != 0.0
    ensures var m := MetricsOf(prices, actions, slip, start, f, root);
      && Reports(m, Pnls(start, f, GateTrades(prices, actions, slip)), start, root)
      && m.signals == |SignalBars(actions)|
      && Near4(m.maxDrawdownPct,
               WorstDrop(EquityCurve(prices, actions, slip, start, f, |prices|), NonZeroPeak) * 100.0)
  {
    var trades := GateTrades(prices, actions, slip);
    CashIsSumAndProduct(start, f, trades);
    SummaryReports(FinalCash(prices, actions, slip, start, f),
                   DrawdownPct(EquityCurve(prices, actions, slip, start, f, |prices|)),
                   Pnls(start, f, trades), CountSignals(actions), start, root);
    SignalsCounted(actions);
    NearGrid4(WorstDrop(EquityCurve(prices, actions, slip, start, f, |prices|), NonZeroPeak) * 100.0);
  }

  lemma ReturnMono(low: real, high: real, start: real)
    requires start > 0.0 && low <= high
    ensures ReturnPct(low, start) <= ReturnPct(high, start)
  {
    DivideMono(low, high, start);
    RoundMono((low / start - 1.0) * 100.0, (high / start - 1.0) * 100.0, GRID4);
  }

  // ---------------------------------------------------------------- what a bar decides

  /** The bars a decision sees: the 64 up to and including its own, or all of them. */
  ghost predicate Sees(h: seq<Price>, prices: seq<Price>, index: nat)
    requires index < |prices|
  {
    && |h| == (if index + 1 < 64 then index + 1 else 64)
    && forall k {:trigger h[k]} :: 0 <= k < |h| ==> h[k] == prices[index + 1 - |h| + k]
  }

  /** Every bar decides by the weighted score of what the agents make of those bars and of its own
      news value, if there is one. */
  lemma BarFollowsScore(prices: seq<Price>, news: Option<seq<real>>, config: CognitiveConfig, perceive: Perceive,
                        index: nat)
    requires index < |prices|
    ensures exists h: seq<Price>, value: Option<real> ::
      && Sees(h, prices, index)
      && (value == match news
                   case None => None
                   case Some(xs) => if index < |xs| then Some(xs[index]) else None)
      && ActionFits(Actions(prices, news, config, perceive)[index], ExactScore(perceive(h, value), config),
                    config.buyThreshold, config.sellThreshold)
  {
    var h, value := History(prices, index), NewsAt(news, index);
    DecisionFollowsScore(perceive(h, value), config);
    assert Sees(h, prices, index);
  }

  /** No decision looks ahead. */
  lemma NoLookAhead(prices: seq<Price>, news: Option<seq<real>>, config: CognitiveConfig, perceive: Perceive, n: nat)
    requires n <= |prices|
    ensures Actions(prices[..n], news, config, perceive) == Actions(prices, news, config, perceive)[..n]
  {
    forall i: nat | i < n
      ensures ActionAt(prices[..n], news, config, perceive, i) == ActionAt(prices, news, config, perceive, i)
    {
      assert History(prices[..n], i) == History(prices, i);
    }
  }

  // ---------------------------------------------------------------- the loop

  /** The loop's locals. */
  datatype Book = Book(
    cash: real, openDir: int, openPrice: real, openQty: real, pnls: seq<real>, losing: nat, draws: nat)

  /** Realised cash and PnL are those of the round trips closed so far. */
  ghost predicate Settled(trades: seq<Trade>, start: real, f: real, book: Book) {
    && book.cash == Compound(start, Growths(trades, f))
    && book.pnls == Pnls(start, f, trades)
    && book.losing == CountLosses(book.pnls)
  }

  /** ... and the open position is the last lot, sized from the realised cash. */
  ghost predicate Tracks(prices: seq<Price>, lots: seq<Lot>, slip: Draws, start: real, f: real, book: Book)
    requires InRange(lots, |prices|)
  {
    && Settled(ClosedTrades(prices, lots, slip), start, f, book)
    && book.openDir == LastDir(lots)
    && (lots == [] ==> book.draws == 0)
    && (lots != [] ==>
         && book.draws == 2 * |lots| - 1
         && book.openDir != 0
         && book.openPrice == EntryFill(prices, lots, slip)
         && book.openQty == Quantity(book.cash, f, EntryFill(prices, lots, slip)))
  }

  function LastTrade(prices: seq<Price>, lots: seq<Lot>, bar: nat, slip: Draws): Trade
    requires InRange(lots, |prices|) && lots != [] && bar < |prices|
  {
    RoundTrip(prices, lots[|lots| - 1], bar, |lots| - 1, slip)
  }

  lemma SettleNext(trades: seq<Trade>, trade: Trade, start: real, f: real)
    ensures var cash := Compound(start, Growths(trades, f));
      && Pnls(start, f, trades + [trade]) == Pnls(start, f, trades) + [TradePnl(cash, f, trade)]
      && Compound(start, Growths(trades + [trade], f)) == cash + TradePnl(cash, f, trade)
  {
    assert (trades + [trade])[..|trades|] == trades;
    GrowthsFront(trades + [trade], f);
    PnlIsGrowth(Compound(start, Growths(trades, f)), f, trade);
  }

  /** Closing realises exactly the next round trip. */
  method CloseLot(prices: seq<Price>, bar: nat, slip: Draws, book: Book,
                  ghost lots: seq<Lot>, ghost start: real, ghost f: real)
    returns (after: Book)
    requires InRange(lots, |prices|) && lots != [] && bar < |prices|
    requires Tracks(prices, lots, slip, start, f, book)
    ensures var trades := ClosedTrades(prices, lots, slip) + [LastTrade(prices, lots, bar, slip)];
      && after.cash == Compound(start, Growths(trades, f))
      && after.pnls == Pnls(start, f, trades)
      && after.losing == CountLosses(after.pnls)
    ensures after.draws == 2 * |lots|
    ensures after.openDir == book.openDir
  {
    SettleNext(ClosedTrades(prices, lots, slip), LastTrade(prices, lots, bar, slip), start, f);
    var exitFill := Fill(prices[bar], -book.openDir, slip(book.draws));
    var pnl := Gain(book.openDir, book.openQty, book.openPrice, exitFill);
    after := book.(draws := book.draws + 1, pnls := book.pnls + [pnl], cash := book.cash + pnl);
    if pnl < 0.0 {
      after := after.(losing := after.losing + 1);
    }
    assert after.pnls[..|book.pnls|] == book.pnls;
  }

  lemma OpenNext(prices: seq<Price>, lots: seq<Lot>, lot: Lot, slip: Draws)
    requires InRange(lots, |prices|) && lot.bar < |prices|
    ensures InRange(lots + [lot], |prices|)
    ensures ClosedTrades(prices, lots + [lot], slip) ==
      if lots == [] then [] else ClosedTrades(prices, lots, slip) + [LastTrade(prices, lots, lot.bar, slip)]
    ensures EntryFill(prices, lots + [lot], slip) == Fill(prices[lot.bar], lot.dir, slip(2 * |lots|))
  {
    assert (lots + [lot])[..|lots|] == lots;
  }

  /** The body of the flip branch: close what is open, then open the other way. */
  method Flip(prices: seq<Price>, bar: nat, targetDir: int, slip: Draws, f: real, book: Book,
              ghost lots: seq<Lot>, ghost start: real)
    returns (after: Book)
    requires InRange(lots, |prices|) && bar < |prices|
    requires targetDir != book.openDir && targetDir != 0
    requires Tracks(prices, lots, slip, start, f, book)
    ensures InRange(lots + [Lot(bar, targetDir)], |prices|)
    ensures Tracks(prices, lots + [Lot(bar, targetDir)], slip, start, f, after)
  {
    OpenNext(prices, lots, Lot(bar, targetDir), slip);
    after := book;
    if book.openDir != 0 {
      after := CloseLot(prices, bar, slip, after, lots, start, f);
    }
    after := OpenLot(prices[bar], targetDir, slip, f, after);
  }

  /** With a target of 0 the position would be reset; the loop never asks for it. */
  method OpenLot(price: Price, targetDir: int, slip: Draws, f: real, book: Book) returns (after: Book)
    ensures targetDir != 0 ==>
      var entry := Fill(price, targetDir, slip(book.draws));
      after == book.(draws := book.draws + 1, openQty := Quantity(book.cash, f, entry), openPrice := entry,
                     openDir := targetDir)
    ensures targetDir == 0 ==> after == book.(openDir := 0, openQty := 0.0, openPrice := 0.0)
  {
    if targetDir != 0 {
      var entry := Fill(price, targetDir, slip(book.draws));
      after := book.(draws := book.draws + 1, openQty := Quantity(book.cash, f, entry), openPrice := entry,
                     openDir := targetDir);
    } else {
      after := book.(openDir := 0, openQty := 0.0, openPrice := 0.0);
    }
  }

  function MarkToMarket(book: Book, price: Price): real {
    book.cash + if book.openDir != 0 then Gain(book.openDir, book.openQty, book.openPrice, price) else 0.0
  }

  lemma MarkedIsSpec(prices: seq<Price>, actions: seq<Action>, slip: Draws, start: real, f: real, i: nat, book: Book)
    requires |actions| == |prices| && i < |prices| && InRange(Lots(actions[..i + 1]), |prices|)
    requires Tracks(prices, Lots(actions[..i + 1]), slip, start, f, book)
    ensures MarkToMarket(book, prices[i]) == MarkedAt(prices, actions, slip, start, f, i)
  {
  }

  lemma CurveStep(prices: seq<Price>, actions: seq<Action>, slip: Draws, start: real, f: real, n: nat)
    requires n < |actions| == |prices|
    ensures EquityCurve(prices, actions, slip, start, f, n + 1)
      == EquityCurve(prices, actions, slip, start, f, n) + [MarkedAt(prices, actions, slip, start, f, n)]
  {
  }

  lemma FlatTracks(prices: seq<Price>, actions: seq<Action>, slip: Draws, start: real, f: real, book: Book)
    requires book == Book(start, 0, 0.0, 0.0, [], 0, 0)
    ensures Lots(actions[..0]) == [] && Tracks(prices, Lots(actions[..0]), slip, start, f, book)
    ensures CountSignals(actions[..0]) == 0
  {
    assert actions[..0] == [];
  }

  /** The per-bar loop. */
  method Simulate(prices: seq<Price>, news: Option<seq<real>>, config: CognitiveConfig, perceive: Perceive,
                  start: real, f: real, slip: Draws, ghost actions: seq<Action>)
    returns (book: Book, curve: seq<real>, signals: nat)
    requires actions == Actions(prices, news, config, perceive)
    ensures InRange(Lots(actions), |prices|) && Tracks(prices, Lots(actions), slip, start, f, book)
    ensures curve == EquityCurve(prices, actions, slip, start, f, |prices|)
    ensures signals == CountSignals(actions)
  {
    book := Book(start, 0, 0.0, 0.0, [], 0, 0);
    curve, signals := [], 0;
    FlatTracks(prices, actions, slip, start, f, book);
    for index := 0 to |prices|
      invariant InRange(Lots(actions[..index]), |prices|)
      invariant Tracks(prices, Lots(actions[..index]), slip, start, f, book)
      invariant signals == CountSignals(actions[..index])
      invariant curve == EquityCurve(prices, actions, slip, start, f, index)
    {
      var action := ActionAt(prices, news, config, perceive, index);
      SignalsStep(actions, index);
      if !action.Hold? {
        signals := signals + 1;
      }
      book := Bar(prices, index, action, slip, f, book, actions, start);
      MarkedIsSpec(prices, actions, slip, start, f, index, book);
      CurveStep(prices, actions, slip, start, f, index);
      curve := curve + [MarkToMarket(book, prices[index])];
    }
    assert actions[..|prices|] == actions;
  }

  /** One bar: stay, or turn the position around. */
  method Bar(prices: seq<Price>, index: nat, action: Action, slip: Draws, f: real, book: Book,
             ghost actions: seq<Action>, ghost start: real)
    returns (after: Book)
    requires index < |actions| == |prices| && action == actions[index] && InRange(Lots(actions[..index]), |prices|)
    requires Tracks(prices, Lots(actions[..index]), slip, start, f, book)
    ensures InRange(Lots(actions[..index + 1]), |prices|)
    ensures Tracks(prices, Lots(actions[..index + 1]), slip, start, f, after)
  {
    LotsStep(actions, index);
    after := book;
    var targetDir := if action.Buy? then 1 else if action.Sell? then -1 else book.openDir;
    if targetDir != book.openDir {
      after := Flip(prices, index, targetDir, slip, f, book, Lots(actions[..index]), start);
    }
  }

  /** Whatever is still open is closed at the last price. */
  method CloseResidual(prices: seq<Price>, slip: Draws, book: Book, ghost lots: seq<Lot>, ghost start: real,
                       ghost f: real)
    returns (after: Book)
    requires InRange(lots, |prices|) && Tracks(prices, lots, slip, start, f, book)
    ensures Settled(AllTrades(prices, lots, slip), start, f, after)
  {
    if book.openDir != 0 && prices != [] {
      after := CloseLot(prices, |prices| - 1, slip, book, lots, start, f);
    } else {
      assert lots == [];
      after := book;
    }
  }

  method RunConfigBacktest(prices: seq<Price>, news: Option<seq<real>>, config: CognitiveConfig, perceive: Perceive,
                           start: real, f: real, slip: Draws, root: Root)
    returns (metrics: Metrics)
    requires start != 0.0
    ensures metrics == MetricsOf(prices, Actions(prices, news, config, perceive), slip, start, f, root)
    ensures var actions := Actions(prices, news, config, perceive);
      && Reports(metrics, Pnls(start, f, GateTrades(prices, actions, slip)), start, root)
      && metrics.signals == |SignalBars(actions)|
      && Near4(metrics.maxDrawdownPct,
               WorstDrop(EquityCurve(prices, actions, slip, start, f, |prices|), NonZeroPeak) * 100.0)
  {
    ghost var actions := Actions(prices, news, config, perceive);
    MetricsReport(prices, actions, slip, start, f, root);
    var book, curve, signals := Simulate(prices, news, config, perceive, start, f, slip, actions);
    book := CloseResidual(prices, slip, book, Lots(actions), start, f);
    metrics := Summarise(start, book, curve, signals, root);
  }

  method Summarise(start: real, book: Book, curve: seq<real>, signals: nat, root: Root) returns (metrics: Metrics)
    requires start != 0.0 && book.losing == CountLosses(book.pnls)
    ensures metrics == Summary(ReturnPct(book.cash, start), DrawdownPct(curve), book.pnls, signals, root)
    ensures book.cash == start + Sum(book.pnls) ==> Reports(metrics, book.pnls, start, root)
  {
    if book.cash == start + Sum(book.pnls) {
      SummaryReports(book.cash, DrawdownPct(curve), book.pnls, signals, start, root);
    }
    var wins := CountWinsLoop(book.pnls);
    var drawdown := GateMaxDrawdownPct(curve);
    metrics := Metrics(ReturnPct(book.cash, start), SharpeOf(book.pnls, root), drawdown, |book.pnls|, signals,
                       Rate(wins, |book.pnls|), Rate(book.losing, |book.pnls|));
  }
}
