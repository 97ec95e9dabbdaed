/** backtest/engine.py: the same flip rule, accounted for by signed cash flows instead of
    per-trade PnL.  `bars` are the closes from index 1 on, each with the strategy's decision. */
module BacktestEngine {
  import opened Rounding
  import opened Trades
  import opened Drawdown
  import opened Sharpe

  function Quantity(equity: real, f: real, price: Price): real {
    f * equity / price
  }

  /** direction x quantity x price move: the PnL handed to the trade scorer. */
  function Gain(dir: int, qty: real, entry: real, exit: real): real {
    dir as real * qty * (exit - entry)
  }

  /** A lot is sized on the unslipped price it opens at. */
  function TradePnl(cash: real, f: real, t: Trade): real {
    Gain(t.dir, Quantity(cash, f, t.mark), t.entry, t.exit)
  }

  function Growth(t: Trade, f: real): real {
    1.0 + f * (t.dir as real * ((t.exit - t.entry) / t.mark))
  }

  function Growths(trades: seq<Trade>, f: real): (gs: seq<real>)
    ensures |gs| == |trades|
  {
    seq(|trades|, k requires 0 <= k < |trades| => Growth(trades[k], f))
  }

  function Pnls(start: real, f: real, trades: seq<Trade>): (pnls: seq<real>)
    ensures |pnls| == |trades|
  {
    if trades == [] then []
    else
      var front, last := trades[..|trades| - 1], trades[|trades| - 1];
      Pnls(start, f, front) + [TradePnl(Compound(start, Growths(front, f)), f, last)]
  }

  lemma PnlIsGrowth(cash: real, f: real, t: Trade)
    ensures cash + TradePnl(cash, f, t) == cash * Growth(t, f)
  {
    var move := (t.exit - t.entry) / t.mark;
    assert move * t.mark == t.exit - t.entry;
    var q := f * cash / t.mark;
    assert q * t.mark == f * cash;
    var d := t.dir as real;
    calc {
      d * q * (t.exit - t.entry);
      d * q * (move * t.mark);
      d * move * (q * t.mark);
      d * move * (f * cash);
      cash * (f * (d * move));
    }
  }

  lemma SettleNext(trades: seq<Trade>, trade: Trade, start: real, f: real)
    ensures var cash := Compound(start, Growths(trades, f));
      && Pnls(start, f, trades + [trade]) == Pnls(start, f, trades) + [TradePnl(cash, f, trade)]
      && Compound(start, Growths(trades + [trade], f)) == cash + TradePnl(cash, f, trade)
  {
    assert (trades + [trade])[..|trades|] == trades;
    assert Growths(trades + [trade], f)[..|trades|] == Growths(trades, f);
    PnlIsGrowth(Compound(start, Growths(trades, f)), f, trade);
  }

  /** start + sum of the scored PnLs = start x product of growths. */
  lemma {:induction false} CashIsSumAndProduct(start: real, f: real, trades: seq<Trade>)
    ensures start + Sum(Pnls(start, f, trades)) == Compound(start, Growths(trades, f))
  {
    if trades != [] {
      var n := |trades| - 1;
      CashIsSumAndProduct(start, f, trades[..n]);
      SettleNext(trades[..n], trades[n], start, f);
      assert trades[..n] + [trades[n]] == trades;
      assert Pnls(start, f, trades)[..n] == Pnls(start, f, trades[..n]);
    }
  }

  // ---------------------------------------------------------------- the loop

  /** What is handed to the trade scorer for one closed round trip. */
  datatype Evaluation = Evaluation(closesLong: bool, entry: real, exit: real, pnl: real, pnlPct: real, holdingBars: int)

  datatype Book = Book(
    cash: real, positionQty: real, openDir: int, openPrice: real, openQty: real, openBar: nat,
    evaluations: seq<Evaluation>, draws: nat)

  function Evaluate(t: Trade, pnl: real, holdingBars: int): Evaluation {
    Score(t.dir, t.entry, t.exit, pnl, holdingBars)
  }

  function Score(dir: int, entry: Price, exit: Price, pnl: real, holdingBars: int): Evaluation {
    Evaluation(dir > 0, entry, exit, pnl, PnlPct(dir, entry, exit), holdingBars)
  }

  function PnlPct(dir: int, entry: Price, exit: Price): real {
    dir as real * (exit - entry) / entry * 100.0
  }

  ghost predicate Evaluated(trades: seq<Trade>, lots: seq<Lot>, exits: seq<nat>, start: real, f: real,
                            evaluations: seq<Evaluation>) {
    && |evaluations| == |trades| == |exits| <= |lots|
    && forall k {:trigger evaluations[k]} :: 0 <= k < |trades| ==>
         evaluations[k] == Evaluate(trades[k], Pnls(start, f, trades)[k], exits[k] - lots[k].bar)
  }

  function Exits(lots: seq<Lot>): (exits: seq<nat>)
    ensures |exits| == if lots == [] then 0 else |lots| - 1
  {
    if lots == [] then [] else seq(|lots| - 1, k requires 0 <= k < |lots| - 1 => lots[k + 1].bar)
  }

  /** The side `_fill` goes by: the sign of the signed quantity that is traded, not the direction
      of the lot.  On an account without equity the two differ. */
  function Side(signedDelta: real): int {
    if signedDelta > 0.0 then 1 else -1
  }

  function FillSigned(price: Price, signedDelta: real, slip: Slip): Price {
    Fill(price, Side(signedDelta), slip)
  }

  /** The k-th lot, bought with `equity`. */
  function Trip(bars: seq<Price>, lot: Lot, exitBar: nat, k: nat, slip: Draws, equity: real, f: real): Trade
    requires lot.bar < |bars| && exitBar < |bars|
  {
    var signed := Signed(lot.dir, Quantity(equity, f, bars[lot.bar]));
    Trade(lot.dir, FillSigned(bars[lot.bar], signed, slip(2 * k)), FillSigned(bars[exitBar], -signed, slip(2 * k + 1)),
          bars[lot.bar])
  }

  /** Every lot but the last, each sized and filled by what the ones before it left. */
  function Closed(bars: seq<Price>, lots: seq<Lot>, slip: Draws, start: real, f: real): (trades: seq<Trade>)
    requires InRange(lots, |bars|)
    ensures |trades| == if lots == [] then 0 else |lots| - 1
  {
    if |lots| < 2 then []
    else
      var m := |lots| - 1;
      var front := Closed(bars, lots[..m], slip, start, f);
      front + [Trip(bars, lots[m - 1], lots[m].bar, m - 1, slip, Compound(start, Growths(front, f)), f)]
  }

  function Realised(bars: seq<Price>, lots: seq<Lot>, slip: Draws, start: real, f: real): real
    requires InRange(lots, |bars|)
  {
    Compound(start, Growths(Closed(bars, lots, slip, start, f), f))
  }

  function LastTrade(bars: seq<Price>, lots: seq<Lot>, bar: nat, slip: Draws, start: real, f: real): Trade
    requires InRange(lots, |bars|) && lots != [] && bar < |bars|
  {
    Trip(bars, lots[|lots| - 1], bar, |lots| - 1, slip, Realised(bars, lots, slip, start, f), f)
  }

  function EntryFill(bars: seq<Price>, lots: seq<Lot>, slip: Draws, start: real, f: real): Price
    requires InRange(lots, |bars|) && lots != []
  {
    var k := |lots| - 1;
    var price := bars[lots[k].bar];
    FillSigned(price, Signed(lots[k].dir, Quantity(Realised(bars, lots, slip, start, f), f, price)), slip(2 * k))
  }

  /** The cash-flow books against the PnL books: cash plus the open position at cost is the
      starting equity plus every closed PnL. */
  ghost predicate Tracks(bars: seq<Price>, lots: seq<Lot>, slip: Draws, start: real, f: real, book: Book)
    requires InRange(lots, |bars|)
  {
    && book.cash + AtCost(book) == Realised(bars, lots, slip, start, f)
    && book.openDir == LastDir(lots)
    && Evaluated(Closed(bars, lots, slip, start, f), lots, Exits(lots), start, f, book.evaluations)
    && (lots == [] ==> book.positionQty == 0.0 && book.draws == 0)
    && (lots != [] ==>
         && book.draws == 2 * |lots| - 1
         && (book.openDir == 1 || book.openDir == -1)
         && book.openPrice == EntryFill(bars, lots, slip, start, f)
         && book.openQty == Quantity(Realised(bars, lots, slip, start, f), f, bars[lots[|lots| - 1].bar])
         && book.positionQty == Signed(book.openDir, book.openQty)
         && book.openBar == lots[|lots| - 1].bar)
  }

  function Signed(dir: int, qty: real): real {
    dir as real * qty
  }

  function Value(qty: real, price: real): real {
    qty * price
  }

  function AtCost(book: Book): real {
    Value(book.positionQty, book.openPrice)
  }

  /** A position is worth its cost plus the gain since entry. */
  lemma ValueIsCostPlusGain(dir: int, qty: real, entry: real, price: real)
    ensures Value(Signed(dir, qty), price) == Value(Signed(dir, qty), entry) + Gain(dir, qty, entry, price)
  {
  }

  lemma EvaluatedNext(trades: seq<Trade>, t: Trade, lots: seq<Lot>, exits: seq<nat>, bar: nat, start: real, f: real,
                      evaluations: seq<Evaluation>, pnl: real)
    requires Evaluated(trades, lots, exits, start, f, evaluations) && |lots| == |trades| + 1
    requires pnl == TradePnl(Compound(start, Growths(trades, f)), f, t)
    ensures
      Evaluated(trades + [t], lots, exits + [bar], start, f,
                evaluations + [Evaluate(t, pnl, bar - lots[|lots| - 1].bar)])
  {
    SettleNext(trades, t, start, f);
  }

  lemma OpenTrade(bars: seq<Price>, bar: nat, slip: Draws, book: Book, lots: seq<Lot>, start: real, f: real)
    requires InRange(lots, |bars|) && lots != [] && bar < |bars|
    requires Tracks(bars, lots, slip, start, f, book)
    ensures var t := LastTrade(bars, lots, bar, slip, start, f);
      && t.dir == book.openDir && t.entry == book.openPrice &&
        t.exit == FillSigned(bars[bar], -book.positionQty, slip(book.draws))
      && book.openQty == Quantity(Realised(bars, lots, slip, start, f), f, t.mark)
      && book.openBar == lots[|lots| - 1].bar
      && Gain(book.openDir, book.openQty, book.openPrice, t.exit) ==
        TradePnl(Realised(bars, lots, slip, start, f), f, t)
  {
    var k := |lots| - 1;
    OpenTrip(bars, bar, slip, book, lots[k], k, Realised(bars, lots, slip, start, f), f);
  }

  /** The same for the lot alone, bought with `cash`. */
  lemma OpenTrip(bars: seq<Price>, bar: nat, slip: Draws, book: Book, lot: Lot, k: nat, cash: real, f: real)
    requires lot.bar < |bars| && bar < |bars|
    requires book.openDir == lot.dir && book.draws == 2 * k + 1
    requires book.openQty == Quantity(cash, f, bars[lot.bar]) && book.positionQty == Signed(book.openDir, book.openQty)
    requires book.openPrice == FillSigned(bars[lot.bar], book.positionQty, slip(2 * k))
    ensures var t := Trip(bars, lot, bar, k, slip, cash, f);
      && t.dir == book.openDir && t.entry == book.openPrice &&
        t.exit == FillSigned(bars[bar], -book.positionQty, slip(book.draws))
      && book.openQty == Quantity(cash, f, t.mark)
      && Gain(book.openDir, book.openQty, book.openPrice, t.exit) == TradePnl(cash, f, t)
  {
    TripParts(bars, lot, bar, k, slip, cash, f, book.positionQty);
  }

  lemma TripParts(bars: seq<Price>, lot: Lot, bar: nat, k: nat, slip: Draws, cash: real, f: real, signed: real)
    requires lot.bar < |bars| && bar < |bars| && signed == Signed(lot.dir, Quantity(cash, f, bars[lot.bar]))
    ensures var t := Trip(bars, lot, bar, k, slip, cash, f);
      && t.dir == lot.dir && t.mark == bars[lot.bar] && t.entry == FillSigned(bars[lot.bar], signed, slip(2 * k))
      && t.exit == FillSigned(bars[bar], -signed, slip(2 * k + 1))
  {
  }

  lemma CloseCash(cash: real, dir: int, qty: real, entry: real, exit: real, realised: real)
    requires cash + Value(Signed(dir, qty), entry) == realised
    ensures cash + Value(Signed(dir, qty), exit) == realised + Gain(dir, qty, entry, exit)
  {
    ValueIsCostPlusGain(dir, qty, entry, exit);
  }

  lemma CloseBooks(bars: seq<Price>, bar: nat, slip: Draws, book: Book, lots: seq<Lot>, start: real, f: real)
    requires InRange(lots, |bars|) && lots != [] && bar < |bars|
    requires Tracks(bars, lots, slip, start, f, book)
    ensures var t := LastTrade(bars, lots, bar, slip, start, f);
      && t.dir == book.openDir && t.entry == book.openPrice &&
        t.exit == FillSigned(bars[bar], -book.positionQty, slip(book.draws))
      && book.cash + Value(book.positionQty, t.exit) ==
        Compound(start, Growths(Closed(bars, lots, slip, start, f) + [t], f))
  {
    var t := LastTrade(bars, lots, bar, slip, start, f);
    OpenTrade(bars, bar, slip, book, lots, start, f);
    CloseCash(book.cash, book.openDir, book.openQty, book.openPrice, t.exit, Realised(bars, lots, slip, start, f));
    SettleNext(Closed(bars, lots, slip, start, f), t, start, f);
  }

  /** Closing flows the position's value back into cash, which realises exactly the next PnL. */
  method CloseLot(bars: seq<Price>, bar: nat, slip: Draws, book: Book,
                  ghost lots: seq<Lot>, ghost start: real, ghost f: real)
    returns (after: Book)
    requires InRange(lots, |bars|) && lots != [] && bar < |bars|
    requires Tracks(bars, lots, slip, start, f, book)
    ensures after.positionQty == 0.0 && after.openDir == 0 && after.draws == 2 * |lots|
    ensures after.cash == Compound(start,
                                   Growths(Closed(bars, lots, slip, start, f) +
                                     [LastTrade(bars, lots, bar, slip, start, f)], f))
    ensures Evaluated(Closed(bars, lots, slip, start, f) + [LastTrade(bars, lots, bar, slip, start, f)], lots,
                      Exits(lots) + [bar], start, f,
                      after.evaluations)
  {
    CloseBooks(bars, bar, slip, book, lots, start, f);
    var closeFill := FillSigned(bars[bar], -book.positionQty, slip(book.draws));
    OpenTrade(bars, bar, slip, book, lots, start, f);
    var evaluation := ScoreLot(book, closeFill, bar, Closed(bars, lots, slip, start, f),
                               LastTrade(bars, lots, bar, slip, start, f), lots, Exits(lots), start, f);
    after := book.(cash := book.cash + Value(book.positionQty, closeFill),
                   evaluations := book.evaluations + [evaluation],
                   positionQty := 0.0, openDir := 0, draws := book.draws + 1);
  }

  /** `_score`: the evaluation of the lot that closes at `closeFill`. */
  method ScoreLot(book: Book, closeFill: Price, bar: nat,
                  ghost trades: seq<Trade>, ghost t: Trade, ghost lots: seq<Lot>, ghost exits: seq<nat>,
                    ghost start: real, ghost f: real)
    returns (evaluation: Evaluation)
    requires Evaluated(trades, lots, exits, start, f, book.evaluations) && |lots| == |trades| + 1
    requires t.dir == book.openDir && t.entry == book.openPrice && t.exit == closeFill &&
      lots[|lots| - 1].bar == book.openBar
    requires Gain(book.openDir, book.openQty, book.openPrice, closeFill) ==
      TradePnl(Compound(start, Growths(trades, f)), f, t)
    ensures Evaluated(trades + [t], lots, exits + [bar], start, f, book.evaluations + [evaluation])
  {
    var pnl := Gain(book.openDir, book.openQty, book.openPrice, closeFill);
    evaluation := Score(book.openDir, book.openPrice, closeFill, pnl, bar - book.openBar);
    EvaluatedNext(trades, t, lots, exits, bar, start, f, book.evaluations, pnl);
  }

  lemma OpenNext(bars: seq<Price>, lots: seq<Lot>, lot: Lot, slip: Draws, start: real, f: real)
    requires InRange(lots, |bars|) && lot.bar < |bars|
    ensures InRange(lots + [lot], |bars|)
    ensures Closed(bars, lots + [lot], slip, start, f) ==
      if lots == [] then [] else Closed(bars, lots, slip, start, f) + [LastTrade(bars, lots, lot.bar, slip, start, f)]
    ensures Exits(lots + [lot]) == if lots == [] then [] else Exits(lots) + [lot.bar]
  {
    assert (lots + [lot])[..|lots|] == lots;
    ExitsNext(lots, lot);
  }

  lemma ExitsNext(lots: seq<Lot>, lot: Lot)
    ensures Exits(lots + [lot]) == if lots == [] then [] else Exits(lots) + [lot.bar]
  {
    assert (lots + [lot])[..|lots|] == lots;
  }

  lemma EntryNext(bars: seq<Price>, lots: seq<Lot>, lot: Lot, slip: Draws, start: real, f: real, equity: real)
    requires InRange(lots, |bars|) && lot.bar < |bars| && InRange(lots + [lot], |bars|)
    requires equity == Realised(bars, lots + [lot], slip, start, f)
    ensures EntryFill(bars, lots + [lot], slip, start, f) ==
      FillSigned(bars[lot.bar], Signed(lot.dir, Quantity(equity, f, bars[lot.bar])), slip(2 * |lots|))
  {
  }

  lemma EvaluatedFrame(trades: seq<Trade>, lots: seq<Lot>, lot: Lot, exits: seq<nat>, start: real, f: real,
                       evaluations: seq<Evaluation>)
    requires Evaluated(trades, lots, exits, start, f, evaluations)
    ensures Evaluated(trades, lots + [lot], exits, start, f, evaluations)
  {
  }

  method OpenLot(bars: seq<Price>, bar: nat, targetDir: int, slip: Draws, f: real, book: Book,
                 ghost lots: seq<Lot>, ghost start: real)
    returns (after: Book)
    requires InRange(lots, |bars|) && bar < |bars| && (targetDir == 1 || targetDir == -1)
    requires book.positionQty == 0.0 && book.draws == 2 * |lots|
    requires var next := lots + [Lot(bar, targetDir)]; InRange(next, |bars|)
    requires var next := lots + [Lot(bar, targetDir)];
      && book.cash == Realised(bars, next, slip, start, f)
      && Evaluated(Closed(bars, next, slip, start, f), next, Exits(next), start, f, book.evaluations)
    ensures Tracks(bars, lots + [Lot(bar, targetDir)], slip, start, f, after)
  {
    var price := bars[bar];
    var equity := book.cash + Value(book.positionQty, price);
    assert equity == book.cash by { assert Value(0.0, price) == 0.0; }
    EntryNext(bars, lots, Lot(bar, targetDir), slip, start, f, equity);
    var qty := Quantity(equity, f, price);
    var signed := Signed(targetDir, qty);
    var openFill := FillSigned(price, signed, slip(book.draws));
    var cost := Value(signed, openFill);
    after := book.(cash := book.cash - cost, positionQty := signed, openDir := targetDir, openPrice := openFill,
                   openQty := qty, openBar := bar, draws := book.draws + 1);
    assert AtCost(after) == cost;
  }

  method Flip(bars: seq<Price>, bar: nat, targetDir: int, slip: Draws, f: real, book: Book,
              ghost lots: seq<Lot>, ghost start: real)
    returns (after: Book)
    requires InRange(lots, |bars|) && bar < |bars| && (targetDir == 1 || targetDir == -1)
    requires Tracks(bars, lots, slip, start, f, book)
    ensures InRange(lots + [Lot(bar, targetDir)], |bars|)
    ensures Tracks(bars, lots + [Lot(bar, targetDir)], slip, start, f, after)
  {
    OpenNext(bars, lots, Lot(bar, targetDir), slip, start, f);
    after := book;
    if book.openDir != 0 {
      after := CloseLot(bars, bar, slip, after, lots, start, f);
      EvaluatedFrame(Closed(bars, lots + [Lot(bar, targetDir)], slip, start, f), lots, Lot(bar, targetDir),
                     Exits(lots) + [bar], start, f, after.evaluations);
    }
    after := OpenLot(bars, bar, targetDir, slip, f, after, lots, start);
  }

  // ---------------------------------------------------------------- the run

  /** Realised cash plus the gain of the open lot at `price`. */
  function Marked(bars: seq<Price>, lots: seq<Lot>, slip: Draws, start: real, f: real, price: Price): real
    requires InRange(lots, |bars|)
  {
    var cash := Realised(bars, lots, slip, start, f);
    if lots == [] then cash
    else
      var lot := lots[|lots| - 1];
      cash + Gain(lot.dir, Quantity(cash, f, bars[lot.bar]), EntryFill(bars, lots, slip, start, f), price)
  }

  function MarkedAt(bars: seq<Price>, actions: seq<Action>, slip: Draws, start: real, f: real, i: nat): real
    requires |actions| == |bars| && i < |bars|
  {
    LotsInRange(actions[..i + 1]);
    Marked(bars, Lots(actions[..i + 1]), slip, start, f, bars[i])
  }

  function MarkToMarket(book: Book, price: Price): real {
    book.cash + Value(book.positionQty, price)
  }

  lemma MarkedIsSpec(bars: seq<Price>, actions: seq<Action>, slip: Draws, start: real, f: real, i: nat, book: Book)
    requires |actions| == |bars| && i < |bars| && InRange(Lots(actions[..i + 1]), |bars|)
    requires Tracks(bars, Lots(actions[..i + 1]), slip, start, f, book)
    ensures MarkToMarket(book, bars[i]) == MarkedAt(bars, actions, slip, start, f, i)
  {
    if Lots(actions[..i + 1]) != [] {
      ValueIsCostPlusGain(book.openDir, book.openQty, book.openPrice, bars[i]);
    }
  }

  /** The marks of the first n bars. */
  function EquityCurve(bars: seq<Price>, actions: seq<Action>, slip: Draws, start: real, f: real,
                       n: nat): (curve: seq<real>)
    requires n <= |actions| == |bars|
    ensures |curve| == n
  {
    seq(n, i requires 0 <= i < n => MarkedAt(bars, actions, slip, start, f, i))
  }

  lemma CurveStep(bars: seq<Price>, actions: seq<Action>, slip: Draws, start: real, f: real, n: nat)
    requires n < |actions| == |bars|
    ensures EquityCurve(bars, actions, slip, start, f, n + 1)
      == EquityCurve(bars, actions, slip, start, f, n) + [MarkedAt(bars, actions, slip, start, f, n)]
  {
  }

  lemma FlatTracks(bars: seq<Price>, actions: seq<Action>, slip: Draws, start: real, f: real, book: Book)
    requires book == Book(start, 0.0, 0, 0.0, 0.0, 0, [], 0)
    ensures Lots(actions[..0]) == [] && Tracks(bars, Lots(actions[..0]), slip, start, f, book)
    ensures CountSignals(actions[..0]) == 0
  {
    assert actions[..0] == [];
  }

  method Simulate(bars: seq<Price>, actions: seq<Action>, start: real, f: real, slip: Draws)
    returns (book: Book, curve: seq<real>, holds: nat, signals: nat)
    requires |actions| == |bars|
    ensures InRange(Lots(actions), |bars|) && Tracks(bars, Lots(actions), slip, start, f, book)
    ensures curve == EquityCurve(bars, actions, slip, start, f, |bars|)
    ensures holds + |Lots(actions)| == |bars| && signals == CountSignals(actions)
  {
    book := Book(start, 0.0, 0, 0.0, 0.0, 0, [], 0);
    curve, holds, signals := [], 0, 0;
    FlatTracks(bars, actions, slip, start, f, book);
    for i := 0 to |bars|
      invariant InRange(Lots(actions[..i]), |bars|)
      invariant Tracks(bars, Lots(actions[..i]), slip, start, f, book)
      invariant curve == EquityCurve(bars, actions, slip, start, f, i)
      invariant holds + |Lots(actions[..i])| == i
      invariant signals == CountSignals(actions[..i])
    {
      signals := CountSignal(actions, i, signals);
      var mark;
      book, holds, mark := Bar(bars, actions, i, slip, f, book, holds, start);
      CurveStep(bars, actions, slip, start, f, i);
      curve := curve + [mark];
    }
    assert actions[..|bars|] == actions;
  }

  method CountSignal(actions: seq<Action>, i: nat, before: nat) returns (signals: nat)
    requires i < |actions| && before == CountSignals(actions[..i])
    ensures signals == CountSignals(actions[..i + 1])
  {
    SignalsStep(actions, i);
    signals := if actions[i].Hold? then before else before + 1;
  }

  /** One bar: hold, or turn the position around; then mark to market. */
  method Bar(bars: seq<Price>, actions: seq<Action>, i: nat, slip: Draws, f: real, book: Book, before: nat,
             ghost start: real)
    returns (after: Book, holds: nat, mark: real)
    requires i < |actions| == |bars| && InRange(Lots(actions[..i]), |bars|) && before + |Lots(actions[..i])| == i
    requires Tracks(bars, Lots(actions[..i]), slip, start, f, book)
    ensures InRange(Lots(actions[..i + 1]), |bars|) && Tracks(bars, Lots(actions[..i + 1]), slip, start, f, after)
    ensures holds == before + if Lots(actions[..i + 1]) == Lots(actions[..i]) then 1 else 0
    ensures holds + |Lots(actions[..i + 1])| == i + 1
    ensures mark == MarkedAt(bars, actions, slip, start, f, i)
  {
    LotsStep(actions, i);
    after, holds := book, before + 1;
    if !actions[i].Hold? {
      var targetDir := if actions[i].Buy? then 1 else -1;
      if targetDir != book.openDir {
        holds := before;
        after := Flip(bars, i, targetDir, slip, f, book, Lots(actions[..i]), start);
      }
    }
    MarkedIsSpec(bars, actions, slip, start, f, i, after);
    mark := MarkToMarket(after, bars[i]);
  }

  /** Every lot, the last one closed at the last bar. */
  function AllTrades(bars: seq<Price>, lots: seq<Lot>, slip: Draws, start: real, f: real): (trades: seq<Trade>)
    requires InRange(lots, |bars|)
    ensures |trades| == |lots|
  {
    if lots == [] then []
    else
      assert lots[0].bar < |bars|;
      Closed(bars, lots, slip, start, f) + [LastTrade(bars, lots, |bars| - 1, slip, start, f)]
  }

  function EngineTrades(bars: seq<Price>, actions: seq<Action>, slip: Draws, start: real, f: real): (trades: seq<Trade>)
    requires |actions| == |bars|
    ensures |trades| == |Lots(actions)|
  {
    LotsInRange(actions);
    AllTrades(bars, Lots(actions), slip, start, f)
  }

  function FinalEquity(bars: seq<Price>, actions: seq<Action>, slip: Draws, start: real, f: real): real
    requires |actions| == |bars|
  {
    Compound(start, Growths(EngineTrades(bars, actions, slip, start, f), f))
  }

  datatype Result = Result(
    bars: nat, trades: nat, holds: nat, signals: nat, finalEquity: real, totalReturnPct: real, maxDrawdownPct: real,
    winRate: real, sharpe: real, avgTradePnl: real, evaluations: seq<Evaluation>, equityCurve: seq<real>)

  function AllExits(lots: seq<Lot>, n: nat): seq<nat>
    requires lots != [] ==> n > 0
  {
    if lots == [] then [] else Exits(lots) + [n - 1]
  }

  method CloseResidual(bars: seq<Price>, slip: Draws, book: Book, ghost lots: seq<Lot>, ghost start: real,
                       ghost f: real)
    returns (after: Book)
    requires InRange(lots, |bars|) && Tracks(bars, lots, slip, start, f, book)
    ensures after.cash == Compound(start, Growths(AllTrades(bars, lots, slip, start, f), f))
    ensures lots != [] ==> |bars| > 0
    ensures Evaluated(AllTrades(bars, lots, slip, start, f), lots, AllExits(lots, |bars|), start, f, after.evaluations)
  {
    if book.openDir != 0 && |bars| >= 1 {
      after := CloseLot(bars, |bars| - 1, slip, book, lots, start, f);
    } else {
      assert lots == [];
      after := book;
    }
  }

  /** Money and counts a run over `bars` has to report ... */
  ghost predicate ReportsTrades(bars: seq<Price>, actions: seq<Action>, slip: Draws, start: real, f: real, r: Result)
    requires |actions| == |bars| && start != 0.0
  {
    var trades := EngineTrades(bars, actions, slip, start, f);
    && r.finalEquity == FinalEquity(bars, actions, slip, start, f)
    && r.totalReturnPct == ReturnPct(start, r.finalEquity)
    && r.trades == |trades| && r.trades + r.holds == |bars| && r.signals == CountSignals(actions)
    && r.avgTradePnl == Average(Pnls(start, f, trades))
    && (Lots(actions) != [] ==> |bars| > 0)
    && Evaluated(trades, Lots(actions), AllExits(Lots(actions), |bars|), start, f, r.evaluations)
  }

  /** ... and the equity path: marked to market on every bar, the last mark replaced by the
      realised equity. */
  ghost predicate ReportsPath(bars: seq<Price>, actions: seq<Action>, slip: Draws, start: real, f: real, r: Result)
    requires |actions| == |bars|
  {
    var n := |r.equityCurve| - 1;
    && n == (if bars == [] then 0 else |bars| - 1)
    && r.equityCurve[n] == r.finalEquity && r.equityCurve[..n] == EquityCurve(bars, actions, slip, start, f, n)
    && r.maxDrawdownPct == WorstDrop(r.equityCurve, PositivePeak) * 100.0
  }

  function Pcts(trades: seq<Trade>): seq<real> {
    seq(|trades|, k requires 0 <= k < |trades| => PnlPct(trades[k].dir, trades[k].entry, trades[k].exit))
  }

  function WinRate(pnls: seq<real>): real {
    if pnls == [] then 0.0 else Round(CountWins(pnls) as real / |pnls| as real, GRID4)
  }

  /** ... and, of the learning metrics, the two the result shows: wins by the sign of the PnL, the
      Sharpe ratio from the percentages. */
  ghost predicate ReportsRates(bars: seq<Price>, actions: seq<Action>, slip: Draws, start: real, f: real, root: Root,
                               r: Result)
    requires |actions| == |bars|
  {
    var trades := EngineTrades(bars, actions, slip, start, f);
    r.winRate == WinRate(Pnls(start, f, trades)) && r.sharpe == AnnualSharpe(Pcts(trades), root)
  }

  function ReturnPct(start: real, finalEquity: real): real
    requires start != 0.0
  {
    (finalEquity - start) / start * 100.0
  }

  function Average(pnls: seq<real>): real {
    if pnls == [] then 0.0 else Sum(pnls) / |pnls| as real
  }

  /** `prices` has one close more than there are decisions: bar 0 only serves as `prev`. */
  method RunBacktest(prices: seq<Price>, actions: seq<Action>, start: real, f: real, slip: Draws, root: Root)
    returns (r: Result)
    requires start != 0.0
    requires |actions| == if prices == [] then 0 else |prices| - 1
    ensures r.bars == |prices|
    ensures ReportsTrades(if prices == [] then [] else prices[1..], actions, slip, start, f, r)
    ensures ReportsPath(if prices == [] then [] else prices[1..], actions, slip, start, f, r)
    ensures ReportsRates(if prices == [] then [] else prices[1..], actions, slip, start, f, root, r)
  {
    r := RunOnBars(|prices|, if prices == [] then [] else prices[1..], actions, start, f, slip, root);
  }

  method RunOnBars(n: nat, bars: seq<Price>, actions: seq<Action>, start: real, f: real, slip: Draws, root: Root)
    returns (r: Result)
    requires start != 0.0 && |actions| == |bars|
    ensures r.bars == n
    ensures ReportsTrades(bars, actions, slip, start, f, r) && ReportsPath(bars, actions, slip, start, f, r)
    ensures ReportsRates(bars, actions, slip, start, f, root, r)
  {
    var book, curve, holds, signals := Simulate(bars, actions, start, f, slip);
    book := CloseResidual(bars, slip, book, Lots(actions), start, f);
    ghost var trades := EngineTrades(bars, actions, slip, start, f);
    r := Summarise(n, book, holds, signals, start, Pnls(start, f, trades), Pcts(trades), curve, root);
    assert ReportsTrades(bars, actions, slip, start, f, r);
    PathReported(bars, actions, slip, start, f, r, curve);
  }

  lemma PathReported(bars: seq<Price>, actions: seq<Action>, slip: Draws, start: real, f: real, r: Result,
                     curve: seq<real>)
    requires |actions| == |bars| && curve == EquityCurve(bars, actions, slip, start, f, |bars|)
    requires |r.equityCurve| == if curve == [] then 1 else |curve|
    requires r.equityCurve[|r.equityCurve| - 1] == r.finalEquity
    requires curve != [] ==> r.equityCurve[..|r.equityCurve| - 1] == curve[..|curve| - 1]
    requires r.maxDrawdownPct == WorstDrop(r.equityCurve, PositivePeak) * 100.0
    ensures ReportsPath(bars, actions, slip, start, f, r)
  {
  }

  method Summarise(n: nat, book: Book, holds: nat, signals: nat, start: real, ghost pnls: seq<real>,
                   ghost pcts: seq<real>,
                   curve: seq<real>, root: Root)
    returns (r: Result)
    requires start != 0.0 && |book.evaluations| == |pnls| == |pcts|
    requires forall k :: 0 <= k < |pnls| ==> book.evaluations[k].pnl == pnls[k] && book.evaluations[k].pnlPct == pcts[k]
    ensures r.bars == n && r.trades == |pnls| && r.holds == holds && r.signals == signals
    ensures r.finalEquity == book.cash && r.totalReturnPct == ReturnPct(start, book.cash)
    ensures r.avgTradePnl == Average(pnls) && r.evaluations == book.evaluations
    ensures r.winRate == WinRate(pnls) && r.sharpe == AnnualSharpe(pcts, root)
    ensures |r.equityCurve| == if curve == [] then 1 else |curve|
    ensures r.equityCurve[|r.equityCurve| - 1] == book.cash
    ensures curve != [] ==> r.equityCurve[..|r.equityCurve| - 1] == curve[..|curve| - 1]
    ensures r.maxDrawdownPct == WorstDrop(r.equityCurve, PositivePeak) * 100.0
  {
    var closed := SealCurve(curve, book.cash);
    var maxDd := EngineMaxDrawdownPct(closed);
    var average := AveragePnl(book.evaluations, pnls);
    var winRate, sharpe := LearningMetrics(book.evaluations, pnls, pcts, root);
    r := Result(n, |book.evaluations|, holds, signals, book.cash, ReturnPct(start, book.cash), maxDd,
                winRate, sharpe, average, book.evaluations, closed);
  }

  /** `compute_learning_metrics`, as far as the result shows it. */
  method LearningMetrics(evaluations: seq<Evaluation>, ghost pnls: seq<real>, ghost pcts: seq<real>, root: Root)
    returns (winRate: real, sharpe: real)
    requires |evaluations| == |pnls| == |pcts|
    requires forall k :: 0 <= k < |pnls| ==> evaluations[k].pnl == pnls[k] && evaluations[k].pnlPct == pcts[k]
    ensures winRate == WinRate(pnls) && sharpe == AnnualSharpe(pcts, root)
  {
    if evaluations == [] {
      return 0.0, 0.0;
    }
    var percentages := seq(|evaluations|, k requires 0 <= k < |evaluations| => evaluations[k].pnlPct);
    var gains := seq(|evaluations|, k requires 0 <= k < |evaluations| => evaluations[k].pnl);
    assert percentages == pcts && gains == pnls;
    var wins := CountWinsLoop(gains);
    winRate := Round(wins as real / |gains| as real, GRID4);
    sharpe := AnnualSharpe(percentages, root);
  }

  /** The last mark is replaced by the realised equity. */
  method SealCurve(curve: seq<real>, finalEquity: real) returns (closed: seq<real>)
    ensures |closed| == if curve == [] then 1 else |curve|
    ensures closed[|closed| - 1] == finalEquity
    ensures curve != [] ==> closed[..|closed| - 1] == curve[..|curve| - 1]
  {
    closed := if curve == [] then [finalEquity] else curve[|curve| - 1 := finalEquity];
  }

  method AveragePnl(evaluations: seq<Evaluation>, ghost pnls: seq<real>) returns (average: real)
    requires |evaluations| == |pnls| && forall k :: 0 <= k < |pnls| ==> evaluations[k].pnl == pnls[k]
    ensures average == Average(pnls)
  {
    var total := TotalPnl(evaluations, pnls);
    average := if |evaluations| > 0 then total / |evaluations| as real else 0.0;
  }

  method TotalPnl(evaluations: seq<Evaluation>, ghost pnls: seq<real>) returns (total: real)
    requires |evaluations| == |pnls| && forall k :: 0 <= k < |pnls| ==> evaluations[k].pnl == pnls[k]
    ensures total == Sum(pnls)
  {
    total := 0.0;
    for i := 0 to |evaluations|
      invariant total == Sum(pnls[..i])
    {
      assert pnls[..i + 1][..i] == pnls[..i];
      total := total + evaluations[i].pnl;
    }
    assert pnls[..|evaluations|] == pnls;
  }
}
