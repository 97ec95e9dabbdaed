/** cognitive/drift.py and cognitive/counterfactual.py: is the recent half of a metric worse than the
    half before it, and was the chosen action the best one? */
module Drift {
  import opened Rounding
  import opened Trades
  import opened RecentKeys
  import opened Sharpe
  import opened Report
  import opened Drawdown

  const WINDOW := 20
  const MIN_SAMPLES := 10

  datatype Spec = Spec(higherIsBetter: bool, threshold: real)

  datatype Alert = Alert(metric: string, down: bool, recent: real, baseline: real, delta: real)

  /** The older half of the samples, and the rest. */
  function Baseline(values: seq<real>): real
    requires |values| >= 2
  {
    Mean(values[..|values| / 2])
  }

  function Recent(values: seq<real>): real
    requires |values| >= 2
  {
    Mean(values[|values| / 2..])
  }

  function Degradation(values: seq<real>, spec: Spec): real
    requires |values| >= 2
  {
    if spec.higherIsBetter then Baseline(values) - Recent(values) else Recent(values) - Baseline(values)
  }

  predicate Alarms(values: seq<real>, spec: Spec) {
    |values| >= 2 * MIN_SAMPLES && Degradation(values, spec) > spec.threshold
  }

  function AlertOf(metric: string, values: seq<real>, spec: Spec): seq<Alert> {
    if Alarms(values, spec) then
      [Alert(metric, spec.higherIsBetter, Round(Recent(values), GRID4), Round(Baseline(values), GRID4),
             Round(Degradation(values, spec), GRID4))]
    else []
  }

  /** The alerts of all metrics, in the order they were registered. */
  function AlertsOf(order: seq<string>, series: map<string, seq<real>>, specs: map<string, Spec>): seq<Alert>
    requires forall m :: m in order ==> m in series && m in specs
  {
    if order == [] then []
    else
      var last := order[|order| - 1];
      AlertsOf(order[..|order| - 1], series, specs) + AlertOf(last, series[last], specs[last])
  }

  function Observed(series: map<string, seq<real>>, metric: string, value: real): map<string, seq<real>> {
    if metric in series then series[metric := Tail(series[metric] + [value], 2 * WINDOW)] else series
  }

  class DriftMonitor {
    var order: seq<string>
    var specs: map<string, Spec>
    var series: map<string, seq<real>>

    ghost predicate Valid()
      reads this
    {
      && (forall m :: m in order <==> m in series) && series.Keys == specs.Keys
      && forall m :: m in series ==> |series[m]| <= 2 * WINDOW
    }

    constructor ()
      ensures Valid() && order == []
    {
      order, specs, series := [], map[], map[];
    }

    /** A metric registered again keeps its place and starts over. */
    method Register(metric: string, spec: Spec)
      requires Valid()
      modifies this
      ensures Valid() && order == old(order) + (if metric in old(order) then [] else [metric])
      ensures specs == old(specs)[metric := spec] && series == old(series)[metric := []]
    {
      if metric !in order {
        order := order + [metric];
      }
      specs, series := specs[metric := spec], series[metric := []];
    }

    /** Bounded memory: the newest 2 * window samples; an unknown metric is ignored. */
    method Observe(metric: string, value: real)
      requires Valid()
      modifies this`series
      ensures Valid() && series == Observed(old(series), metric, value)
    {
      if metric in series {
        var values := series[metric] + [value];
        if |values| > 2 * WINDOW {
          values := values[1..];
        }
        assert values == Tail(series[metric] + [value], 2 * WINDOW);
        series := series[metric := values];
      }
    }

    /** `assess`: one alert for every metric whose recent half is worse by more than its threshold. */
    method Assess() returns (alerts: seq<Alert>)
      requires Valid()
      ensures alerts == AlertsOf(order, series, specs)
      ensures forall a :: a in alerts ==> a.metric in order && Describes(a, series[a.metric], specs[a.metric])
      ensures forall m :: m in order ==>
        ((exists a :: a in alerts && a.metric == m) <==> WorseBy(series[m], specs[m]))
    {
      alerts := Collect();
      AlertsDescribe(order, series, specs);
    }

    method Collect() returns (alerts: seq<Alert>)
      requires Valid()
      ensures alerts == AlertsOf(order, series, specs)
    {
      alerts := [];
      for i := 0 to |order|
        invariant alerts == AlertsOf(order[..i], series, specs)
      {
        assert order[..i + 1][..i] == order[..i];
        var alert := Check(order[i], series[order[i]], specs[order[i]]);
        alerts := alerts + alert;
      }
      assert order[..|order|] == order;
    }
  }

  /** One metric of `assess`. */
  method Check(metric: string, values: seq<real>, spec: Spec) returns (alert: seq<Alert>)
    ensures alert == AlertOf(metric, values, spec)
  {
    alert := [];
    if |values| >= 2 * MIN_SAMPLES {
      var half := |values| / 2;
      var baseline, recent := Mean(values[..half]), Mean(values[half..]);
      var degradation := if spec.higherIsBetter then baseline - recent else recent - baseline;
      if degradation > spec.threshold {
        alert := [Alert(metric, spec.higherIsBetter, Round(recent, GRID4), Round(baseline, GRID4),
                        Round(degradation, GRID4))];
      }
    }
  }

  // ---------------------------------------------------------------- what an alert means

  lemma {:induction false} SumBounds(xs: seq<real>, lo: real, hi: real)
    requires forall i :: 0 <= i < |xs| ==> lo <= xs[i] <= hi
    ensures lo * |xs| as real <= Sum(xs) <= hi * |xs| as real
  {
    if xs != [] {
      var n := |xs| - 1;
      SumBounds(xs[..n], lo, hi);
      OneMoreTerm(lo, n);
      OneMoreTerm(hi, n);
    }
  }

  lemma OneMoreTerm(x: real, n: nat)
    ensures x * (n + 1) as real == x * n as real + x
  {
  }

  lemma MeanBounds(xs: seq<real>, lo: real, hi: real)
    requires xs != [] && forall i :: 0 <= i < |xs| ==> lo <= xs[i] <= hi
    ensures lo <= Mean(xs) <= hi
  {
    var n := |xs| as real;
    SumBounds(xs, lo, hi);
    DivideMono(lo * n, Sum(xs), n);
    DivideMono(Sum(xs), hi * n, n);
    IsQuotient(lo * n, n, lo);
    IsQuotient(hi * n, n, hi);
  }

  /** A metric that never gets worse never raises an alert. */
  lemma SteadyNeverAlarms(values: seq<real>, spec: Spec)
    requires spec.threshold >= 0.0
    requires forall i, j :: 0 <= i <= j < |values| ==>
      if spec.higherIsBetter then values[i] <= values[j] else values[i] >= values[j]
    ensures !Alarms(values, spec)
  {
    if |values| >= 2 * MIN_SAMPLES {
      var half, n := |values| / 2, |values|;
      var older, newer := values[..half], values[half..];
      if spec.higherIsBetter {
        MeanBounds(older, values[0], values[half]);
        MeanBounds(newer, values[half], values[n - 1]);
      } else {
        MeanBounds(older, values[half], values[0]);
        MeanBounds(newer, values[n - 1], values[half]);
      }
    }
  }

  /** A metric that steps from one level to another, seen for equally long on both, raises an alert
      exactly when it got worse by more than the threshold. */
  lemma StepAlarmsIff(values: seq<real>, k: nat, a: real, b: real, spec: Spec)
    requires |values| == 2 * k && k >= MIN_SAMPLES
    requires forall i :: 0 <= i < 2 * k ==> values[i] == if i < k then a else b
    ensures Alarms(values, spec) <==> (if spec.higherIsBetter then a - b else b - a) > spec.threshold
  {
    MeanBounds(values[..k], a, a);
    MeanBounds(values[k..], b, b);
  }

  /** With at least 20 samples, the mean of the older half and the mean of the rest. */
  ghost predicate Halves(values: seq<real>, baseline: real, recent: real) {
    var half := |values| / 2;
    && |values| >= 20
    && Times(baseline, half as real) == Sum(values[..half])
    && Times(recent, (|values| - half) as real) == Sum(values[half..])
  }

  ghost predicate Worse(baseline: real, recent: real, spec: Spec) {
    if spec.higherIsBetter then recent < baseline - spec.threshold else recent > baseline + spec.threshold
  }

  /** The recent half of the metric is worse than the older one by more than the threshold. */
  ghost predicate WorseBy(values: seq<real>, spec: Spec) {
    exists baseline, recent :: Halves(values, baseline, recent) && Worse(baseline, recent, spec)
  }

  /** The alert shows both means and by how much the metric got worse. */
  ghost predicate Describes(a: Alert, values: seq<real>, spec: Spec) {
    && a.down == spec.higherIsBetter
    && exists baseline, recent ::
         && Halves(values, baseline, recent) && Worse(baseline, recent, spec)
         && Near4(a.recent, recent) && Near4(a.baseline, baseline)
         && Near4(a.delta, if spec.higherIsBetter then baseline - recent else recent - baseline)
  }

  lemma HalvesAre(values: seq<real>)
    requires |values| >= 20
    ensures Halves(values, Baseline(values), Recent(values))
    ensures forall baseline, recent :: Halves(values, baseline, recent) ==>
      baseline == Baseline(values) && recent == Recent(values)
  {
    var half := |values| / 2;
    MeanIs(values[..half]);
    MeanIs(values[half..]);
    forall baseline, recent | Halves(values, baseline, recent)
      ensures baseline == Baseline(values) && recent == Recent(values)
    {
      IsQuotient(Sum(values[..half]), half as real, baseline);
      IsQuotient(Sum(values[half..]), (|values| - half) as real, recent);
    }
  }

  lemma AlertDescribes(metric: string, values: seq<real>, spec: Spec)
    ensures AlertOf(metric, values, spec) != [] <==> WorseBy(values, spec)
    ensures AlertOf(metric, values, spec) != [] ==> Describes(AlertOf(metric, values, spec)[0], values, spec)
  {
    if |values| >= 20 {
      HalvesAre(values);
      assert Alarms(values, spec) <==> Worse(Baseline(values), Recent(values), spec);
      NearGrid4(Recent(values));
      NearGrid4(Baseline(values));
      NearGrid4(Degradation(values, spec));
    }
  }

  /** The alerts are exactly those of the metrics that got worse, and say by how much. */
  lemma {:induction false} AlertsDescribe(order: seq<string>, series: map<string, seq<real>>, specs: map<string, Spec>)
    requires forall m :: m in order ==> m in series && m in specs
    ensures var alerts := AlertsOf(order, series, specs);
      && (forall a :: a in alerts ==> a.metric in order && Describes(a, series[a.metric], specs[a.metric]))
      && forall m :: m in order ==>
           ((exists a :: a in alerts && a.metric == m) <==> WorseBy(series[m], specs[m]))
  {
    if order != [] {
      var front, last := order[..|order| - 1], order[|order| - 1];
      AlertsDescribe(front, series, specs);
      AlertDescribes(last, series[last], specs[last]);
      var before, alert := AlertsOf(front, series, specs), AlertOf(last, series[last], specs[last]);
      assert order == front + [last];
      assert forall a :: a in before + alert <==> a in before || (alert != [] && a == alert[0]);
      forall m | m in order
        ensures (exists a :: a in before + alert && a.metric == m) <==> WorseBy(series[m], specs[m])
      {
        if m in front && exists a :: a in before && a.metric == m {
          var a :| a in before && a.metric == m;
          assert a in before + alert;
        } else if m == last && alert != [] {
          assert alert[0] in before + alert;
        }
      }
    }
  }

  // ---------------------------------------------------------------- regret

  /** What each action would have made of the realised move. */
  function WouldHaveMade(action: Action, move: real): real {
    match action
    case Buy => Round(move, GRID6)
    case Sell => Round(-move, GRID6)
    case Hold => 0.0
  }

  function MoveOf(pnlPct: real, side: Action): real {
    if side.Buy? then pnlPct else -pnlPct
  }

  function BestOutcome(move: real): real {
    var buy, sell := WouldHaveMade(Buy, move), WouldHaveMade(Sell, move);
    if buy >= sell && buy >= 0.0 then buy else if sell >= 0.0 then sell else 0.0
  }

  function Regret(chosen: Action, pnlPct: real, side: Action): real {
    var move := MoveOf(pnlPct, side);
    Round(BestOutcome(move) - WouldHaveMade(chosen, move), GRID6)
  }

  /** Buying makes the move, selling its opposite, holding nothing; the regret is what the best of the
      three would have made beyond the chosen one. */
  lemma RegretIsToTheBest(chosen: Action, pnlPct: real, side: Action) returns (best: Action)
    ensures var move := if side == Buy then pnlPct else -pnlPct;
      && -HALF_MICRO <= WouldHaveMade(Buy, move) - move <= HALF_MICRO
      && -HALF_MICRO <= WouldHaveMade(Sell, move) + move <= HALF_MICRO
      && WouldHaveMade(Hold, move) == 0.0
      && (forall other :: WouldHaveMade(other, move) <= WouldHaveMade(best, move))
      && Regret(chosen, pnlPct, side) == WouldHaveMade(best, move) - WouldHaveMade(chosen, move)
  {
    var move := MoveOf(pnlPct, side);
    OutcomesAre(move);
    best := BestChoice(move);
    GapToBest(chosen, best, move);
  }

  lemma GapToBest(chosen: Action, best: Action, move: real)
    ensures Round(WouldHaveMade(best, move) - WouldHaveMade(chosen, move), GRID6) ==
      WouldHaveMade(best, move) - WouldHaveMade(chosen, move)
  {
    OutcomeOnGrid(chosen, move);
    OutcomeOnGrid(best, move);
    GridGap(WouldHaveMade(best, move), WouldHaveMade(chosen, move));
  }

  lemma OutcomesAre(move: real)
    ensures -HALF_MICRO <= WouldHaveMade(Buy, move) - move <= HALF_MICRO
    ensures -HALF_MICRO <= WouldHaveMade(Sell, move) + move <= HALF_MICRO
    ensures WouldHaveMade(Hold, move) == 0.0
  {
    RoundNear(move, GRID6);
    RoundNear(-move, GRID6);
  }

  lemma BestChoice(move: real) returns (best: Action)
    ensures BestOutcome(move) == WouldHaveMade(best, move)
    ensures forall other :: WouldHaveMade(other, move) <= WouldHaveMade(best, move)
  {
    best := BestOfThree(WouldHaveMade(Buy, move), WouldHaveMade(Sell, move));
    forall other ensures WouldHaveMade(other, move) <= WouldHaveMade(best, move) {
    }
  }

  lemma BestOfThree(buy: real, sell: real) returns (best: Action)
    ensures best == if buy >= sell && buy >= 0.0 then Buy else if sell >= 0.0 then Sell else Hold
    ensures match best
            case Buy => sell <= buy && 0.0 <= buy
            case Sell => buy <= sell && 0.0 <= sell
            case Hold => buy <= 0.0 && sell <= 0.0
  {
    best := if buy >= sell && buy >= 0.0 then Buy else if sell >= 0.0 then Sell else Hold;
  }

  /** Regret is never negative, and zero exactly when no other action would have done better; the
      action that was traded is credited with what the trade made. */
  lemma RegretIsZeroIff(chosen: Action, pnlPct: real, side: Action)
    ensures var move := MoveOf(pnlPct, side);
      && Regret(chosen, pnlPct, side) >= 0.0
      && (Regret(chosen, pnlPct, side) == 0.0 <==>
            forall other :: WouldHaveMade(other, move) <= WouldHaveMade(chosen, move))
      && (side.Buy? || side.Sell? ==> WouldHaveMade(side, move) == Round(pnlPct, GRID6))
  {
    var move := MoveOf(pnlPct, side);
    OutcomeOnGrid(chosen, move);
    OutcomeOnGrid(Buy, move);
    OutcomeOnGrid(Sell, move);
    OutcomeOnGrid(Hold, move);
    var gap := BestOutcome(move) - WouldHaveMade(chosen, move);
    GridGap(BestOutcome(move), WouldHaveMade(chosen, move));
    assert WouldHaveMade(Buy, move) <= BestOutcome(move) && WouldHaveMade(Sell, move) <= BestOutcome(move);
    if gap == 0.0 {
      forall other ensures WouldHaveMade(other, move) <= WouldHaveMade(chosen, move) {
      }
    }
  }

  lemma OutcomeOnGrid(action: Action, move: real)
    ensures OnGrid(WouldHaveMade(action, move), GRID6)
  {
    UnitOnGrid4();
    RoundNear(move, GRID6);
    RoundNear(-move, GRID6);
  }

  lemma GridGap(a: real, b: real)
    requires OnGrid(a, GRID6) && OnGrid(b, GRID6)
    ensures Round(a - b, GRID6) == a - b
  {
    var m: int, n: int :| a == GridValue(m, GRID6) && b == GridValue(n, GRID6);
    assert a - b == GridValue(m - n, GRID6);
    RoundFixed(a - b, GRID6);
  }
}
