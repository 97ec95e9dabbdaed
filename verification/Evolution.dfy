/** cognitive/proposal.py and the config half of cognitive/gitops.py: how a configuration may change. */
module Evolution {
  import opened Rounding
  import opened Json
  import opened Config
  import opened Learning
  import opened Report

  const WEIGHT_STEP := 0.05
  const MIN_OBSERVATION_CONFIDENCE := 0.50
  const SCORECARD_PRIOR := 0.50

  datatype ProposalType = WeightChange | PromptChange | ToolChange | BacktestChange | RiskChange | FeatureChange

  datatype Proposal = Proposal(ptype: ProposalType, target: string, oldValue: Value, newValue: Value)

  // ---------------------------------------------------------------- scorecard

  datatype TypeStat = TypeStat(attempts: nat, successes: nat)

  class ProposalScorecard {
    var stats: map<ProposalType, TypeStat>

    ghost predicate Valid()
      reads this
    {
      forall t :: t in stats ==> 0 < stats[t].attempts && stats[t].successes <= stats[t].attempts
    }

    constructor ()
      ensures Valid() && stats == map[]
    {
      stats := map[];
    }

    method Record(t: ProposalType, success: bool)
      requires Valid()
      modifies this
      ensures Valid() && stats == Recorded(old(stats), t, success)
    {
      if t !in stats {
        stats := stats[t := TypeStat(0, 0)];
      }
      stats := stats[t := stats[t].(attempts := stats[t].attempts + 1)];
      if success {
        stats := stats[t := stats[t].(successes := stats[t].successes + 1)];
      }
    }
  }

  function StatOf(stats: map<ProposalType, TypeStat>, t: ProposalType): TypeStat {
    if t in stats then stats[t] else TypeStat(0, 0)
  }

  function Recorded(stats: map<ProposalType, TypeStat>, t: ProposalType, success: bool): map<ProposalType, TypeStat> {
    var s := StatOf(stats, t);
    stats[t := TypeStat(s.attempts + 1, s.successes + if success then 1 else 0)]
  }

  function SuccessRate(stats: map<ProposalType, TypeStat>, t: ProposalType): real {
    var s := StatOf(stats, t);
    if s.attempts == 0 then SCORECARD_PRIOR else Round(s.successes as real / s.attempts as real, GRID4)
  }

  lemma SuccessRateIsAFraction(stats: map<ProposalType, TypeStat>, t: ProposalType)
    requires StatOf(stats, t).successes <= StatOf(stats, t).attempts
    ensures 0.0 <= SuccessRate(stats, t) <= 1.0
    ensures t in stats && stats[t].attempts > 0 ==>
      RateFits(SuccessRate(stats, t), stats[t].successes, stats[t].attempts)
    ensures t !in stats ==> SuccessRate(stats, t) == 0.5
  {
    var s := StatOf(stats, t);
    if s.attempts > 0 {
      NearGrid4(s.successes as real / s.attempts as real);
      var n, k := s.attempts as real, s.successes as real;
      DivideMono(k, n, n);
      DivideMono(0.0, k, n);
      IsQuotient(n, n, 1.0);
      UnitOnGrid4();
      RoundWithin(k / n, 0.0, 1.0, GRID4);
    }
  }

  // ---------------------------------------------------------------- proposing

  /** `max(candidates, key=confidence)`: the first of the most confident. */
  function Best(observations: seq<Observation>): Observation
    requires observations != []
  {
    if |observations| == 1 then observations[0]
    else
      var front, last := Best(observations[..|observations| - 1]), observations[|observations| - 1];
      if last.confidence > front.confidence then last else front
  }

  function RequiredConfidence(rate: real): real {
    var c := MIN_OBSERVATION_CONFIDENCE + (1.0 - rate) * 0.3;
    if c < 0.95 then c else 0.95
  }

  /** The step shrinks with a poor record: between half and all of WEIGHT_STEP. */
  function StepSize(rate: real): real {
    WEIGHT_STEP * (0.5 + 0.5 * rate)
  }

  function NewWeight(oldValue: real, outperforming: bool, rate: real): real {
    Round(ClampWeight(oldValue + if outperforming then StepSize(rate) else -StepSize(rate)), GRID4)
  }

  function Target(signal: Signal): string {
    "weights." + Key(signal)
  }

  function Propose(observations: seq<Observation>, config: CognitiveConfig, rate: real): Option<Proposal> {
    if observations == [] then None
    else
      var best := Best(observations);
      if best.confidence < RequiredConfidence(rate) then None
      else
        var oldValue := Round(config.weights.At(best.signal), GRID6);
        var newValue := NewWeight(oldValue, best.outperforming, rate);
        if newValue == oldValue then None
        else Some(Proposal(WeightChange, Target(best.signal), Num(oldValue), Num(newValue)))
  }

  /** The first of the most confident observations. */
  ghost predicate MostConfident(observations: seq<Observation>, k: nat) {
    && k < |observations|
    && (forall j :: 0 <= j < |observations| ==> observations[j].confidence <= observations[k].confidence)
    && forall j :: 0 <= j < k ==> observations[j].confidence < observations[k].confidence
  }

  lemma {:induction false} BestIsMostConfident(observations: seq<Observation>) returns (k: nat)
    requires observations != []
    ensures MostConfident(observations, k) && Best(observations) == observations[k]
  {
    var n := |observations| - 1;
    if n == 0 {
      return 0;
    }
    k := BestIsMostConfident(observations[..n]);
    if observations[n].confidence > observations[k].confidence {
      k := n;
    }
  }

  /** Where a weight is to go: a step of 0.025 to 0.05, growing with the success rate, in the direction
      of the observation, but not outside [0, 1]. */
  function Aim(weight: real, up: bool, rate: real): real {
    var moved := if up then weight + 0.025 + 0.025 * rate else weight - 0.025 - 0.025 * rate;
    if moved < 0.0 then 0.0 else if moved > 1.0 then 1.0 else moved
  }

  /** When a proposal is made, and which: the first most confident observation decides, it must be
      convincing - the more so the poorer the record; the cap of 0.95 is never reached - and its
      weight, to six places, not yet at the bound it is to move to.  Then that weight goes where it
      should, to four places. */
  lemma ProposesIff(observations: seq<Observation>, config: CognitiveConfig, rate: real)
    returns (k: nat)
    requires observations != [] && Safe(config) && 0.0 <= rate <= 1.0
    ensures MostConfident(observations, k)
    ensures var o, proposal := observations[k], Propose(observations, config, rate);
      var w := Round(config.weights.At(o.signal), GRID6);
      && (proposal.Some? <==> o.confidence >= 0.8 - 0.3 * rate && w != if o.outperforming then 1.0 else 0.0)
      && (proposal.Some? ==>
            var p := proposal.value;
            && p.ptype.WeightChange? && p.target == "weights." + Key(o.signal)
            && p.oldValue == Num(w) && p.newValue.Num? && Near4(p.newValue.x, Aim(w, o.outperforming, rate)))
  {
    k := BestIsMostConfident(observations);
    var w := config.weights.At(observations[k].signal);
    assert Within(w, WEIGHT_BOUNDS);
    OldValueBounds(w);
    NewWeightAims(Round(w, GRID6), observations[k].outperforming, rate);
  }

  lemma NewWeightAims(w: real, up: bool, rate: real)
    requires 0.0 <= w <= 1.0 && 0.0 <= rate <= 1.0
    ensures Near4(NewWeight(w, up, rate), Aim(w, up, rate))
    ensures NewWeight(w, up, rate) == w <==> w == if up then 1.0 else 0.0
  {
    AimIsClamped(w, up, rate);
    NearGrid4(Aim(w, up, rate));
    UnitOnGrid4();
    RoundFixed(0.0, GRID4);
    RoundFixed(1.0, GRID4);
  }

  lemma AimIsClamped(w: real, up: bool, rate: real)
    requires 0.0 <= w <= 1.0 && 0.0 <= rate <= 1.0
    ensures Aim(w, up, rate) == ClampWeight(w + if up then StepSize(rate) else -StepSize(rate))
  {
  }

  // ---------------------------------------------------------------- applying

  /** `target.split(".")[-1]` */
  function LastComponent(target: string): string {
    if '.' in target then LastComponent(target[1..]) else target
  }

  lemma {:induction false} LastComponentAfterDot(prefix: string, key: string)
    requires '.' !in key
    ensures LastComponent(prefix + "." + key) == key
  {
    var target := prefix + "." + key;
    assert target[|prefix|] == '.';
    if prefix == [] {
      assert target[1..] == key;
    } else {
      assert target[1..] == prefix[1..] + "." + key;
      LastComponentAfterDot(prefix[1..], key);
    }
  }

  datatype Applied = Raises | NotApplicable | Candidate(config: CognitiveConfig)

  predicate IsWeightKey(key: string) {
    exists s | s in WEIGHT_KEYS :: Key(s) == key
  }

  /** The nested dict after the proposal's edit; None where the target does not exist. */
  function Edited(config: CognitiveConfig, p: Proposal, x: Float): Option<map<string, Value>> {
    var data := ToDict(config);
    var key := LastComponent(p.target);
    match p.ptype
    case WeightChange =>
      if !IsWeightKey(key) then None
      else Some(data["weights" := Obj(WeightsDict(config.weights)[key := Num(ClampWeight(x))])])
    case RiskChange =>
      if key !in RiskDict(config) then None
      else Some(data["risk" := Obj(RiskDict(config)[key := Num(x)])])
    case _ => None
  }

  function ApplyProposal(config: CognitiveConfig, p: Proposal, readers: Readers): Applied {
    match ToFloat(p.newValue, readers)
    case NotANumber => ApplyRaises(config, p)
    case TooLarge => ApplyRaises(config, p)
    case Read(x) =>
      match Edited(config, p, x)
      case None => NotApplicable
      case Some(edited) =>
        Checked(edited["version" := Num((config.version + 1) as real)], readers)
  }

  /** The target is looked up before the value is converted. */
  function ApplyRaises(config: CognitiveConfig, p: Proposal): Applied {
    if Edited(config, p, 0.0).Some? then Raises else NotApplicable
  }

  /** Validate, then build. */
  function Checked(data: map<string, Value>, readers: Readers): Applied {
    match Validate(Obj(data), readers)
    case None => Raises
    case Some(errors) =>
      if errors != [] then NotApplicable
      else match FromDict(data, readers)
           case Some(c) => Candidate(c)
           case None => Raises
  }

  /** Differs in the version and at most the one weight or risk limit the target names. */
  ghost predicate OneEdit(before: CognitiveConfig, after: CognitiveConfig, p: Proposal, x: Float) {
    && after.version == before.version + 1
    && match p.ptype
       case WeightChange =>
         exists s: Signal :: Key(s) == LastComponent(p.target)
           && after == before.(version := before.version + 1, weights := before.weights.With(s, ClampWeight(x)))
       case RiskChange =>
         var key := LastComponent(p.target);
         var bumped := before.(version := before.version + 1);
         || (key == "max_position_size_pct" && after == bumped.(maxPositionSizePct := x))
         || (key == "max_daily_loss_pct" && after == bumped.(maxDailyLossPct := x))
         || (key == "max_exposure_pct" && after == bumped.(maxExposurePct := x))
       case _ => false
  }

  lemma KeysDistinct(a: Signal, b: Signal)
    ensures Key(a) == Key(b) <==> a == b
    ensures '.' !in Key(a)
  {
    assert Key(News)[0] == 'n' && Key(Tech)[0] == 't' && Key(Macro)[0] == 'm';
  }

  /** The dict of a configuration edited at one weight is the dict of the edited configuration. */
  lemma WeightEditIsDict(config: CognitiveConfig, s: Signal, w: Float)
    ensures WeightsDict(config.weights)[Key(s) := Num(w)] == WeightsDict(config.weights.With(s, w))
  {
  }

  function Bumped(config: CognitiveConfig, s: Signal, w: Float): CognitiveConfig {
    config.(version := config.version + 1, weights := config.weights.With(s, w))
  }

  lemma WeightApplied(config: CognitiveConfig, p: Proposal, s: Signal, x: Float, readers: Readers)
    requires p.ptype.WeightChange? && LastComponent(p.target) == Key(s) && p.newValue == Num(x)
    ensures ApplyProposal(config, p, readers) ==
      if Safe(Bumped(config, s, ClampWeight(x))) then Candidate(Bumped(config, s, ClampWeight(x))) else NotApplicable
  {
    var after := Bumped(config, s, ClampWeight(x));
    WeightEdited(config, p, s, x);
    WeightDataIsDict(config, after);
    CheckedDict(after, readers);
  }

  lemma WeightEdited(config: CognitiveConfig, p: Proposal, s: Signal, x: Float)
    requires p.ptype.WeightChange? && LastComponent(p.target) == Key(s)
    ensures Edited(config, p, x) ==
      Some(ToDict(config)["weights" := Obj(WeightsDict(config.weights.With(s, ClampWeight(x))))])
  {
    assert s in WEIGHT_KEYS by {
      assert WEIGHT_KEYS[if s.News? then 0 else if s.Tech? then 1 else 2] == s;
    }
    WeightEditIsDict(config, s, ClampWeight(x));
  }

  lemma WeightDataIsDict(config: CognitiveConfig, after: CognitiveConfig)
    requires after == config.(version := config.version + 1, weights := after.weights)
    ensures ToDict(config)["weights" := Obj(WeightsDict(after.weights))]["version" := Num((config.version + 1) as real)]
         == ToDict(after)
  {
  }

  /** Validating and reading back the dict of a configuration. */
  lemma CheckedDict(after: CognitiveConfig, readers: Readers)
    ensures Checked(ToDict(after), readers) == if Safe(after) then Candidate(after) else NotApplicable
  {
    ValidIffSafe(after, readers);
    DictRoundTrip(after, readers);
  }

  // ---------------------------------------------------------------- safe evolution

  const WEIGHT_TOLERANCE := 0.0000505   // half a unit of each of the two roundings

  lemma StepBounds(rate: real)
    requires 0.0 <= rate <= 1.0
    ensures 0.025 <= StepSize(rate) <= WEIGHT_STEP
  {
  }

  lemma OldValueBounds(w: real)
    requires 0.0 <= w <= 1.0
    ensures 0.0 <= Round(w, GRID6) <= 1.0 && -0.0000005 <= Round(w, GRID6) - w <= 0.0000005
  {
    UnitOnGrid4();
    RoundWithin(w, 0.0, 1.0, GRID6);
    RoundNear(w, GRID6);
  }

  lemma NewWeightBounds(oldValue: real, up: bool, rate: real)
    requires 0.0 <= oldValue <= 1.0 && 0.0 <= rate <= 1.0
    ensures var w := NewWeight(oldValue, up, rate);
      && 0.0 <= w <= 1.0 && ClampWeight(w) == w && OnGrid(w, GRID4)
      && Abs(w - oldValue) <= WEIGHT_STEP + 0.00005
      && (w != oldValue ==> if up then w > oldValue else w < oldValue)
  {
    StepBounds(rate);
    var moved := ClampWeight(oldValue + if up then StepSize(rate) else -StepSize(rate));
    UnitOnGrid4();
    RoundWithin(moved, 0.0, 1.0, GRID4);
    RoundNear(moved, GRID4);
    if up && moved == 1.0 {
      RoundFixed(1.0, GRID4);
    } else if !up && moved == 0.0 {
      RoundFixed(0.0, GRID4);
    }
  }

  /** A merge may move exactly one weight: by at most 0.05 plus rounding, in the direction the
      observation asked for, and nothing else but the version. */
  ghost predicate SafeStep(before: CognitiveConfig, after: CognitiveConfig) {
    && Safe(after)
    && after.version == before.version + 1
    && exists s: Signal ::
         && after == Bumped(before, s, after.weights.At(s))
         && after.weights.At(s) != before.weights.At(s)
         && Abs(after.weights.At(s) - before.weights.At(s)) <= WEIGHT_STEP + WEIGHT_TOLERANCE
  }

  lemma BumpedIsSafe(config: CognitiveConfig, s: Signal, w: Float)
    requires Safe(config) && Within(w, WEIGHT_BOUNDS)
    ensures Safe(Bumped(config, s, w)) && Bumped(config, s, w).weights.At(s) == w
  {
    forall t: Signal ensures Within(Bumped(config, s, w).weights.At(t), WEIGHT_BOUNDS) {
      assert Within(config.weights.At(t), WEIGHT_BOUNDS);
    }
  }

  /** A proposed weight differs from the weight in force, not only from its rounded value. */
  lemma ProposalIsNoOpFree(w: real, newValue: real)
    requires OnGrid(newValue, GRID4) && newValue != Round(w, GRID6)
    ensures newValue != w
  {
    Grid4OnGrid6(newValue);
    if newValue == w {
      RoundFixed(w, GRID6);
    }
  }

  /** From a safe configuration every generated proposal applies, and applying it is a safe step. */
  lemma ProposalsAreSafeSteps(observations: seq<Observation>, config: CognitiveConfig, rate: real, readers: Readers)
    requires Safe(config) && 0.0 <= rate <= 1.0 && Propose(observations, config, rate).Some?
    ensures var applied := ApplyProposal(config, Propose(observations, config, rate).value, readers);
      applied.Candidate? && SafeStep(config, applied.config)
  {
    var p := Propose(observations, config, rate).value;
    var best := Best(observations);
    var s, w := best.signal, config.weights.At(best.signal);
    var oldValue, newValue := p.oldValue.x, p.newValue.x;
    assert Within(w, WEIGHT_BOUNDS);
    OldValueBounds(w);
    NewWeightBounds(oldValue, best.outperforming, rate);
    ProposalIsNoOpFree(w, newValue);
    KeysDistinct(s, s);
    assert Target(s) == "weights" + "." + Key(s);
    LastComponentAfterDot("weights", Key(s));
    WeightApplied(config, p, s, newValue, readers);
    BumpedIsSafe(config, s, newValue);
  }

  /** Applying what the agent proposes never raises, even from an unsafe configuration. */
  lemma ProposedNeverRaises(observations: seq<Observation>, config: CognitiveConfig, rate: real, readers: Readers)
    requires Propose(observations, config, rate).Some?
    ensures !ApplyProposal(config, Propose(observations, config, rate).value, readers).Raises?
  {
    var p := Propose(observations, config, rate).value;
    var s := Best(observations).signal;
    KeysDistinct(s, s);
    assert Target(s) == "weights" + "." + Key(s);
    LastComponentAfterDot("weights", Key(s));
    NewWeightInUnit(p.oldValue.x, Best(observations).outperforming, rate);
    WeightApplied(config, p, s, p.newValue.x, readers);
  }

  lemma NewWeightInUnit(oldValue: real, up: bool, rate: real)
    ensures 0.0 <= NewWeight(oldValue, up, rate) <= 1.0
  {
    UnitOnGrid4();
    RoundWithin(ClampWeight(oldValue + if up then StepSize(rate) else -StepSize(rate)), 0.0, 1.0, GRID4);
  }

  lemma RiskKeys(key: string, config: CognitiveConfig)
    requires key in RiskDict(config)
    ensures key == "max_position_size_pct" || key == "max_daily_loss_pct" || key == "max_exposure_pct"
    ensures |"max_position_size_pct"| == 21 && |"max_daily_loss_pct"| == 18 && |"max_exposure_pct"| == 16
  {
  }

  function RiskEdited(config: CognitiveConfig, key: string, x: Float): CognitiveConfig {
    var bumped := config.(version := config.version + 1);
    if key == "max_position_size_pct" then bumped.(maxPositionSizePct := x)
    else if key == "max_daily_loss_pct" then bumped.(maxDailyLossPct := x)
    else bumped.(maxExposurePct := x)
  }

  lemma RiskEditIsDict(config: CognitiveConfig, key: string, x: Float)
    requires key in RiskDict(config)
    ensures RiskDict(config)[key := Num(x)] == RiskDict(RiskEdited(config, key, x))
  {
    RiskKeys(key, config);
  }

  lemma RiskDataIsDict(config: CognitiveConfig, key: string, x: Float)
    requires key in RiskDict(config)
    ensures ToDict(config)["risk" := Obj(RiskDict(config)[key := Num(x)])]["version" := Num((config.version +
      1) as real)]
         == ToDict(RiskEdited(config, key, x))
  {
    RiskEditIsDict(config, key, x);
    var after := RiskEdited(config, key, x);
    assert after.version == config.version + 1 && after.weights == config.weights
      && after.buyThreshold == config.buyThreshold && after.sellThreshold == config.sellThreshold;
  }

  lemma RiskApplied(config: CognitiveConfig, p: Proposal, x: Float, readers: Readers)
    requires p.ptype.RiskChange? && LastComponent(p.target) in RiskDict(config) &&
      ToFloat(p.newValue, readers) == Read(x)
    ensures var after := RiskEdited(config, LastComponent(p.target), x);
      ApplyProposal(config, p, readers) == if Safe(after) then Candidate(after) else NotApplicable
  {
    var after := RiskEdited(config, LastComponent(p.target), x);
    RiskEditMade(config, p, x);
    RiskDataIsDict(config, LastComponent(p.target), x);
    CheckedDict(after, readers);
  }

  lemma RiskEditMade(config: CognitiveConfig, p: Proposal, x: Float)
    requires p.ptype.RiskChange? && LastComponent(p.target) in RiskDict(config)
    ensures Edited(config, p, x) ==
      Some(ToDict(config)["risk" := Obj(RiskDict(config)[LastComponent(p.target) := Num(x)])])
  {
  }

  /** Whatever the proposal - hand-written ones and risk limits included - what `apply` lets
      through is inside every guardrail, one version up, and differs in the one setting the
      target names; and it refuses a well-formed edit only if the result would be unsafe. */
  lemma AppliedIsSafe(config: CognitiveConfig, p: Proposal, x: Float, readers: Readers)
    requires ToFloat(p.newValue, readers) == Read(x)
    ensures ApplyProposal(config, p, readers).Candidate? ==>
      Safe(ApplyProposal(config, p, readers).config) && OneEdit(config, ApplyProposal(config, p, readers).config, p, x)
    ensures !ApplyProposal(config, p, readers).Raises?
    ensures ApplyProposal(config, p, readers).NotApplicable? && Edited(config, p, x).Some? ==>
      exists after :: OneEdit(config, after, p, x) && !Safe(after)
  {
    var key := LastComponent(p.target);
    if p.ptype.WeightChange? && IsWeightKey(key) {
      var s :| s in WEIGHT_KEYS && Key(s) == key;
      WeightApplied(config, p.(newValue := Num(x)), s, x, readers);
      assert OneEdit(config, Bumped(config, s, ClampWeight(x)), p, x);
    } else if p.ptype.RiskChange? && key in RiskDict(config) {
      RiskApplied(config, p, x, readers);
      RiskKeys(key, config);
      assert OneEdit(config, RiskEdited(config, key, x), p, x);
    }
  }
}
