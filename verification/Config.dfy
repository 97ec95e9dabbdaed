/** cognitive/config.py: the bounds-checked behaviour snapshot and its nested JSON form. */
module Config {
  import opened Json

  datatype Signal = News | Tech | Macro

  const WEIGHT_KEYS: seq<Signal> := [News, Tech, Macro]

  function Key(signal: Signal): string {
    match signal
    case News => "news"
    case Tech => "tech"
    case Macro => "macro"
  }

  datatype PerSignal<T> = PerSignal(news: T, tech: T, macro: T) {
    function At(signal: Signal): T {
      match signal
      case News => news
      case Tech => tech
      case Macro => macro
    }

    function With(signal: Signal, value: T): PerSignal<T> {
      match signal
      case News => this.(news := value)
      case Tech => this.(tech := value)
      case Macro => this.(macro := value)
    }
  }

  datatype CognitiveConfig = CognitiveConfig(
    version: int,
    weights: PerSignal<Float>,
    buyThreshold: Float,
    sellThreshold: Float,
    maxPositionSizePct: Float,
    maxDailyLossPct: Float,
    maxExposurePct: Float)

  datatype Bounds = Bounds(lo: real, hi: real)

  const WEIGHT_BOUNDS := Bounds(0.0, 1.0)
  const BUY_THRESHOLD_BOUNDS := Bounds(0.0, 0.95)
  const SELL_THRESHOLD_BOUNDS := Bounds(-0.95, 0.0)
  const MAX_POSITION_SIZE_BOUNDS := Bounds(0.001, 0.5)
  const MAX_DAILY_LOSS_BOUNDS := Bounds(0.001, 0.25)
  const MAX_EXPOSURE_BOUNDS := Bounds(0.01, 1.0)

  const DEFAULT_CONFIG := CognitiveConfig(1, PerSignal(0.34, 0.33, 0.33), 0.15, -0.15, 0.05, 0.02, 0.30)

  // ---------------------------------------------------------------- JSON form

  function RiskDict(c: CognitiveConfig): map<string, Value> {
    map["max_position_size_pct" := Num(c.maxPositionSizePct),
        "max_daily_loss_pct" := Num(c.maxDailyLossPct),
        "max_exposure_pct" := Num(c.maxExposurePct)]
  }

  function WeightsDict(w: PerSignal<Float>): map<string, Value> {
    map["news" := Num(w.news), "tech" := Num(w.tech), "macro" := Num(w.macro)]
  }

  function ToDict(c: CognitiveConfig): map<string, Value> {
    map["version" := Num(c.version as real),
        "weights" := Obj(WeightsDict(c.weights)),
        "buy_threshold" := Num(c.buyThreshold),
        "sell_threshold" := Num(c.sellThreshold),
        "risk" := Obj(RiskDict(c))]
  }

  /** `d.get(key) or {}` followed by `.get`: None where a truthy non-object is indexed. */
  function SubDict(fields: map<string, Value>, key: string): Option<map<string, Value>> {
    var v := Get(fields, key);
    if v.Obj? then Some(v.fields) else if Falsy(v) then Some(map[]) else None
  }

  function FloatField(fields: map<string, Value>, key: string, default: Float, readers: Readers): Option<Float> {
    if key !in fields then Some(default)
    else match ToFloat(fields[key], readers)
         case Read(x) => Some(x)
         case _ => None
  }

  /** None where `from_dict` raises. */
  function FromDict(data: map<string, Value>, readers: Readers): Option<CognitiveConfig> {
    var d := DEFAULT_CONFIG;
    match (SubDict(data, "weights"), SubDict(data, "risk"))
    case (Some(weights), Some(risk)) =>
      var version := if "version" in data then ToInt(data["version"], readers) else Some(d.version);
      var news := FloatField(weights, "news", d.weights.news, readers);
      var tech := FloatField(weights, "tech", d.weights.tech, readers);
      var macro := FloatField(weights, "macro", d.weights.macro, readers);
      var buy := FloatField(data, "buy_threshold", d.buyThreshold, readers);
      var sell := FloatField(data, "sell_threshold", d.sellThreshold, readers);
      var position := FloatField(risk, "max_position_size_pct", d.maxPositionSizePct, readers);
      var loss := FloatField(risk, "max_daily_loss_pct", d.maxDailyLossPct, readers);
      var exposure := FloatField(risk, "max_exposure_pct", d.maxExposurePct, readers);
      if version.Some? && news.Some? && tech.Some? && macro.Some? && buy.Some? && sell.Some?
         && position.Some? && loss.Some? && exposure.Some?
      then Some(CognitiveConfig(version.value, PerSignal(news.value, tech.value, macro.value),
                                buy.value, sell.value, position.value, loss.value, exposure.value))
      else None
    case _ => None
  }

  /** A weights or risk section that is empty in any of Python's ways reads like a missing one; any
      other value but an object raises. */
  lemma EmptySectionsAreMissing(data: map<string, Value>, section: string, v: Value, readers: Readers)
    requires section == "weights" || section == "risk"
    ensures v in {Null, Bool(false), Num(0.0), Text(""), Arr([]), Obj(map[])} ==>
      FromDict(data[section := v], readers) == FromDict(data - {section}, readers)
    ensures !v.Obj? && v !in {Null, Bool(false), Num(0.0), Text(""), Arr([])} ==>
      FromDict(data[section := v], readers) == None
  {
    var with, without := data[section := v], data - {section};
    assert "weights"[0] == 'w' && "risk"[0] == 'r' && |"version"| == 7 && |"weights"| == 7 && "version"[0] == 'v';
    assert |"buy_threshold"| == 13 && |"sell_threshold"| == 14 && |"risk"| == 4;
    assert SubDict(without, section) == Some(map[]);
    OtherFieldsStay(with, without, section, readers);
  }

  /** Two objects that differ in one section only. */
  lemma OtherFieldsStay(a: map<string, Value>, b: map<string, Value>, section: string, readers: Readers)
    requires section == "weights" || section == "risk"
    requires forall key :: key != section ==> Get(a, key) == Get(b, key) && (key in a <==> key in b)
    requires SubDict(b, section) == Some(map[])
    ensures SubDict(a, section) == Some(map[]) ==> FromDict(a, readers) == FromDict(b, readers)
    ensures SubDict(a, section) == None ==> FromDict(a, readers) == None
  {
    assert |"weights"| == 7 && |"risk"| == 4 && |"version"| == 7 && "weights"[0] == 'w' && "version"[0] == 'v';
    assert |"buy_threshold"| == 13 && |"sell_threshold"| == 14;
    forall key | key != section && key in a ensures a[key] == b[key] {
      assert Get(a, key) == Get(b, key);
    }
  }

  /** `true` and `false` read as 1 and 0. */
  lemma BooleansReadAsNumbers(data: map<string, Value>, key: string, b: bool, readers: Readers)
    requires key == "version" || key == "buy_threshold" || key == "sell_threshold"
    ensures FromDict(data[key := Bool(b)], readers) == FromDict(data[key := Num(if b then 1.0 else 0.0)], readers)
  {
    assert |"weights"| == 7 && |"risk"| == 4 && |"version"| == 7 && "weights"[0] == 'w' && "version"[0] == 'v';
    assert |"buy_threshold"| == 13 && |"sell_threshold"| == 14;
  }

  // ---------------------------------------------------------------- validation

  datatype ConfigError =
    | NotAnObject
    | WeightsNotObject
    | WeightMissing(key: string)
    | WeightOutside(key: string)
    | BuyOutside
    | SellOutside
    | SellNotBelowBuy
    | RiskNotObject
    | RiskOutside(key: string)

  /** `_in_bounds`, where it does not raise. */
  predicate InBounds(v: Value, bounds: Bounds, readers: Readers) {
    !v.Bool? && match ToFloat(v, readers)
                case Read(x) => bounds.lo <= x <= bounds.hi
                case _ => false
  }

  const RISK_RULES: seq<(string, Bounds)> := [
    ("max_position_size_pct", MAX_POSITION_SIZE_BOUNDS),
    ("max_daily_loss_pct", MAX_DAILY_LOSS_BOUNDS),
    ("max_exposure_pct", MAX_EXPOSURE_BOUNDS)]

  function WeightErrors(weights: map<string, Value>, keys: seq<Signal>, readers: Readers): seq<ConfigError> {
    if keys == [] then []
    else
      var key := Key(keys[|keys| - 1]);
      WeightErrors(weights, keys[..|keys| - 1], readers)
      + if key !in weights then [WeightMissing(key)]
        else if !InBounds(weights[key], WEIGHT_BOUNDS, readers) then [WeightOutside(key)]
        else []
  }

  function RiskErrors(risk: map<string, Value>, rules: seq<(string, Bounds)>, readers: Readers): seq<ConfigError> {
    if rules == [] then []
    else
      var (key, bounds) := rules[|rules| - 1];
      RiskErrors(risk, rules[..|rules| - 1], readers)
      + if !InBounds(Get(risk, key), bounds, readers) then [RiskOutside(key)] else []
  }

  function ThresholdErrors(buy: Value, sell: Value, readers: Readers): seq<ConfigError> {
    var buyOk, sellOk := InBounds(buy, BUY_THRESHOLD_BOUNDS, readers), InBounds(sell, SELL_THRESHOLD_BOUNDS, readers);
    (if buyOk then [] else [BuyOutside])
    + (if sellOk then [] else [SellOutside])
    + if buyOk && sellOk && ToFloat(sell, readers).value >= ToFloat(buy, readers).value
      then [SellNotBelowBuy] else []
  }

  function WeightSection(weights: Value, readers: Readers): seq<ConfigError> {
    if weights.Obj? then WeightErrors(weights.fields, WEIGHT_KEYS, readers) else [WeightsNotObject]
  }

  function RiskSection(risk: Value, readers: Readers): seq<ConfigError> {
    if risk.Obj? then RiskErrors(risk.fields, RISK_RULES, readers) else [RiskNotObject]
  }

  /** The errors found when no check raises. */
  function ConfigErrors(data: Value, readers: Readers): seq<ConfigError> {
    match data
    case Obj(fields) =>
      WeightSection(Get(fields, "weights"), readers)
      + ThresholdErrors(Get(fields, "buy_threshold"), Get(fields, "sell_threshold"), readers)
      + RiskSection(Get(fields, "risk"), readers)
    case _ => [NotAnObject]
  }

  /** `_in_bounds` does not catch the OverflowError of an integer too large for a float. */
  predicate WeightTooLarge(weights: Value) {
    weights.Obj? && exists i :: 0 <= i < |WEIGHT_KEYS| && IsTooLarge(Get(weights.fields, Key(WEIGHT_KEYS[i])))
  }

  predicate RiskTooLarge(risk: Value) {
    risk.Obj? && exists i :: 0 <= i < |RISK_RULES| && IsTooLarge(Get(risk.fields, RISK_RULES[i].0))
  }

  /** One of the checked settings is an integer too large for a float. */
  predicate SettingTooLarge(data: Value) {
    data.Obj? && (
      || WeightTooLarge(Get(data.fields, "weights"))
      || IsTooLarge(Get(data.fields, "buy_threshold"))
      || IsTooLarge(Get(data.fields, "sell_threshold"))
      || RiskTooLarge(Get(data.fields, "risk")))
  }

  /** `validate_config_dict`; None where it raises. */
  function Validate(data: Value, readers: Readers): Option<seq<ConfigError>> {
    if SettingTooLarge(data) then None else Some(ConfigErrors(data, readers))
  }

  /** The validator as written: errors accumulate in one list, section by section, unless a check
      raises. */
  method ValidateConfigDict(data: Value, readers: Readers) returns (errors: Option<seq<ConfigError>>)
    ensures errors == Validate(data, readers)
  {
    if !data.Obj? {
      return Some([NotAnObject]);
    }
    errors := CheckWeightSection(Get(data.fields, "weights"), readers, []);
    if errors.None? {
      return;
    }
    errors := CheckThresholds(Get(data.fields, "buy_threshold"), Get(data.fields, "sell_threshold"), readers,
                              errors.value);
    if errors.None? {
      return;
    }
    var soFar := errors.value;
    assert soFar == WeightSection(Get(data.fields, "weights"), readers)
      + ThresholdErrors(Get(data.fields, "buy_threshold"), Get(data.fields, "sell_threshold"), readers);
    errors := CheckRiskSection(Get(data.fields, "risk"), readers, soFar);
  }

  method CheckWeightSection(weights: Value, readers: Readers,
                            before: seq<ConfigError>) returns (errors: Option<seq<ConfigError>>)
    ensures errors == if WeightTooLarge(weights) then None else Some(before + WeightSection(weights, readers))
  {
    if !weights.Obj? {
      errors := Some(before + [WeightsNotObject]);
    } else {
      errors := CheckWeights(weights.fields, readers, before);
    }
  }

  method CheckRiskSection(risk: Value, readers: Readers,
                          before: seq<ConfigError>) returns (errors: Option<seq<ConfigError>>)
    ensures errors == if RiskTooLarge(risk) then None else Some(before + RiskSection(risk, readers))
  {
    if !risk.Obj? {
      errors := Some(before + [RiskNotObject]);
    } else {
      errors := CheckRisk(risk.fields, readers, before);
    }
  }

  method CheckWeights(weights: map<string, Value>, readers: Readers, before: seq<ConfigError>)
    returns (errors: Option<seq<ConfigError>>)
    ensures errors == if WeightTooLarge(Obj(weights)) then None
      else Some(before + WeightErrors(weights, WEIGHT_KEYS, readers))
  {
    var found := before;
    for i := 0 to |WEIGHT_KEYS|
      invariant forall j :: 0 <= j < i ==> !IsTooLarge(Get(weights, Key(WEIGHT_KEYS[j])))
      invariant found == before + WeightErrors(weights, WEIGHT_KEYS[..i], readers)
    {
      assert WEIGHT_KEYS[..i + 1][..i] == WEIGHT_KEYS[..i];
      var key := Key(WEIGHT_KEYS[i]);
      if key !in weights {
        found := found + [WeightMissing(key)];
      } else if ToFloat(weights[key], readers).TooLarge? {
        return None;
      } else if !InBounds(weights[key], WEIGHT_BOUNDS, readers) {
        found := found + [WeightOutside(key)];
      }
    }
    assert WEIGHT_KEYS[..|WEIGHT_KEYS|] == WEIGHT_KEYS;
    errors := Some(found);
  }

  method CheckThresholds(buy: Value, sell: Value, readers: Readers, before: seq<ConfigError>)
    returns (errors: Option<seq<ConfigError>>)
    ensures errors == if IsTooLarge(buy) ||
      IsTooLarge(sell) then None else Some(before + ThresholdErrors(buy, sell, readers))
  {
    if ToFloat(buy, readers).TooLarge? || ToFloat(sell, readers).TooLarge? {
      return None;
    }
    var found := before;
    var buyOk, sellOk := InBounds(buy, BUY_THRESHOLD_BOUNDS, readers), InBounds(sell, SELL_THRESHOLD_BOUNDS, readers);
    if !buyOk {
      found := found + [BuyOutside];
    }
    if !sellOk {
      found := found + [SellOutside];
    }
    if buyOk && sellOk {
      if ToFloat(sell, readers).value >= ToFloat(buy, readers).value {
        found := found + [SellNotBelowBuy];
      }
    }
    assert found == before + ThresholdErrors(buy, sell, readers);
    errors := Some(found);
  }

  method CheckRisk(risk: map<string, Value>, readers: Readers, before: seq<ConfigError>)
    returns (errors: Option<seq<ConfigError>>)
    ensures errors == if RiskTooLarge(Obj(risk)) then None else Some(before + RiskErrors(risk, RISK_RULES, readers))
  {
    var found := before;
    for i := 0 to |RISK_RULES|
      invariant forall j :: 0 <= j < i ==> !IsTooLarge(Get(risk, RISK_RULES[j].0))
      invariant found == before + RiskErrors(risk, RISK_RULES[..i], readers)
    {
      assert RISK_RULES[..i + 1][..i] == RISK_RULES[..i];
      var (key, bounds) := RISK_RULES[i];
      if ToFloat(Get(risk, key), readers).TooLarge? {
        return None;
      }
      if !InBounds(Get(risk, key), bounds, readers) {
        found := found + [RiskOutside(key)];
      }
    }
    assert RISK_RULES[..|RISK_RULES|] == RISK_RULES;
    errors := Some(found);
  }

  // ---------------------------------------------------------------- what it all means

  predicate Within(x: real, bounds: Bounds) {
    bounds.lo <= x <= bounds.hi
  }

  /** The guardrails, read off the typed configuration. */
  ghost predicate Safe(c: CognitiveConfig) {
    && (forall s: Signal :: Within(c.weights.At(s), WEIGHT_BOUNDS))
    && Within(c.buyThreshold, BUY_THRESHOLD_BOUNDS)
    && Within(c.sellThreshold, SELL_THRESHOLD_BOUNDS)
    && c.sellThreshold < c.buyThreshold
    && Within(c.maxPositionSizePct, MAX_POSITION_SIZE_BOUNDS)
    && Within(c.maxDailyLossPct, MAX_DAILY_LOSS_BOUNDS)
    && Within(c.maxExposurePct, MAX_EXPOSURE_BOUNDS)
  }

  /** Writing a configuration out and reading it back loses nothing. */
  lemma DictRoundTrip(c: CognitiveConfig, readers: Readers)
    ensures FromDict(ToDict(c), readers) == Some(c)
  {
    assert Truncate(c.version as real) == c.version;
  }

  predicate WeightOk(weights: map<string, Value>, signal: Signal, readers: Readers) {
    Key(signal) in weights && InBounds(weights[Key(signal)], WEIGHT_BOUNDS, readers)
  }

  lemma {:induction false} NoWeightErrors(weights: map<string, Value>, keys: seq<Signal>, readers: Readers)
    ensures WeightErrors(weights, keys, readers) == [] <==>
      forall i :: 0 <= i < |keys| ==> WeightOk(weights, keys[i], readers)
  {
    if keys != [] {
      var n := |keys| - 1;
      NoWeightErrors(weights, keys[..n], readers);
      LastWeight(weights, keys, readers);
      assert forall i :: 0 <= i < n ==> keys[..n][i] == keys[i];
    }
  }

  lemma LastWeight(weights: map<string, Value>, keys: seq<Signal>, readers: Readers)
    requires keys != []
    ensures var n := |keys| - 1;
      WeightErrors(weights, keys, readers) == [] <==>
        WeightErrors(weights, keys[..n], readers) == [] && WeightOk(weights, keys[n], readers)
  {
  }

  lemma {:induction false} NoRiskErrors(risk: map<string, Value>, rules: seq<(string, Bounds)>, readers: Readers)
    ensures RiskErrors(risk, rules, readers) == [] <==>
      forall r :: r in rules ==> InBounds(Get(risk, r.0), r.1, readers)
  {
    if rules != [] {
      NoRiskErrors(risk, rules[..|rules| - 1], readers);
      assert rules == rules[..|rules| - 1] + [rules[|rules| - 1]];
    }
  }

  lemma WeightErrorsEmpty(weights: map<string, Value>, readers: Readers)
    ensures WeightErrors(weights, WEIGHT_KEYS, readers) == [] <==>
      forall s: Signal :: WeightOk(weights, s, readers)
  {
    NoWeightErrors(weights, WEIGHT_KEYS, readers);
    assert WEIGHT_KEYS[0] == News && WEIGHT_KEYS[1] == Tech && WEIGHT_KEYS[2] == Macro;
    forall s: Signal
      ensures s in WEIGHT_KEYS
    {
      assert WEIGHT_KEYS[if s.News? then 0 else if s.Tech? then 1 else 2] == s;
    }
  }

  lemma RiskErrorsEmpty(risk: map<string, Value>, readers: Readers)
    ensures RiskErrors(risk, RISK_RULES, readers) == [] <==>
      && InBounds(Get(risk, "max_position_size_pct"), MAX_POSITION_SIZE_BOUNDS, readers)
      && InBounds(Get(risk, "max_daily_loss_pct"), MAX_DAILY_LOSS_BOUNDS, readers)
      && InBounds(Get(risk, "max_exposure_pct"), MAX_EXPOSURE_BOUNDS, readers)
  {
    NoRiskErrors(risk, RISK_RULES, readers);
    var r0, r1, r2 := RISK_RULES[0], RISK_RULES[1], RISK_RULES[2];
    assert r0 in RISK_RULES && r1 in RISK_RULES && r2 in RISK_RULES;
  }

  // ---------------------------------------------------------------- what the errors say

  /** The number a setting stands for; a boolean stands for none. */
  function NumberIn(v: Value, readers: Readers): Option<real> {
    match v
    case Num(x) => Some(x)
    case Text(s) => (match readers.asFloat(s) case Some(x) => Some(x) case None => None)
    case _ => None
  }

  ghost predicate ReadsWithin(v: Value, lo: real, hi: real, readers: Readers) {
    NumberIn(v, readers).Some? && lo <= NumberIn(v, readers).value <= hi
  }

  /** What each error says of the object. */
  ghost predicate IsWrong(e: ConfigError, data: Value, readers: Readers) {
    match e
    case NotAnObject => !data.Obj?
    case WeightsNotObject => data.Obj? && !Get(data.fields, "weights").Obj?
    case WeightMissing(key) =>
      data.Obj? && Get(data.fields, "weights").Obj? && key in ["news", "tech", "macro"]
      && key !in Get(data.fields, "weights").fields
    case WeightOutside(key) =>
      data.Obj? && Get(data.fields, "weights").Obj? && key in ["news", "tech", "macro"]
      && key in Get(data.fields, "weights").fields
      && !ReadsWithin(Get(data.fields, "weights").fields[key], 0.0, 1.0, readers)
    case BuyOutside => data.Obj? && !ReadsWithin(Get(data.fields, "buy_threshold"), 0.0, 0.95, readers)
    case SellOutside => data.Obj? && !ReadsWithin(Get(data.fields, "sell_threshold"), -0.95, 0.0, readers)
    case SellNotBelowBuy =>
      && data.Obj? && ReadsWithin(Get(data.fields, "buy_threshold"), 0.0, 0.95, readers)
      && ReadsWithin(Get(data.fields, "sell_threshold"), -0.95, 0.0, readers)
      && NumberIn(Get(data.fields, "sell_threshold"), readers).value
           >= NumberIn(Get(data.fields, "buy_threshold"), readers).value
    case RiskNotObject => data.Obj? && !Get(data.fields, "risk").Obj?
    case RiskOutside(key) =>
      data.Obj? && Get(data.fields, "risk").Obj? && RiskWrong(key, Get(data.fields, "risk").fields, readers)
  }

  ghost predicate RiskWrong(key: string, risk: map<string, Value>, readers: Readers) {
    || (key == "max_position_size_pct" && !ReadsWithin(Get(risk, key), 0.001, 0.5, readers))
    || (key == "max_daily_loss_pct" && !ReadsWithin(Get(risk, key), 0.001, 0.25, readers))
    || (key == "max_exposure_pct" && !ReadsWithin(Get(risk, key), 0.01, 1.0, readers))
  }

  /** The validator names exactly what is wrong. */
  lemma ErrorsNameWhatIsWrong(data: Value, readers: Readers, e: ConfigError)
    requires Validate(data, readers).Some?
    ensures e in Validate(data, readers).value <==> IsWrong(e, data, readers)
  {
    if data.Obj? {
      var weights, risk := Get(data.fields, "weights"), Get(data.fields, "risk");
      SectionErrors(WeightSection(weights, readers),
                    ThresholdErrors(Get(data.fields, "buy_threshold"), Get(data.fields, "sell_threshold"), readers),
                    RiskSection(risk, readers), e);
      WeightSectionNames(weights, readers, e);
      RiskSectionNames(risk, readers, e);
      ThresholdsName(Get(data.fields, "buy_threshold"), Get(data.fields, "sell_threshold"), readers, e);
    }
  }

  lemma SectionErrors(a: seq<ConfigError>, b: seq<ConfigError>, c: seq<ConfigError>, e: ConfigError)
    ensures e in a + b + c <==> e in a || e in b || e in c
  {
  }

  lemma InBoundsIs(v: Value, bounds: Bounds, readers: Readers)
    requires -1_000.0 <= bounds.lo && bounds.hi <= 1_000.0
    ensures InBounds(v, bounds, readers) <==> ReadsWithin(v, bounds.lo, bounds.hi, readers)
  {
  }

  lemma WeightSectionNames(weights: Value, readers: Readers, e: ConfigError)
    ensures e in WeightSection(weights, readers) <==>
      match e
      case WeightsNotObject => !weights.Obj?
      case WeightMissing(key) => weights.Obj? && key in ["news", "tech", "macro"] && key !in weights.fields
      case WeightOutside(key) =>
        weights.Obj? && key in ["news", "tech", "macro"] && key in weights.fields
        && !ReadsWithin(weights.fields[key], 0.0, 1.0, readers)
      case _ => false
  {
    if weights.Obj? {
      WeightErrorsName(weights.fields, WEIGHT_KEYS, readers, e);
      assert forall key :: key in ["news", "tech", "macro"] <==> exists s :: s in WEIGHT_KEYS && Key(s) == key by {
        assert Key(WEIGHT_KEYS[0]) == "news" && Key(WEIGHT_KEYS[1]) == "tech" && Key(WEIGHT_KEYS[2]) == "macro";
      }
    }
  }

  lemma {:induction false} WeightErrorsName(weights: map<string, Value>, keys: seq<Signal>, readers: Readers,
                                            e: ConfigError)
    ensures e in WeightErrors(weights, keys, readers) <==>
      match e
      case WeightMissing(key) => (exists s :: s in keys && Key(s) == key) && key !in weights
      case WeightOutside(key) =>
        (exists s :: s in keys && Key(s) == key) && key in weights && !ReadsWithin(weights[key], 0.0, 1.0, readers)
      case _ => false
  {
    if keys != [] {
      var front, last := keys[..|keys| - 1], keys[|keys| - 1];
      WeightErrorsName(weights, front, readers, e);
      assert keys == front + [last];
      if Key(last) in weights {
        InBoundsIs(weights[Key(last)], WEIGHT_BOUNDS, readers);
      }
    }
  }

  lemma RiskSectionNames(risk: Value, readers: Readers, e: ConfigError)
    ensures e in RiskSection(risk, readers) <==>
      match e
      case RiskNotObject => !risk.Obj?
      case RiskOutside(key) => risk.Obj? && RiskWrong(key, risk.fields, readers)
      case _ => false
  {
    if risk.Obj? {
      RiskErrorsName(risk.fields, RISK_RULES, readers, e);
      if e.RiskOutside? {
        RulesAre(e.key, risk.fields, readers);
      }
    }
  }

  ghost predicate BreaksRule(key: string, risk: map<string, Value>, rules: seq<(string, Bounds)>, readers: Readers) {
    exists i :: 0 <= i < |rules| && rules[i].0 == key && !InBounds(Get(risk, key), rules[i].1, readers)
  }

  lemma RulesAre(key: string, risk: map<string, Value>, readers: Readers)
    ensures BreaksRule(key, risk, RISK_RULES, readers) <==> RiskWrong(key, risk, readers)
  {
    InBoundsIs(Get(risk, key), MAX_POSITION_SIZE_BOUNDS, readers);
    InBoundsIs(Get(risk, key), MAX_DAILY_LOSS_BOUNDS, readers);
    InBoundsIs(Get(risk, key), MAX_EXPOSURE_BOUNDS, readers);
    assert RISK_RULES[0] == ("max_position_size_pct", MAX_POSITION_SIZE_BOUNDS);
    assert RISK_RULES[1] == ("max_daily_loss_pct", MAX_DAILY_LOSS_BOUNDS);
    assert RISK_RULES[2] == ("max_exposure_pct", MAX_EXPOSURE_BOUNDS);
  }

  lemma {:induction false} RiskErrorsName(risk: map<string, Value>, rules: seq<(string, Bounds)>, readers: Readers,
                                          e: ConfigError)
    ensures e in RiskErrors(risk, rules, readers) <==> e.RiskOutside? && BreaksRule(e.key, risk, rules, readers)
  {
    if rules != [] {
      var n := |rules| - 1;
      RiskErrorsName(risk, rules[..n], readers, e);
      if e.RiskOutside? && BreaksRule(e.key, risk, rules, readers) {
        var i :| 0 <= i < |rules| && rules[i].0 == e.key && !InBounds(Get(risk, e.key), rules[i].1, readers);
        assert i < n ==> rules[..n][i] == rules[i];
      }
      if e.RiskOutside? && BreaksRule(e.key, risk, rules[..n], readers) {
        var i :| 0 <= i < n && rules[..n][i].0 == e.key && !InBounds(Get(risk, e.key), rules[..n][i].1, readers);
        assert rules[i] == rules[..n][i];
      }
    }
  }

  lemma ThresholdsName(buy: Value, sell: Value, readers: Readers, e: ConfigError)
    ensures e in ThresholdErrors(buy, sell, readers) <==>
      match e
      case BuyOutside => !ReadsWithin(buy, 0.0, 0.95, readers)
      case SellOutside => !ReadsWithin(sell, -0.95, 0.0, readers)
      case SellNotBelowBuy =>
        ReadsWithin(buy, 0.0, 0.95, readers) && ReadsWithin(sell, -0.95, 0.0, readers)
        && NumberIn(sell, readers).value >= NumberIn(buy, readers).value
      case _ => false
  {
    InBoundsIs(buy, BUY_THRESHOLD_BOUNDS, readers);
    InBoundsIs(sell, SELL_THRESHOLD_BOUNDS, readers);
  }

  /** The validator never raises on the written form of a configuration, and accepts it iff it is
      inside the guardrails. */
  lemma ValidIffSafe(c: CognitiveConfig, readers: Readers)
    ensures Validate(Obj(ToDict(c)), readers).Some?
    ensures Validate(Obj(ToDict(c)), readers) == Some([]) <==> Safe(c)
  {
    WrittenFits(c);
    var weights := WeightsDict(c.weights);
    WeightErrorsEmpty(weights, readers);
    RiskErrorsEmpty(RiskDict(c), readers);
    forall s: Signal
      ensures WeightOk(weights, s, readers) <==> Within(c.weights.At(s), WEIGHT_BOUNDS)
    {
      assert Key(s) in weights && weights[Key(s)] == Num(c.weights.At(s));
    }
  }

  lemma WrittenFits(c: CognitiveConfig)
    ensures !SettingTooLarge(Obj(ToDict(c)))
  {
    forall i | 0 <= i < |WEIGHT_KEYS| ensures !IsTooLarge(Get(WeightsDict(c.weights), Key(WEIGHT_KEYS[i]))) {
      assert Get(WeightsDict(c.weights), Key(WEIGHT_KEYS[i])) == Num(c.weights.At(WEIGHT_KEYS[i]));
    }
    RiskFits(c);
  }

  lemma RiskFits(c: CognitiveConfig)
    ensures !RiskTooLarge(Obj(RiskDict(c)))
  {
    var risk := RiskDict(c);
    assert risk["max_position_size_pct"] == Num(c.maxPositionSizePct);
    assert risk["max_daily_loss_pct"] == Num(c.maxDailyLossPct);
    assert risk["max_exposure_pct"] == Num(c.maxExposurePct);
  }

  /** For any decoded JSON object the validator accepts, `from_dict` yields a safe configuration,
      unless the unvalidated `version` field cannot be read as an integer. */
  lemma AcceptedLoads(fields: map<string, Value>, readers: Readers)
    requires Validate(Obj(fields), readers) == Some([])
    ensures FromDict(fields, readers).Some? <==>
      ("version" in fields ==> ToInt(fields["version"], readers).Some?)
    ensures FromDict(fields, readers).Some? ==> Safe(FromDict(fields, readers).value)
  {
    WeightErrorsEmpty(fields["weights"].fields, readers);
    RiskErrorsEmpty(fields["risk"].fields, readers);
    var weights := fields["weights"].fields;
    assert WeightOk(weights, News, readers) && WeightOk(weights, Tech, readers) && WeightOk(weights, Macro, readers);
  }

  /** What reading the file comes to.  `Undecodable`: text or numbers that make the reader raise
      something else than OSError or JSONDecodeError - bytes that are not UTF-8, an integer
      literal with too many digits, nesting too deep. */
  datatype File = Missing | Unreadable | NotJson | Undecodable | Decoded(data: Value)

  /** `load_config`; None: it raises. */
  function LoadConfig(file: File, readers: Readers): Option<CognitiveConfig> {
    match file
    case Undecodable => None
    case Decoded(data) =>
      (match Validate(data, readers)
       case None => None
       case Some(errors) => if errors != [] then Some(DEFAULT_CONFIG) else FromDict(data.fields, readers))
    case _ => Some(DEFAULT_CONFIG)
  }

  /** Loading always ends in a safe configuration, except that - despite the documented
      "never raises" - it raises on a file that cannot be decoded as text, on a checked setting
      that is an integer too large for a float, and on an otherwise valid file whose version does
      not read as an integer. */
  lemma LoadIsSafe(file: File, readers: Readers)
    ensures LoadConfig(file, readers).Some? ==> Safe(LoadConfig(file, readers).value)
    ensures LoadConfig(file, readers) == None <==>
      || file.Undecodable?
      || (file.Decoded? && SettingTooLarge(file.data))
      || (file.Decoded? && !SettingTooLarge(file.data) && ConfigErrors(file.data, readers) == []
          && "version" in file.data.fields && ToInt(file.data.fields["version"], readers) == None)
  {
    assert Safe(DEFAULT_CONFIG);
    if file.Decoded? && Validate(file.data, readers) == Some([]) {
      AcceptedLoads(file.data.fields, readers);
    }
  }

  function ClampWeight(value: real): (w: Float)
    ensures 0.0 <= w <= 1.0
  {
    var hiCapped := if WEIGHT_BOUNDS.hi <= value then WEIGHT_BOUNDS.hi else value;
    if WEIGHT_BOUNDS.lo >= hiCapped then WEIGHT_BOUNDS.lo else hiCapped
  }
}
