/**
 * The three risk scorers of the decision engine. Each maps the observed spot
 * price of a pool, relative to the on-demand price, to a risk score, a risk
 * state and a tag naming the rule that fired.
 */
module Scoring {
  import opened Wrappers

  /** The qualitative risk states, re-derived on every call. */
  datatype RiskState = Normal | HighRisk | Event | SafeToReturn {
    /** The name the engine reports for the state. */
    function Name(): string {
      match this
      case Normal => "normal"
      case HighRisk => "high-risk"
      case Event => "event"
      case SafeToReturn => "safe-to-return"
    }
  }

  /** Which rule or default produced an assessment, with the ratio it compared. */
  datatype ScoreReason =
    | ModelsNotLoaded
    | PoolNotInTrainingData
    | AboveAbsoluteHigh(ratio: real, threshold: real)
    | AboveP92(ratio: real, p92: real)
    | RatioSpike(ratio: real, p50: real)
    | BelowSafeReturn(ratio: real, threshold: real)
    | NormalConditions(ratio: real)
    | EngineNotLoaded
    | AtOrAboveHighPrice(ratio: real)
    | AtOrBelowSafePrice(ratio: real)
    | InNormalRange(ratio: real)

  /** The `(risk_score, state, reason)` triple every scorer returns. */
  datatype Assessment = Assessment(score: real, state: RiskState, reason: ScoreReason)

  ghost predicate InUnitInterval(x: real) {
    0.0 <= x <= 1.0
  }

  /**
   * Spot price as a fraction of the on-demand price; 1.0 when the on-demand
   * price is not positive. The spot price may be absent (no quotes at all),
   * but then it is never divided: callers reach a scorer without a price only
   * when the on-demand price is not positive.
   */
  function PriceRatio(price: Option<real>, onDemand: real): (r: real)
    requires onDemand > 0.0 ==> price.Some?
    ensures onDemand > 0.0 ==> r * onDemand == price.value
    ensures onDemand <= 0.0 ==> r == 1.0
  {
    if onDemand > 0.0 then price.value / onDemand else 1.0
  }

  // ---------------------------------------------------------------------------
  // A reference definition of "rules checked in order, first match wins"
  // ---------------------------------------------------------------------------

  datatype Rule = Rule(fires: bool, outcome: Assessment)

  /** The outcome of the first rule that fires, or `otherwise` if none does. */
  function FirstMatch(rules: seq<Rule>, otherwise: Assessment): Assessment {
    if |rules| == 0 then otherwise
    else if rules[0].fires then rules[0].outcome
    else FirstMatch(rules[1..], otherwise)
  }

  /** The rule at position `i` decides exactly when it fires and no earlier rule does. */
  lemma {:induction false} FirstMatchPicks(rules: seq<Rule>, otherwise: Assessment, i: int)
    requires 0 <= i < |rules| && rules[i].fires
    requires forall j :: 0 <= j < i ==> !rules[j].fires
    ensures FirstMatch(rules, otherwise) == rules[i].outcome
  {
    if i > 0 {
      assert rules[1..][i - 1] == rules[i];
      assert forall j :: 0 <= j < i - 1 ==> rules[1..][j] == rules[j + 1];
      FirstMatchPicks(rules[1..], otherwise, i - 1);
    }
  }

  /** When no rule fires, the default decides. */
  lemma {:induction false} FirstMatchDefault(rules: seq<Rule>, otherwise: Assessment)
    requires forall j :: 0 <= j < |rules| ==> !rules[j].fires
    ensures FirstMatch(rules, otherwise) == otherwise
  {
    if |rules| > 0 {
      assert forall j :: 0 <= j < |rules| - 1 ==> rules[1..][j] == rules[j + 1];
      FirstMatchDefault(rules[1..], otherwise);
    }
  }

  // ---------------------------------------------------------------------------
  // Rule-based scorer
  // ---------------------------------------------------------------------------

  const HighPriceThreshold: real := 0.85
  const SafePriceThreshold: real := 0.40
  /** Declared with the other two rule thresholds but never consulted by the scorer. */
  const SpikeThreshold: real := 0.30

  /** The rule-based scorer's two rules, in the order they are tried. */
  function RuleTable(ratio: real): seq<Rule> {
    [ Rule(ratio >= HighPriceThreshold, Assessment(0.85, HighRisk, AtOrAboveHighPrice(ratio))),
      Rule(ratio <= SafePriceThreshold, Assessment(0.15, SafeToReturn, AtOrBelowSafePrice(ratio))) ]
  }

  /** Scores a price with two fixed thresholds on the price ratio. */
  function RuleScore(loaded: bool, price: Option<real>, onDemand: real): (a: Assessment)
    requires onDemand > 0.0 ==> price.Some?
    ensures InUnitInterval(a.score)
    ensures !loaded ==> a == Assessment(0.5, Normal, EngineNotLoaded)
    ensures a.state != Event
  {
    if !loaded then Assessment(0.5, Normal, EngineNotLoaded)
    else
      var ratio := PriceRatio(price, onDemand);
      if ratio >= HighPriceThreshold then Assessment(0.85, HighRisk, AtOrAboveHighPrice(ratio))
      else if ratio <= SafePriceThreshold then Assessment(0.15, SafeToReturn, AtOrBelowSafePrice(ratio))
      else Assessment(0.35, Normal, InNormalRange(ratio))
  }

  /** The rule-based scorer is the first-match reading of its two-rule table. */
  lemma RuleScoreIsFirstMatch(price: Option<real>, onDemand: real)
    requires onDemand > 0.0 ==> price.Some?
    ensures var ratio := PriceRatio(price, onDemand);
      RuleScore(true, price, onDemand) == FirstMatch(RuleTable(ratio), Assessment(0.35, Normal, InNormalRange(ratio)))
  {
    var ratio := PriceRatio(price, onDemand);
    var rules, otherwise := RuleTable(ratio), Assessment(0.35, Normal, InNormalRange(ratio));
    if ratio >= HighPriceThreshold {
      FirstMatchPicks(rules, otherwise, 0);
    } else if ratio <= SafePriceThreshold {
      FirstMatchPicks(rules, otherwise, 1);
    } else {
      FirstMatchDefault(rules, otherwise);
    }
  }

  /** A loaded rule-based scorer's state, in terms of the ratio alone. */
  lemma RuleScoreStates(price: Option<real>, onDemand: real)
    requires onDemand > 0.0 ==> price.Some?
    ensures var ratio, a := PriceRatio(price, onDemand), RuleScore(true, price, onDemand);
      && (a.state == HighRisk <==> ratio >= HighPriceThreshold)
      && (a.state == SafeToReturn <==> ratio <= SafePriceThreshold)
      && (a.state == Normal <==> SafePriceThreshold < ratio < HighPriceThreshold)
  {
  }

  /** A higher price ratio never yields a lower rule-based risk score. */
  lemma RuleScoreMonotone(p1: Option<real>, p2: Option<real>, onDemand: real)
    requires onDemand > 0.0 ==> p1.Some? && p2.Some?
    requires PriceRatio(p1, onDemand) <= PriceRatio(p2, onDemand)
    ensures RuleScore(true, p1, onDemand).score <= RuleScore(true, p2, onDemand).score
  {
  }

  // ---------------------------------------------------------------------------
  // Model-based scorer
  // ---------------------------------------------------------------------------

  /** Per-pool percentile price ratios from the trained capacity detector. */
  datatype PoolStats = PoolStats(ratioP50: real, ratioP92: real)

  /** The detector's engine-wide anomaly thresholds. */
  datatype AnomalyThresholds = AnomalyThresholds(
    ratioSpikeThreshold: real,
    ratioAbsoluteHigh: real,
    ratioSafeReturn: real)

  /** The loaded capacity detector: its pool context map and its thresholds. */
  datatype CapacityDetector = CapacityDetector(
    poolContext: map<string, PoolStats>,
    config: AnomalyThresholds)

  /** The model-based engine's state: its `loaded` flag and its detector, if any. */
  datatype ModelState = ModelState(loaded: bool, detector: Option<CapacityDetector>) {
    /** A loaded engine always holds a detector. */
    ghost predicate Valid() {
      loaded ==> detector.Some?
    }
  }

  /** The anomaly rules, in priority order. */
  function AnomalyRules(ctx: PoolStats, cfg: AnomalyThresholds, ratio: real): seq<Rule> {
    [ Rule(ratio > cfg.ratioAbsoluteHigh,
           Assessment(0.9, Event, AboveAbsoluteHigh(ratio, cfg.ratioAbsoluteHigh))),
      Rule(ratio > ctx.ratioP92,
           Assessment(0.8, HighRisk, AboveP92(ratio, ctx.ratioP92))),
      Rule(ratio > ctx.ratioP50 * (1.0 + cfg.ratioSpikeThreshold),
           Assessment(0.6, HighRisk, RatioSpike(ratio, ctx.ratioP50))),
      Rule(ratio < cfg.ratioSafeReturn,
           Assessment(0.2, SafeToReturn, BelowSafeReturn(ratio, cfg.ratioSafeReturn))) ]
  }

  /** Applies the anomaly rules to a ratio for a pool that has a context entry. */
  function AnomalyScore(ctx: PoolStats, cfg: AnomalyThresholds, ratio: real): (a: Assessment)
    ensures InUnitInterval(a.score)
  {
    var spike := ratio > ctx.ratioP50 * (1.0 + cfg.ratioSpikeThreshold);
    var absoluteHigh := ratio > cfg.ratioAbsoluteHigh;
    var event := ratio > ctx.ratioP92;
    if absoluteHigh then Assessment(0.9, Event, AboveAbsoluteHigh(ratio, cfg.ratioAbsoluteHigh))
    else if event then Assessment(0.8, HighRisk, AboveP92(ratio, ctx.ratioP92))
    else if spike then Assessment(0.6, HighRisk, RatioSpike(ratio, ctx.ratioP50))
    else if ratio < cfg.ratioSafeReturn then
      Assessment(0.2, SafeToReturn, BelowSafeReturn(ratio, cfg.ratioSafeReturn))
    else Assessment(0.3, Normal, NormalConditions(ratio))
  }

  /** The model-based rules are checked in priority order and the first that fires decides. */
  lemma AnomalyScoreIsFirstMatch(ctx: PoolStats, cfg: AnomalyThresholds, ratio: real)
    ensures AnomalyScore(ctx, cfg, ratio) ==
            FirstMatch(AnomalyRules(ctx, cfg, ratio), Assessment(0.3, Normal, NormalConditions(ratio)))
  {
    var rules, otherwise := AnomalyRules(ctx, cfg, ratio), Assessment(0.3, Normal, NormalConditions(ratio));
    if rules[0].fires {
      FirstMatchPicks(rules, otherwise, 0);
    } else if rules[1].fires {
      FirstMatchPicks(rules, otherwise, 1);
    } else if rules[2].fires {
      FirstMatchPicks(rules, otherwise, 2);
    } else if rules[3].fires {
      FirstMatchPicks(rules, otherwise, 3);
    } else {
      FirstMatchDefault(rules, otherwise);
    }
  }

  /**
   * Rule priority: each anomaly rule decides exactly when its own test holds
   * and every higher-priority test fails.
   */
  lemma AnomalyPriority(ctx: PoolStats, cfg: AnomalyThresholds, ratio: real, i: int)
    requires 0 <= i < 4
    requires AnomalyRules(ctx, cfg, ratio)[i].fires
    requires forall j :: 0 <= j < i ==> !AnomalyRules(ctx, cfg, ratio)[j].fires
    ensures AnomalyScore(ctx, cfg, ratio) == AnomalyRules(ctx, cfg, ratio)[i].outcome
  {
    AnomalyScoreIsFirstMatch(ctx, cfg, ratio);
    FirstMatchPicks(AnomalyRules(ctx, cfg, ratio), Assessment(0.3, Normal, NormalConditions(ratio)), i);
  }

  /** A higher price ratio never yields a lower model-based risk score, whatever the thresholds. */
  lemma AnomalyScoreMonotone(ctx: PoolStats, cfg: AnomalyThresholds, r1: real, r2: real)
    requires r1 <= r2
    ensures AnomalyScore(ctx, cfg, r1).score <= AnomalyScore(ctx, cfg, r2).score
  {
  }

  /**
   * Scores a price with the trained detector; neutral for an unloaded engine
   * and for a pool the detector has no context for.
   */
  function ModelScore(m: ModelState, poolId: string, price: Option<real>, onDemand: real): (a: Assessment)
    requires m.Valid()
    requires onDemand > 0.0 ==> price.Some?
    ensures InUnitInterval(a.score)
    ensures !m.loaded ==> a == Assessment(0.5, Normal, ModelsNotLoaded)
    ensures m.loaded && poolId !in m.detector.value.poolContext ==>
              a == Assessment(0.5, Normal, PoolNotInTrainingData)
    ensures m.loaded && poolId in m.detector.value.poolContext ==>
              a == AnomalyScore(m.detector.value.poolContext[poolId], m.detector.value.config,
                                PriceRatio(price, onDemand))
  {
    if !m.loaded then Assessment(0.5, Normal, ModelsNotLoaded)
    else
      var detector := m.detector.value;
      if poolId !in detector.poolContext then Assessment(0.5, Normal, PoolNotInTrainingData)
      else AnomalyScore(detector.poolContext[poolId], detector.config, PriceRatio(price, onDemand))
  }

  /** The neutral default does not depend on the price at all. */
  lemma ModelNeutralForUnknownPool(m: ModelState, poolId: string, p1: Option<real>, p2: Option<real>, onDemand: real)
    requires m.Valid() && (onDemand > 0.0 ==> p1.Some? && p2.Some?)
    requires !m.loaded || poolId !in m.detector.value.poolContext
    ensures ModelScore(m, poolId, p1, onDemand) == ModelScore(m, poolId, p2, onDemand)
    ensures ModelScore(m, poolId, p1, onDemand).score == 0.5
    ensures ModelScore(m, poolId, p1, onDemand).state == Normal
  {
  }

  // ---------------------------------------------------------------------------
  // The scorer of an engine, as the decision logic sees it
  // ---------------------------------------------------------------------------

  /**
   * What `self.calculate_risk_score` depends on, per engine kind: the
   * rule-based engine's flag, the model-based engine's state, or both parts of
   * a hybrid engine.
   */
  datatype Scorer =
    | RuleBased(ruleLoaded: bool)
    | ModelBased(model: ModelState)
    | Hybrid(hybridModel: ModelState, hybridRuleLoaded: bool)
  {
    ghost predicate Valid() {
      match this
      case RuleBased(_) => true
      case ModelBased(m) => m.Valid()
      case Hybrid(m, _) => m.Valid()
    }
  }

  /** The risk assessment of the given engine; a hybrid engine uses its model when loaded. */
  function Score(s: Scorer, poolId: string, price: Option<real>, onDemand: real): (a: Assessment)
    requires s.Valid()
    requires onDemand > 0.0 ==> price.Some?
    ensures InUnitInterval(a.score)
  {
    match s
    case RuleBased(loaded) => RuleScore(loaded, price, onDemand)
    case ModelBased(m) => ModelScore(m, poolId, price, onDemand)
    case Hybrid(m, ruleLoaded) =>
      if m.loaded then ModelScore(m, poolId, price, onDemand)
      else RuleScore(ruleLoaded, price, onDemand)
  }

  /** A hybrid engine scores exactly as its model-based part when that is loaded, else as its rule-based part. */
  lemma HybridDelegates(m: ModelState, ruleLoaded: bool, poolId: string, price: Option<real>, onDemand: real)
    requires m.Valid() && (onDemand > 0.0 ==> price.Some?)
    ensures m.loaded ==> Score(Hybrid(m, ruleLoaded), poolId, price, onDemand) == Score(ModelBased(m), poolId, price, onDemand)
    ensures !m.loaded ==> Score(Hybrid(m, ruleLoaded), poolId, price, onDemand) == Score(RuleBased(ruleLoaded), poolId, price, onDemand)
  {
  }
}
