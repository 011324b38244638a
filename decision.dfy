/**
 * The decision logic shared by every engine: resolve the current pool and
 * price, apply the weekly switch-count gate and the minimum-time-in-pool gate,
 * score the risk, and choose between staying, switching to the cheapest pool
 * and falling back to on-demand capacity.
 *
 * `Decide` is the specification; `MakeDecision` is the step-by-step procedure
 * of `make_decision` in decision_engine.py, proved equal to it.
 */
module Policy {
  import opened Wrappers
  import opened Quotes
  import opened Scoring

  const SpotMode: string := "spot"
  const OnDemandMode: string := "ondemand"
  /** Default pool id when the instance record has none. */
  const UnknownPool: string := "unknown"
  /** Pool id reported for an on-demand fallback. */
  const NoPool: string := "n/a"

  /**
   * The instance record; absent keys take the defaults `'unknown'` (pool) and
   * `'spot'` (mode).
   */
  datatype Instance = Instance(instanceId: string, currentPoolId: Option<string>, currentMode: Option<string>) {
    function PoolId(): string { currentPoolId.GetOr(UnknownPool) }
    function Mode(): string { currentMode.GetOr(SpotMode) }
  }

  /** The per-agent policy supplied with each call. */
  datatype PolicyConfig = PolicyConfig(
    autoSwitchEnabled: bool,
    minSavingsPercent: real,
    riskThreshold: real,
    maxSwitchesPerWeek: int,
    minPoolDurationHours: real)

  datatype Action = Stay | SwitchPool | FallbackOnDemand {
    /** The action names the engine reports. */
    function Name(): string {
      match this
      case Stay => "stay"
      case SwitchPool => "switch_pool"
      case FallbackOnDemand => "fallback_ondemand"
    }
  }

  /** Why a decision was made: a gate, a branch of the action choice, or the scorer's own reason. */
  datatype DecisionReason =
    | SwitchLimitReached(count: int, limit: int)
    | TooSoonToSwitch(hoursSince: real, requiredHours: real)
    | HighRiskDetected(score: real)
    | SafeToReturnToSpot(poolId: string, savingsPercent: real)
    | BetterPoolAvailable(poolId: string, savingsPercent: real)
    | Scored(scoreReason: ScoreReason)

  datatype Decision = Decision(
    instanceId: string,
    riskScore: real,
    action: Action,
    mode: string,
    poolId: string,
    expectedSavings: real,
    allowed: bool,
    reason: DecisionReason)

  /** The exceptions the decision logic raises on degenerate input. */
  datatype Fault =
    | NoneOperand     // arithmetic on the missing current price (a TypeError)
    | EmptyPoolList   // min() of an empty list of quotes (a ValueError)
    | DivisionByZero  // a savings percent relative to a zero on-demand price

  /** Savings relative to the on-demand price, in percent. */
  function SavingsPercent(savings: real, onDemand: real): real
    requires onDemand != 0.0
  {
    savings / onDemand * 100.0
  }

  predicate FrequencyGated(policy: PolicyConfig, recentSwitches: int) {
    recentSwitches >= policy.maxSwitchesPerWeek
  }

  predicate CooldownGated(policy: PolicyConfig, hoursSinceLastSwitch: Option<real>) {
    hoursSinceLastSwitch.Some? && hoursSinceLastSwitch.value < policy.minPoolDurationHours
  }

  /** What a gate returns: stay where the instance is, not allowed, no risk, no savings. */
  function Blocked(instance: Instance, cur: Current, reason: DecisionReason): Decision {
    Decision(instance.instanceId, 0.0, Stay, instance.Mode(), cur.poolId, 0.0, false, reason)
  }

  /** The action choice, once the risk has been assessed. */
  function Choose(instance: Instance, pricing: Pricing, policy: PolicyConfig, cur: Current, a: Assessment)
    : Result<Decision, Fault>
    requires |pricing.spotPools| > 0 ==> cur.price.Some?
  {
    var pools, od, mode := pricing.spotPools, pricing.onDemandPrice, instance.Mode();
    var stay := Decision(instance.instanceId, a.score, Stay, mode, cur.poolId, 0.0,
                         policy.autoSwitchEnabled, Scored(a.reason));
    if (a.state == Event || a.state == HighRisk) && a.score >= policy.riskThreshold then
      if cur.price.None? then Failure(NoneOperand)
      else Success(Decision(instance.instanceId, a.score, FallbackOnDemand, OnDemandMode, NoPool,
                            -(od - cur.price.value), policy.autoSwitchEnabled, HighRiskDetected(a.score)))
    else if a.state == SafeToReturn && mode == OnDemandMode then
      if |pools| == 0 then Failure(EmptyPoolList)
      else
        var best := pools[CheapestIndex(pools)];
        if od == 0.0 then Failure(DivisionByZero)
        else
          var pct := SavingsPercent(od - best.price, od);
          if pct >= policy.minSavingsPercent then
            Success(Decision(instance.instanceId, a.score, SwitchPool, SpotMode, best.poolId,
                             od - best.price, policy.autoSwitchEnabled, SafeToReturnToSpot(best.poolId, pct)))
          else Success(stay)
    else if mode == SpotMode && a.state == Normal then
      if |pools| == 0 then Failure(EmptyPoolList)
      else
        var best := pools[CheapestIndex(pools)];
        if best.poolId != cur.poolId then
          var savings := cur.price.value - best.price;
          if od == 0.0 then Failure(DivisionByZero)
          else
            var pct := SavingsPercent(savings, od);
            if pct >= policy.minSavingsPercent then
              Success(Decision(instance.instanceId, a.score, SwitchPool, SpotMode, best.poolId,
                               savings, policy.autoSwitchEnabled, BetterPoolAvailable(best.poolId, pct)))
            else Success(stay)
        else Success(stay)
    else Success(stay)
  }

  /**
   * The decision for one instance. `hoursSinceLastSwitch` is None when the
   * instance has never switched.
   */
  function Decide(scorer: Scorer, instance: Instance, pricing: Pricing, policy: PolicyConfig,
                  recentSwitches: int, hoursSinceLastSwitch: Option<real>): Result<Decision, Fault>
    requires scorer.Valid()
  {
    var cur := ResolveCurrent(pricing.spotPools, instance.PoolId());
    if FrequencyGated(policy, recentSwitches) then
      Success(Blocked(instance, cur, SwitchLimitReached(recentSwitches, policy.maxSwitchesPerWeek)))
    else if CooldownGated(policy, hoursSinceLastSwitch) then
      Success(Blocked(instance, cur, TooSoonToSwitch(hoursSinceLastSwitch.value, policy.minPoolDurationHours)))
    else if pricing.onDemandPrice > 0.0 && cur.price.None? then
      Failure(NoneOperand)
    else
      Choose(instance, pricing, policy, cur,
             Score(scorer, cur.poolId, cur.price, pricing.onDemandPrice))
  }

  /** The scan for the recorded pool's quote, stopping at the first match. */
  method ScanForPrice(pools: seq<Quote>, poolId: string) returns (price: Option<real>)
    ensures price == FindPrice(pools, poolId)
  {
    price := None;
    var i := 0;
    while i < |pools|
      invariant 0 <= i <= |pools|
      invariant forall k :: 0 <= k < i ==> pools[k].poolId != poolId
    {
      if pools[i].poolId == poolId {
        FindPriceAt(pools, poolId, i);
        price := Some(pools[i].price);
        break;
      }
      i := i + 1;
    }
  }

  /** The action choice, by reassigning the recommendation step by step. */
  method ChooseAction(instance: Instance, pricing: Pricing, policy: PolicyConfig, cur: Current, a: Assessment)
    returns (r: Result<Decision, Fault>)
    requires |pricing.spotPools| > 0 ==> cur.price.Some?
    ensures r == Choose(instance, pricing, policy, cur, a)
  {
    var pools, od, currentMode := pricing.spotPools, pricing.onDemandPrice, instance.Mode();
    var action := Stay;
    var mode := currentMode;
    var poolId := cur.poolId;
    var savings := 0.0;
    var allowed := policy.autoSwitchEnabled;
    var reason := Scored(a.reason);

    if (a.state == Event || a.state == HighRisk) && a.score >= policy.riskThreshold {
      if cur.price.None? {
        return Failure(NoneOperand);
      }
      action := FallbackOnDemand;
      mode := OnDemandMode;
      poolId := NoPool;
      savings := -(od - cur.price.value);
      reason := HighRiskDetected(a.score);
    } else if a.state == SafeToReturn && currentMode == OnDemandMode {
      if |pools| == 0 {
        return Failure(EmptyPoolList);
      }
      var best := pools[CheapestIndex(pools)];
      if od == 0.0 {
        return Failure(DivisionByZero);
      }
      var pct := (od - best.price) / od * 100.0;
      if pct >= policy.minSavingsPercent {
        action := SwitchPool;
        mode := SpotMode;
        poolId := best.poolId;
        savings := od - best.price;
        reason := SafeToReturnToSpot(best.poolId, pct);
      }
    } else if currentMode == SpotMode && a.state == Normal {
      if |pools| == 0 {
        return Failure(EmptyPoolList);
      }
      var best := pools[CheapestIndex(pools)];
      if best.poolId != cur.poolId {
        var gain := cur.price.value - best.price;
        if od == 0.0 {
          return Failure(DivisionByZero);
        }
        var pct := gain / od * 100.0;
        if pct >= policy.minSavingsPercent {
          action := SwitchPool;
          mode := SpotMode;
          poolId := best.poolId;
          savings := gain;
          reason := BetterPoolAvailable(best.poolId, pct);
        }
      }
    }

    r := Success(Decision(instance.instanceId, a.score, action, mode, poolId, savings, allowed, reason));
  }

  /** `make_decision`: resolve the current pool, apply the two gates, score, choose. */
  method MakeDecision(scorer: Scorer, instance: Instance, pricing: Pricing, policy: PolicyConfig,
                      recentSwitches: int, hoursSinceLastSwitch: Option<real>)
    returns (r: Result<Decision, Fault>)
    requires scorer.Valid()
    ensures r == Decide(scorer, instance, pricing, policy, recentSwitches, hoursSinceLastSwitch)
  {
    var currentPoolId := instance.PoolId();
    var currentMode := instance.Mode();
    var pools := pricing.spotPools;

    var currentPrice := ScanForPrice(pools, currentPoolId);
    if (currentPrice.None? || currentPrice.value == 0.0) && |pools| > 0 {
      currentPrice := Some(pools[0].price);
      currentPoolId := pools[0].poolId;
    }
    var cur := Current(currentPrice, currentPoolId);
    var od := pricing.onDemandPrice;

    if recentSwitches >= policy.maxSwitchesPerWeek {
      return Success(Decision(instance.instanceId, 0.0, Stay, currentMode, currentPoolId, 0.0, false,
                              SwitchLimitReached(recentSwitches, policy.maxSwitchesPerWeek)));
    }
    if hoursSinceLastSwitch.Some? {
      var hoursSince := hoursSinceLastSwitch.value;
      if hoursSince < policy.minPoolDurationHours {
        return Success(Decision(instance.instanceId, 0.0, Stay, currentMode, currentPoolId, 0.0, false,
                                TooSoonToSwitch(hoursSince, policy.minPoolDurationHours)));
      }
    }

    if od > 0.0 && currentPrice.None? {
      return Failure(NoneOperand);
    }
    var a := Score(scorer, currentPoolId, currentPrice, od);
    r := ChooseAction(instance, pricing, policy, cur, a);
  }
}
