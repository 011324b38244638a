/** What the decision logic promises, stated over `Decide` for all inputs. */
module DecisionProperties {
  import opened Wrappers
  import opened Quotes
  import opened Scoring
  import opened Policy

  /** The resolved current pool and price of an instance. */
  function Resolved(instance: Instance, pricing: Pricing): Current {
    ResolveCurrent(pricing.spotPools, instance.PoolId())
  }

  /** The assessment the scorer is asked for once both gates have passed. */
  function Assessed(scorer: Scorer, instance: Instance, pricing: Pricing): Assessment
    requires scorer.Valid()
    requires pricing.onDemandPrice > 0.0 ==> Resolved(instance, pricing).price.Some?
  {
    var cur := Resolved(instance, pricing);
    Score(scorer, cur.poolId, cur.price, pricing.onDemandPrice)
  }

  predicate Gated(policy: PolicyConfig, recentSwitches: int, hours: Option<real>) {
    FrequencyGated(policy, recentSwitches) || CooldownGated(policy, hours)
  }

  /**
   * Frequency gate: at or over the weekly limit the instance stays where it is
   * (resolved pool, recorded mode), not allowed, with zero risk and savings,
   * whatever the pricing and the scorer.
   */
  lemma FrequencyGate(scorer: Scorer, instance: Instance, pricing: Pricing, policy: PolicyConfig,
                      recentSwitches: int, hours: Option<real>)
    requires scorer.Valid()
    requires recentSwitches >= policy.maxSwitchesPerWeek
    ensures Decide(scorer, instance, pricing, policy, recentSwitches, hours) ==
            Success(Decision(instance.instanceId, 0.0, Stay, instance.Mode(), Resolved(instance, pricing).poolId,
                             0.0, false, SwitchLimitReached(recentSwitches, policy.maxSwitchesPerWeek)))
  {
  }

  /** Cooldown gate: too soon after the last switch, and under the weekly limit, the instance stays. */
  lemma CooldownGate(scorer: Scorer, instance: Instance, pricing: Pricing, policy: PolicyConfig,
                     recentSwitches: int, hours: real)
    requires scorer.Valid()
    requires recentSwitches < policy.maxSwitchesPerWeek
    requires hours < policy.minPoolDurationHours
    ensures Decide(scorer, instance, pricing, policy, recentSwitches, Some(hours)) ==
            Success(Decision(instance.instanceId, 0.0, Stay, instance.Mode(), Resolved(instance, pricing).poolId,
                             0.0, false, TooSoonToSwitch(hours, policy.minPoolDurationHours)))
  {
  }

  /** The scorer is never consulted by a gated decision. */
  lemma GatesIgnoreScorer(s1: Scorer, s2: Scorer, instance: Instance, pricing: Pricing, policy: PolicyConfig,
                          recentSwitches: int, hours: Option<real>)
    requires s1.Valid() && s2.Valid()
    requires Gated(policy, recentSwitches, hours)
    ensures Decide(s1, instance, pricing, policy, recentSwitches, hours) ==
            Decide(s2, instance, pricing, policy, recentSwitches, hours)
  {
  }

  /** Every reported risk score lies in [0, 1]. */
  lemma RiskScoreInUnitInterval(scorer: Scorer, instance: Instance, pricing: Pricing, policy: PolicyConfig,
                                recentSwitches: int, hours: Option<real>)
    requires scorer.Valid()
    requires Decide(scorer, instance, pricing, policy, recentSwitches, hours).Success?
    ensures InUnitInterval(Decide(scorer, instance, pricing, policy, recentSwitches, hours).value.riskScore)
  {
  }

  /**
   * `allowed` is false exactly on a gated decision; otherwise it is the
   * policy's auto-switch flag, whatever action was chosen.
   */
  lemma AllowedFollowsPolicy(scorer: Scorer, instance: Instance, pricing: Pricing, policy: PolicyConfig,
                             recentSwitches: int, hours: Option<real>)
    requires scorer.Valid()
    requires Decide(scorer, instance, pricing, policy, recentSwitches, hours).Success?
    ensures Decide(scorer, instance, pricing, policy, recentSwitches, hours).value.allowed ==
            (policy.autoSwitchEnabled && !Gated(policy, recentSwitches, hours))
  {
  }

  /**
   * Fallback: past the gates, a high-risk or event state scoring at least the
   * risk threshold sends the instance to on-demand, reporting the extra cost as
   * negative savings (and fails only when there is no current price to subtract).
   */
  lemma FallbackOnHighRisk(scorer: Scorer, instance: Instance, pricing: Pricing, policy: PolicyConfig,
                           recentSwitches: int, hours: Option<real>)
    requires scorer.Valid()
    requires !Gated(policy, recentSwitches, hours)
    requires pricing.onDemandPrice > 0.0 ==> Resolved(instance, pricing).price.Some?
    requires Assessed(scorer, instance, pricing).state in {Event, HighRisk}
    requires Assessed(scorer, instance, pricing).score >= policy.riskThreshold
    ensures var cur, a := Resolved(instance, pricing), Assessed(scorer, instance, pricing);
      Decide(scorer, instance, pricing, policy, recentSwitches, hours) ==
        if cur.price.None? then Failure(NoneOperand)
        else Success(Decision(instance.instanceId, a.score, FallbackOnDemand, OnDemandMode, NoPool,
                              -(pricing.onDemandPrice - cur.price.value), policy.autoSwitchEnabled,
                              HighRiskDetected(a.score)))
  {
  }

  /** A fallback happens only past the gates, on a high-risk or event state at or over the threshold. */
  lemma FallbackOnlyOnHighRisk(scorer: Scorer, instance: Instance, pricing: Pricing, policy: PolicyConfig,
                               recentSwitches: int, hours: Option<real>)
    requires scorer.Valid()
    requires Decide(scorer, instance, pricing, policy, recentSwitches, hours).Success?
    requires Decide(scorer, instance, pricing, policy, recentSwitches, hours).value.action == FallbackOnDemand
    ensures !Gated(policy, recentSwitches, hours)
    ensures Resolved(instance, pricing).price.Some?
    ensures var a, d := Assessed(scorer, instance, pricing), Decide(scorer, instance, pricing, policy, recentSwitches, hours).value;
      && a.state in {Event, HighRisk} && a.score >= policy.riskThreshold
      && d.mode == OnDemandMode && d.poolId == NoPool
      && d.expectedSavings == -(pricing.onDemandPrice - Resolved(instance, pricing).price.value)
  {
  }

  /**
   * A pool switch goes to the first cheapest quote, in spot mode, only when
   * the savings percent reaches the policy minimum. From spot it leaves a
   * normal-state pool for a different one and saves current minus best; from
   * on-demand it follows a safe-to-return state and saves on-demand minus best.
   */
  lemma SwitchGoesToCheapest(scorer: Scorer, instance: Instance, pricing: Pricing, policy: PolicyConfig,
                             recentSwitches: int, hours: Option<real>)
    requires scorer.Valid()
    requires Decide(scorer, instance, pricing, policy, recentSwitches, hours).Success?
    requires Decide(scorer, instance, pricing, policy, recentSwitches, hours).value.action == SwitchPool
    ensures !Gated(policy, recentSwitches, hours)
    ensures |pricing.spotPools| > 0 && pricing.onDemandPrice != 0.0
    ensures var pools, d := pricing.spotPools, Decide(scorer, instance, pricing, policy, recentSwitches, hours).value;
      var best, cur, a := pools[CheapestIndex(pools)], Resolved(instance, pricing), Assessed(scorer, instance, pricing);
      && d.poolId == best.poolId
      && d.mode == SpotMode
      && (forall j :: 0 <= j < |pools| ==> best.price <= pools[j].price)
      && (forall j :: 0 <= j < CheapestIndex(pools) ==> pools[j].price > best.price)
      && SavingsPercent(d.expectedSavings, pricing.onDemandPrice) >= policy.minSavingsPercent
      && (instance.Mode() == SpotMode ==>
            a.state == Normal && best.poolId != cur.poolId && d.expectedSavings == cur.price.value - best.price)
      && (instance.Mode() == OnDemandMode ==>
            a.state == SafeToReturn && d.expectedSavings == pricing.onDemandPrice - best.price)
  {
  }

  /** Staying keeps the recorded mode and the resolved pool, with no savings. */
  lemma StayChangesNothing(scorer: Scorer, instance: Instance, pricing: Pricing, policy: PolicyConfig,
                           recentSwitches: int, hours: Option<real>)
    requires scorer.Valid()
    requires Decide(scorer, instance, pricing, policy, recentSwitches, hours).Success?
    requires Decide(scorer, instance, pricing, policy, recentSwitches, hours).value.action == Stay
    ensures var d := Decide(scorer, instance, pricing, policy, recentSwitches, hours).value;
      d.mode == instance.Mode() && d.poolId == Resolved(instance, pricing).poolId && d.expectedSavings == 0.0
  {
  }

  /** A decision on the spot/normal branch never targets the pool the instance is already in. */
  lemma NoSwitchToSamePool(scorer: Scorer, instance: Instance, pricing: Pricing, policy: PolicyConfig,
                           recentSwitches: int, hours: Option<real>)
    requires scorer.Valid()
    requires instance.Mode() == SpotMode
    requires Decide(scorer, instance, pricing, policy, recentSwitches, hours).Success?
    ensures var d := Decide(scorer, instance, pricing, policy, recentSwitches, hours).value;
      d.action == SwitchPool ==> d.poolId != Resolved(instance, pricing).poolId
  {
  }

  /**
   * With at least one quote and a positive on-demand price the decision never
   * fails; every failure comes from an empty quote list or a zero on-demand price.
   */
  lemma FailureCauses(scorer: Scorer, instance: Instance, pricing: Pricing, policy: PolicyConfig,
                      recentSwitches: int, hours: Option<real>)
    requires scorer.Valid()
    ensures var r := Decide(scorer, instance, pricing, policy, recentSwitches, hours);
      && (r == Failure(NoneOperand) ==> |pricing.spotPools| == 0)
      && (r == Failure(EmptyPoolList) ==> |pricing.spotPools| == 0)
      && (r == Failure(DivisionByZero) ==> pricing.onDemandPrice == 0.0)
      && (|pricing.spotPools| > 0 && pricing.onDemandPrice > 0.0 ==> r.Success?)
  {
  }

  /**
   * An empty quote list does fail, past the gates, for a spot instance in a
   * normal state when the on-demand price is not positive: `min` of an empty
   * list. With a positive on-demand price the call fails earlier, on the
   * missing current price.
   */
  lemma EmptyPoolsFailOnNormalSpot(scorer: Scorer, instance: Instance, pricing: Pricing, policy: PolicyConfig,
                                   recentSwitches: int, hours: Option<real>)
    requires scorer.Valid()
    requires !Gated(policy, recentSwitches, hours)
    requires |pricing.spotPools| == 0 && pricing.onDemandPrice <= 0.0
    requires instance.Mode() == SpotMode
    requires Assessed(scorer, instance, pricing).state == Normal
    ensures Decide(scorer, instance, pricing, policy, recentSwitches, hours) == Failure(EmptyPoolList)
  {
  }

  /**
   * Sufficiency on the spot branch: past the gates, a spot instance in a
   * normal state whose cheapest quote is another pool, saving at least the
   * minimum percent, is switched to that quote.
   */
  lemma SpotSwitchWhenSavingsSuffice(scorer: Scorer, instance: Instance, pricing: Pricing, policy: PolicyConfig,
                                     recentSwitches: int, hours: Option<real>)
    requires scorer.Valid()
    requires !Gated(policy, recentSwitches, hours)
    requires |pricing.spotPools| > 0 && pricing.onDemandPrice != 0.0
    requires instance.Mode() == SpotMode
    requires Assessed(scorer, instance, pricing).state == Normal
    requires pricing.spotPools[CheapestIndex(pricing.spotPools)].poolId != Resolved(instance, pricing).poolId
    requires SavingsPercent(Resolved(instance, pricing).price.value - pricing.spotPools[CheapestIndex(pricing.spotPools)].price,
                            pricing.onDemandPrice) >= policy.minSavingsPercent
    ensures var best, cur := pricing.spotPools[CheapestIndex(pricing.spotPools)], Resolved(instance, pricing);
      Decide(scorer, instance, pricing, policy, recentSwitches, hours) ==
        Success(Decision(instance.instanceId, Assessed(scorer, instance, pricing).score, SwitchPool, SpotMode,
                         best.poolId, cur.price.value - best.price, policy.autoSwitchEnabled,
                         BetterPoolAvailable(best.poolId,
                                             SavingsPercent(cur.price.value - best.price, pricing.onDemandPrice))))
  {
  }

  /**
   * Sufficiency on the return branch: past the gates, an on-demand instance in
   * a safe-to-return state whose cheapest quote saves at least the minimum
   * percent of the on-demand price is switched back to spot on that quote.
   */
  lemma ReturnToSpotWhenSavingsSuffice(scorer: Scorer, instance: Instance, pricing: Pricing, policy: PolicyConfig,
                                       recentSwitches: int, hours: Option<real>)
    requires scorer.Valid()
    requires !Gated(policy, recentSwitches, hours)
    requires |pricing.spotPools| > 0 && pricing.onDemandPrice != 0.0
    requires instance.Mode() == OnDemandMode
    requires Assessed(scorer, instance, pricing).state == SafeToReturn
    requires SavingsPercent(pricing.onDemandPrice - pricing.spotPools[CheapestIndex(pricing.spotPools)].price,
                            pricing.onDemandPrice) >= policy.minSavingsPercent
    ensures var best := pricing.spotPools[CheapestIndex(pricing.spotPools)];
      Decide(scorer, instance, pricing, policy, recentSwitches, hours) ==
        Success(Decision(instance.instanceId, Assessed(scorer, instance, pricing).score, SwitchPool, SpotMode,
                         best.poolId, pricing.onDemandPrice - best.price, policy.autoSwitchEnabled,
                         SafeToReturnToSpot(best.poolId,
                                            SavingsPercent(pricing.onDemandPrice - best.price, pricing.onDemandPrice))))
  {
  }

  /**
   * Past the gates, no quotes and a positive on-demand price fail on the
   * missing current price (the discount computed before scoring).
   */
  lemma NoQuotesFailBeforeScoring(scorer: Scorer, instance: Instance, pricing: Pricing, policy: PolicyConfig,
                                  recentSwitches: int, hours: Option<real>)
    requires scorer.Valid()
    requires !Gated(policy, recentSwitches, hours)
    requires |pricing.spotPools| == 0 && pricing.onDemandPrice > 0.0
    ensures Decide(scorer, instance, pricing, policy, recentSwitches, hours) == Failure(NoneOperand)
  {
  }
}
