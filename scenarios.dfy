/** Concrete decisions, including the usage example at the end of decision_engine.py. */
module Scenarios {
  import opened Wrappers
  import opened Quotes
  import opened Scoring
  import opened Policy
  import Engines

  const PoolA: string := "ap-south-1a.c5.large"
  const PoolB: string := "ap-south-1b.c5.large"
  const PoolC: string := "ap-south-1c.c5.large"

  function DemoInstance(): Instance {
    Instance("i-test123", Some(PoolA), Some(SpotMode))
  }

  function DemoPricing(): Pricing {
    Pricing(0.085, [Quote(PoolA, 0.040), Quote(PoolB, 0.035), Quote(PoolC, 0.038)])
  }

  function DemoPolicy(): PolicyConfig {
    PolicyConfig(true, 5.0, 0.7, 10, 2.0)
  }

  /** A hybrid engine whose model failed to load: it scores by the rules. */
  function FallenBackHybrid(): Scorer {
    Hybrid(ModelState(false, None), true)
  }

  /**
   * The usage example: ratio 0.040/0.085 is normal, the cheapest pool B saves
   * 0.005 per hour, 100/17 (about 5.9) percent of on-demand, so the instance
   * switches to B.
   */
  lemma DemoSwitchesToCheapestPool()
    ensures Decide(FallenBackHybrid(), DemoInstance(), DemoPricing(), DemoPolicy(), 2, Some(3.0)) ==
            Success(Decision("i-test123", 0.35, SwitchPool, SpotMode, PoolB, 0.005, true,
                             BetterPoolAvailable(PoolB, 100.0 / 17.0)))
  {
    var pools := DemoPricing().spotPools;
    assert PoolA != PoolB by { assert PoolA[10] != PoolB[10]; }
    assert CheapestIndex(pools) == 1;
    assert FindPrice(pools, PoolA) == Some(0.040);
  }

  /** At a ratio of 0.9 the rules report high risk above the threshold: fall back to on-demand. */
  lemma HighRatioFallsBack()
    ensures Decide(FallenBackHybrid(), DemoInstance(), Pricing(0.085, [Quote(PoolA, 0.0765)]),
                   DemoPolicy(), 2, Some(3.0)) ==
            Success(Decision("i-test123", 0.85, FallbackOnDemand, OnDemandMode, NoPool, -0.0085, true,
                             HighRiskDetected(0.85)))
  {
    assert FindPrice([Quote(PoolA, 0.0765)], PoolA) == Some(0.0765);
  }

  /** At the weekly limit the instance stays, whatever the pricing. */
  lemma LimitReachedStays(pricing: Pricing)
    ensures Decide(FallenBackHybrid(), DemoInstance(), pricing, DemoPolicy(), 10, Some(3.0)).Success?
    ensures var d := Decide(FallenBackHybrid(), DemoInstance(), pricing, DemoPolicy(), 10, Some(3.0)).value;
      d.action == Stay && !d.allowed && d.riskScore == 0.0
  {
  }

  /** A loaded model with no context for the pool is neutral even at an extreme ratio. */
  lemma UnknownPoolIsNeutral()
    ensures var m := ModelState(true, Some(CapacityDetector(map[], AnomalyThresholds(0.3, 0.9, 0.4))));
      ModelScore(m, PoolA, Some(10.0), 0.085) == Assessment(0.5, Normal, PoolNotInTrainingData)
  {
  }

  /**
   * Through the facade: a hybrid engine whose model bundle cannot be read is
   * loaded, and scores by its rules with its model still unloaded.
   */
  method FailedLoadHybridScoresByRules() returns (s: Scorer)
    ensures s == Hybrid(ModelState(false, None), true)
    ensures Score(s, PoolA, Some(0.040), 0.085) == RuleScore(true, Some(0.040), 0.085)
  {
    var created := Engines.DecisionEngine.Create("hybrid");
    assert created.Success?;
    var e := created.value;
    var raised := e.Load(None);
    assert !raised && e.IsLoaded();
    s := e.View();
  }
}
