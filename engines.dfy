/**
 * The engine objects: each carries a mutable `loaded` flag that its `Load`
 * sets, and the factory picks one engine by its type name. Reading the model
 * files is replaced by the bundle they would yield, or None when reading fails.
 */
module Engines {
  import opened Wrappers
  import opened Quotes
  import Scoring
  import opened Policy

  /** The rule-based engine: nothing to read, loading always succeeds. */
  class RuleBasedEngine {
    var loaded: bool

    constructor ()
      ensures !loaded
    {
      loaded := false;
    }

    method Load()
      modifies this
      ensures loaded
    {
      loaded := true;
    }

    function View(): Scoring.Scorer
      reads this
    {
      Scoring.RuleBased(loaded)
    }
  }

  /** The model-based engine: its flag and the capacity detector it has loaded. */
  class ModelBasedEngine {
    var loaded: bool
    var detector: Option<Scoring.CapacityDetector>

    ghost predicate Valid()
      reads this
    {
      State().Valid()
    }

    function State(): Scoring.ModelState
      reads this
    {
      Scoring.ModelState(loaded, detector)
    }

    constructor ()
      ensures Valid() && !loaded && detector.None?
    {
      loaded := false;
      detector := None;
    }

    /**
     * Loads the detector from `bundle`; a missing or unreadable bundle (None)
     * raises, leaving the engine as it was.
     */
    method Load(bundle: Option<Scoring.CapacityDetector>) returns (raised: bool)
      requires Valid()
      modifies this
      ensures Valid()
      ensures raised <==> bundle.None?
      ensures raised ==> loaded == old(loaded) && detector == old(detector)
      ensures !raised ==> loaded && detector == bundle
    {
      if bundle.None? {
        return true;
      }
      detector := bundle;
      loaded := true;
      raised := false;
    }

    function View(): Scoring.Scorer
      reads this
    {
      Scoring.ModelBased(State())
    }
  }

  /** The hybrid engine: a model-based and a rule-based engine of its own. */
  class HybridEngine {
    var loaded: bool
    const model: ModelBasedEngine
    const rules: RuleBasedEngine

    ghost predicate Valid()
      reads this, model
    {
      model.Valid()
    }

    constructor ()
      ensures Valid() && fresh(model) && fresh(rules)
      ensures !loaded && !rules.loaded
      ensures model.State() == Scoring.ModelState(false, None)
    {
      model := new ModelBasedEngine();
      rules := new RuleBasedEngine();
      loaded := false;
    }

    /**
     * Tries the model first; whether or not that raises, the rule-based part
     * is loaded and the hybrid engine counts as loaded.
     */
    method Load(bundle: Option<Scoring.CapacityDetector>)
      requires Valid()
      modifies this, model, rules
      ensures Valid()
      ensures loaded && rules.loaded
      ensures model.State() == if bundle.Some? then Scoring.ModelState(true, bundle) else old(model.State())
    {
      // The two branches stand for the `try` path (the model load did not
      // raise) and the `except` path (it raised); both end the same way.
      var raised := model.Load(bundle);
      if !raised {
        rules.Load();
        loaded := true;
      } else {
        rules.Load();
        loaded := true;
      }
    }

    function View(): Scoring.Scorer
      reads this, model, rules
    {
      Scoring.Hybrid(model.State(), rules.loaded)
    }
  }

  datatype EngineKind = ModelBasedKind | RuleBasedKind | HybridKind

  datatype ConfigError = UnknownEngineType(engineType: string)

  /** The configuration name of each engine kind. */
  function EngineTypeName(k: EngineKind): string {
    match k
    case ModelBasedKind => "ml_based"
    case RuleBasedKind => "rule_based"
    case HybridKind => "hybrid"
  }

  /** Engine selection by name; any other name is a configuration error. */
  function ParseEngineType(engineType: string): (r: Result<EngineKind, ConfigError>)
    ensures r.Success? <==> exists k :: EngineTypeName(k) == engineType
    ensures r.Success? ==> EngineTypeName(r.value) == engineType
    ensures r.Failure? ==> r.error == UnknownEngineType(engineType)
  {
    if engineType == "ml_based" then
      assert EngineTypeName(ModelBasedKind) == engineType;
      Success(ModelBasedKind)
    else if engineType == "rule_based" then
      assert EngineTypeName(RuleBasedKind) == engineType;
      Success(RuleBasedKind)
    else if engineType == "hybrid" then
      assert EngineTypeName(HybridKind) == engineType;
      Success(HybridKind)
    else
      assert forall k :: EngineTypeName(k) != engineType;
      Failure(UnknownEngineType(engineType))
  }

  /** Selection and naming are inverse: every kind is selected by its own name. */
  lemma ParseNameRoundTrip(k: EngineKind)
    ensures ParseEngineType(EngineTypeName(k)) == Success(k)
  {
  }

  /**
   * The scoring state of a newly built engine: every flag down, no detector,
   * the inner engines of a hybrid included.
   */
  function InitialView(k: EngineKind): Scoring.Scorer {
    match k
    case ModelBasedKind => Scoring.ModelBased(Scoring.ModelState(false, None))
    case RuleBasedKind => Scoring.RuleBased(false)
    case HybridKind => Scoring.Hybrid(Scoring.ModelState(false, None), false)
  }

  /** The facade: owns exactly one engine, of the kind selected at construction. */
  class DecisionEngine {
    const kind: EngineKind
    const model: ModelBasedEngine?
    const rules: RuleBasedEngine?
    const hybrid: HybridEngine?

    /** The objects the selected engine consists of. */
    ghost function Repr(): set<object> {
      (if model != null then {model} else {}) +
      (if rules != null then {rules} else {}) +
      (if hybrid != null then {hybrid, hybrid.model, hybrid.rules} else {})
    }

    ghost predicate Valid()
      reads Repr()
    {
      match kind
      case ModelBasedKind => model != null && rules == null && hybrid == null && model.Valid()
      case RuleBasedKind => model == null && rules != null && hybrid == null
      case HybridKind => model == null && rules == null && hybrid != null && hybrid.Valid()
    }

    constructor (k: EngineKind)
      ensures Valid() && kind == k && fresh(Repr())
      ensures !IsLoaded()
      ensures View() == InitialView(k)
    {
      kind := k;
      match k
      case ModelBasedKind =>
        model := new ModelBasedEngine();
        rules := null;
        hybrid := null;
      case RuleBasedKind =>
        model := null;
        rules := new RuleBasedEngine();
        hybrid := null;
      case HybridKind =>
        model := null;
        rules := null;
        hybrid := new HybridEngine();
    }

    /** Builds the engine named by `engineType`, or reports it unknown. */
    static method Create(engineType: string) returns (r: Result<DecisionEngine, ConfigError>)
      ensures r.Failure? <==> ParseEngineType(engineType).Failure?
      ensures r.Failure? ==> r.error == UnknownEngineType(engineType)
      ensures r.Success? ==> && r.value.Valid() && fresh(r.value.Repr())
                             && EngineTypeName(r.value.kind) == engineType && !r.value.IsLoaded()
                             && r.value.View() == InitialView(r.value.kind)
    {
      var parsed := ParseEngineType(engineType);
      if parsed.Failure? {
        return Failure(parsed.error);
      }
      var e := new DecisionEngine(parsed.value);
      r := Success(e);
    }

    function IsLoaded(): (r: bool)
      requires Valid()
      reads Repr()
      ensures kind == RuleBasedKind ==> (r <==> View().ruleLoaded)
      ensures kind == ModelBasedKind ==> (r <==> View().model.loaded)
    {
      match kind
      case ModelBasedKind => model.loaded
      case RuleBasedKind => rules.loaded
      case HybridKind => hybrid.loaded
    }

    /** The scoring state of the selected engine. */
    function View(): (s: Scoring.Scorer)
      requires Valid()
      reads Repr()
      ensures s.Valid()
    {
      match kind
      case ModelBasedKind => model.View()
      case RuleBasedKind => rules.View()
      case HybridKind => hybrid.View()
    }

    /**
     * Loads the selected engine. Only a model-based engine can fail to load
     * (and then raises); a hybrid engine falls back to its rules.
     */
    method Load(bundle: Option<Scoring.CapacityDetector>) returns (raised: bool)
      requires Valid()
      modifies Repr()
      ensures Valid()
      ensures raised <==> kind == ModelBasedKind && bundle.None?
      ensures IsLoaded() == (!raised || old(IsLoaded()))
      ensures kind == RuleBasedKind ==> View() == Scoring.RuleBased(true)
      ensures kind == ModelBasedKind ==>
                View() == if raised then old(View()) else Scoring.ModelBased(Scoring.ModelState(true, bundle))
      ensures kind == HybridKind ==>
                View() == Scoring.Hybrid(if bundle.Some? then Scoring.ModelState(true, bundle)
                                         else old(View()).hybridModel, true)
    {
      match kind
      case ModelBasedKind =>
        raised := model.Load(bundle);
      case RuleBasedKind =>
        rules.Load();
        raised := false;
      case HybridKind =>
        hybrid.Load(bundle);
        raised := false;
    }

    /** The selected engine's risk assessment of a price. */
    function CalculateRiskScore(poolId: string, price: Option<real>, onDemand: real): (a: Scoring.Assessment)
      requires Valid()
      requires onDemand > 0.0 ==> price.Some?
      reads Repr()
      ensures Scoring.InUnitInterval(a.score)
    {
      Scoring.Score(View(), poolId, price, onDemand)
    }

    /** The selected engine's decision for one instance. */
    method MakeDecision(instance: Instance, pricing: Pricing, policy: PolicyConfig,
                        recentSwitches: int, hoursSinceLastSwitch: Option<real>)
      returns (r: Result<Decision, Fault>)
      requires Valid()
      ensures r == Decide(View(), instance, pricing, policy, recentSwitches, hoursSinceLastSwitch)
    {
      r := Policy.MakeDecision(View(), instance, pricing, policy, recentSwitches, hoursSinceLastSwitch);
    }
  }
}
