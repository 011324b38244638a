# Spot-instance switching decision engine, in Dafny

This project models the decision engine of a spot-instance optimizer. The
engine looks at a managed instance's current pricing tier ("spot" or
"ondemand"), an on-demand price and an ordered list of spot-pool quotes, and a
per-agent policy. It then recommends one of three actions: stay, `switch_pool`
to the cheapest pool, or `fallback_ondemand`. The risk score behind that choice
comes from one of three pluggable scorers: rule-based, model-based (trained
per-pool percentile ratios) or hybrid.

Prices are exact `real`s. The exceptions `make_decision` raises become a
`Result` `Failure` with one of three `Fault`s:

- `NoneOperand`: arithmetic on a missing current price.
- `EmptyPoolList`: `min` of an empty quote list.
- `DivisionByZero`: a savings percent against a zero on-demand price.

The other two exceptions are modelled differently:

- The factory's `ValueError` for an unknown engine type becomes the `Failure` value `ConfigError.UnknownEngineType`.
- A model-based load that re-raises its failure returns `raised == true`.

Layout:

- `wrappers.dfy`: `Option` and `Result`.
- `quotes.dfy` (module `Quotes`), the pricing snapshot:
  - the first-match price lookup (`FindPrice`);
  - the first-cheapest selection that Python's `min(..., key=price)` performs (`CheapestIndex`);
  - current-pool resolution, including the substitution of the first quote when the recorded pool has no quote or a zero price (`ResolveCurrent`).
- `scoring.dfy` (module `Scoring`):
  - the rule-based scorer (`RuleScore`) and the model-based scorer (`ModelScore`, `AnomalyScore`);
  - a reference "first rule that fires wins" combinator (`FirstMatch`). A loaded rule-based scorer (`RuleScore(true, …)`) and the anomaly rules applied to a pool with context (`AnomalyScore`) are proved equal to it. The neutral paths (an unloaded scorer, a pool without context) are stated directly in `RuleScore` and `ModelScore`;
  - `Scorer`, a value giving what an engine's `calculate_risk_score` depends on, and `Score`, which dispatches on it (a hybrid engine uses its model when that is loaded).
- `decision.dfy` (module `Policy`), `make_decision`:
  - `Decide` is the specification. It has no contract of its own: it is a definition, with the action choice factored out as `Choose` and the `instance.get` defaults as `Instance.PoolId` and `Instance.Mode`. Every `DecisionProperties` lemma is stated over `Decide`, and `MakeDecision` is proved equal to it;
  - `MakeDecision` (with `ScanForPrice` and `ChooseAction`) is the step-by-step procedure of the source, with its breaking scan and its reassigned recommendation, proved equal to `Decide`.
- `decision_properties.dfy`: the decision logic's promises as lemmas over `Decide`. These cover both gates, the fallback, switch-target selection, staying, `allowed`, score bounds, and when a decision can fail.
- `engines.dfy` (module `Engines`), the engine objects:
  - each engine class has a mutable `loaded` flag and a `Load` method;
  - a failed model load leaves a hybrid engine loaded on its rules;
  - the factory `DecisionEngine.Create` selects an engine by the names `ml_based`, `rule_based` and `hybrid`, and returns a configuration error for any other name.
- `scenarios.dfy`: concrete decisions. These include the inputs of the source's usage example, scored by a hybrid engine whose model bundle failed to load, so that it scores by its rules. The source's example loads from a model directory and may score with the model instead; with the rules, the result is a switch from pool `ap-south-1a.c5.large` to `ap-south-1b.c5.large`, saving 0.005 per hour, which is 100/17 (about 5.9) percent of on-demand. A client method builds such a hybrid through the factory and proves that a failed load leaves it scoring by its rules.

Inputs supplied by the caller:

- Hours since the last switch, passed as `Option<real>` (None when the instance never switched), in place of a clock read.
- The model bundle, passed to `Load` as `Option<CapacityDetector>` (None when reading it fails), in place of file reads.

Points worth knowing about the code's behaviour:

- The current pool is resolved *before* the two gates, so a gated decision reports the resolved pool.
- The model-based engine's type name is `ml_based`.
- The decision can raise on degenerate pricing, but only past the two gates; a gated call always succeeds.
  - An empty quote list raises when the on-demand price is positive (decision_engine.py:124), on the fallback (:141), or on a switching branch (:146, :158). Otherwise it ends in a plain stay.
  - A zero on-demand price raises only on a switching branch (:147, :161).
  - With at least one quote and a positive on-demand price the decision never raises (`DecisionProperties.FailureCauses`).
- A hybrid engine delegates on the model engine's own `loaded` flag, checked on every call.

`Decide` is deterministic, so repeating a call with the same arguments gives the same decision.

## Model

| member | source | states |
|---|---|---|
| `Scoring.PriceRatio` | decision_engine.py:240 | with a positive on-demand price the ratio times on-demand is the spot price; otherwise the ratio is 1.0 |
| `Quotes.FindPrice` | decision_engine.py:83-87 | no price is found exactly when no quote carries the recorded pool id |
| `Quotes.FindPriceAt` | decision_engine.py:84-87 | the price found is that of the first quote for the pool |
| `Quotes.FindPriceFirst` | decision_engine.py:84-87 | every price found belongs to the first quote for the pool |
| `Quotes.CheapestIndex` | decision_engine.py:146 | the selected quote is no dearer than any quote and strictly cheaper than every earlier one (first minimum) |
| `Quotes.ResolveCurrent` | decision_engine.py:89-91 | a current price is resolved exactly when the quote list is non-empty; with no quotes the recorded pool is kept |
| `Quotes.ResolveKeepsMatch` | decision_engine.py:84-91 | a matched non-zero price is kept with the recorded pool |
| `Quotes.ResolveSubstitutes` | decision_engine.py:89-91 | a missing quote or a matched zero price is replaced by the first quote, pool id included |
| `Quotes.ResolvedIsQuote` | decision_engine.py:84-91 | a resolved (pool, price) pair is always one of the quotes |
| `Scoring.FirstMatchPicks` | decision_engine.py:251-271 | in an if/elif chain the rule at position i decides exactly when it fires and no earlier rule does |
| `Scoring.FirstMatchDefault` | decision_engine.py:263-271 | when no rule fires the default decides |
| `Scoring.RuleScore` | decision_engine.py:296-310 | scores lie in [0,1]; an unloaded engine gives (0.5, normal); the rules never report an event |
| `Scoring.RuleScoreIsFirstMatch` | decision_engine.py:302-310 | the rule scorer is the first-match reading of the table ratio ≥ 0.85 → (0.85, high-risk), ratio ≤ 0.40 → (0.15, safe-to-return), else (0.35, normal) |
| `Scoring.RuleScoreStates` | decision_engine.py:305-310 | high-risk iff ratio ≥ 0.85, safe-to-return iff ratio ≤ 0.40, normal iff strictly between |
| `Scoring.RuleScoreMonotone` | decision_engine.py:302-310 | a higher price ratio never gives a lower rule score |
| `Scoring.AnomalyScore` | decision_engine.py:239-273 | model-based scores lie in [0,1] |
| `Scoring.AnomalyScoreIsFirstMatch` | decision_engine.py:243-271 | the model scorer is the first-match reading of absolute-high → (0.9, event), above p92 → (0.8, high-risk), above p50·(1+spike) → (0.6, high-risk), below safe-return → (0.2, safe-to-return), else (0.3, normal) |
| `Scoring.AnomalyPriority` | decision_engine.py:251-271 | each anomaly rule decides exactly when its test holds and every higher-priority test fails |
| `Scoring.AnomalyScoreMonotone` | decision_engine.py:243-271 | for any thresholds, a higher price ratio never gives a lower model score |
| `Scoring.ModelScore` | decision_engine.py:229-240 | unloaded → (0.5, normal); pool without context → (0.5, normal); otherwise the anomaly rules on price/on-demand (1.0 when on-demand ≤ 0) |
| `Scoring.ModelNeutralForUnknownPool` | decision_engine.py:232-237 | the neutral default is 0.5/normal and independent of the price |
| `Scoring.Score` | decision_engine.py:338-348 | every scorer's score lies in [0,1] |
| `Scoring.HybridDelegates` | decision_engine.py:338-348 | a hybrid scores exactly as its model when the model is loaded, otherwise exactly as its rules |
| `Policy.ScanForPrice` | decision_engine.py:83-87 | the breaking scan yields the first matching quote's price, or none |
| `Policy.ChooseAction` | decision_engine.py:129-179 | the step-by-step reassignment of action, mode, pool, savings and reason equals the action choice of the specification |
| `Policy.MakeDecision` | decision_engine.py:73-179 | resolution, the two gates, scoring and the action choice equal `Decide` |
| `DecisionProperties.FrequencyGate` | decision_engine.py:96-106 | at or over the weekly limit: stay, not allowed, risk 0, savings 0, recorded mode, resolved pool, whatever the pricing |
| `DecisionProperties.CooldownGate` | decision_engine.py:109-121 | under the limit but too soon after the last switch: the same blocked stay |
| `DecisionProperties.GatesIgnoreScorer` | decision_engine.py:96-121 | a gated decision is the same for every scorer, so the scorer is never consulted |
| `DecisionProperties.RiskScoreInUnitInterval` | decision_engine.py:99-172 | every reported risk score lies in [0,1] |
| `DecisionProperties.AllowedFollowsPolicy` | decision_engine.py:104-134 | allowed is false when gated and equals auto_switch_enabled otherwise, whatever the action |
| `DecisionProperties.FallbackOnHighRisk` | decision_engine.py:137-142 | past the gates, an event/high-risk score at or above the threshold gives fallback_ondemand, mode ondemand, pool n/a, savings −(on-demand − current) |
| `DecisionProperties.FallbackOnlyOnHighRisk` | decision_engine.py:137-142 | a fallback happens only under those conditions |
| `DecisionProperties.SwitchGoesToCheapest` | decision_engine.py:145-168 | a switch targets the first cheapest quote in spot mode with savings percent ≥ the minimum. From spot it follows a normal state, leaves the pool and saves current − best. From on-demand it follows safe-to-return and saves on-demand − best |
| `DecisionProperties.SpotSwitchWhenSavingsSuffice` | decision_engine.py:157-168 | past the gates, a normal-state spot instance whose cheapest quote is another pool saving at least the minimum percent is switched to it, saving current − best |
| `DecisionProperties.ReturnToSpotWhenSavingsSuffice` | decision_engine.py:145-154 | past the gates, a safe-to-return on-demand instance whose cheapest quote saves at least the minimum percent of on-demand is switched to it, saving on-demand − best |
| `DecisionProperties.NoQuotesFailBeforeScoring` | decision_engine.py:124 | past the gates, no quotes and a positive on-demand price fail on the missing current price |
| `DecisionProperties.StayChangesNothing` | decision_engine.py:130-133 | staying keeps the recorded mode and the resolved pool, with savings 0 |
| `DecisionProperties.NoSwitchToSamePool` | decision_engine.py:157-159 | from spot, a switch never targets the current pool |
| `DecisionProperties.FailureCauses` | decision_engine.py:124-161 | failures come only from an empty quote list or a zero on-demand price; with quotes and a positive on-demand price the decision always succeeds |
| `DecisionProperties.EmptyPoolsFailOnNormalSpot` | decision_engine.py:157-158 | past the gates, a normal-state spot instance with no quotes and an on-demand price ≤ 0 makes `min` fail (with a positive on-demand price the call fails earlier, at line 124) |
| `Engines.RuleBasedEngine.constructor` | decision_engine.py:282-288 | a new rule-based engine is not loaded |
| `Engines.RuleBasedEngine.Load` | decision_engine.py:290-294 | loading the rules always sets loaded |
| `Engines.ModelBasedEngine.constructor` | decision_engine.py:188-192 | a new model-based engine is not loaded and holds no detector |
| `Engines.ModelBasedEngine.Load` | decision_engine.py:194-227 | with a bundle: loaded with that detector; without one: raises and leaves the engine unchanged |
| `Engines.HybridEngine.constructor` | decision_engine.py:319-322 | a new hybrid owns fresh, unloaded model and rule engines, the model holding no detector |
| `Engines.HybridEngine.Load` | decision_engine.py:324-336 | the rules are loaded and the hybrid is marked loaded whether or not the model load raised; the model takes the bundle when one is given and otherwise keeps its earlier state, so from a fresh engine it is loaded exactly when a bundle was given |
| `Engines.ParseEngineType` | decision_engine.py:361-369 | selection succeeds exactly for the three engine names, and an unknown name gives UnknownEngineType |
| `Engines.ParseNameRoundTrip` | decision_engine.py:361-369 | each kind is selected by its own name |
| `Engines.DecisionEngine.constructor` | decision_engine.py:357-367 | the facade owns one fresh engine of the selected kind whose every flag is down, including a hybrid's inner model and rules, and no detector is held |
| `Engines.DecisionEngine.Create` | decision_engine.py:357-369 | an unknown engine type fails at construction; a known one yields a fresh engine of that kind with every flag down and no detector |
| `Engines.DecisionEngine.IsLoaded` | decision_engine.py:375-377 | a rule-based or model-based engine reports its own loaded flag |
| `Engines.DecisionEngine.Load` | decision_engine.py:371-373 | only a model-based engine can raise (when the bundle is missing); otherwise the engine is loaded, and the new scoring state is given per kind |
| `Engines.DecisionEngine.CalculateRiskScore` | decision_engine.py:383-385 | the selected engine's score lies in [0,1] |
| `Engines.DecisionEngine.MakeDecision` | decision_engine.py:379-381 | delegates to the selected engine: the result is `Decide` on that engine's scoring state |
| `Scenarios.DemoSwitchesToCheapestPool` | decision_engine.py:403-432 | on the usage example's inputs, scored by a hybrid whose model failed to load, the instance switches to the b-zone pool, saving 0.005 per hour (100/17 percent) |
| `Scenarios.FailedLoadHybridScoresByRules` | decision_engine.py:324-348 | a hybrid built by the factory and loaded without a bundle has its model unloaded, its rules loaded, and scores by its rules |
| `Scenarios.HighRatioFallsBack` | decision_engine.py:137-142 | at ratio 0.9 the rules report high risk 0.85 ≥ 0.7: fallback, savings −0.0085 |
| `Scenarios.LimitReachedStays` | decision_engine.py:96-106 | 10 recent switches against a limit of 10: stay, not allowed, risk 0, for any pricing |
| `Scenarios.UnknownPoolIsNeutral` | decision_engine.py:235-237 | a loaded model without context for the pool is neutral at ratio above 100 |

## Left out

- backend.py is not part of this model. It holds HTTP handlers, database access, token generation and JSON serialisation, with no decision logic.
- The file reading in the model-based load (manifest, pickled detector and predictor, JSON config) is replaced by the detector bundle or None. A load that fails half-way is treated as all-or-nothing. The price predictor and the model config are never used in scoring and are not kept.
- Engines.ModelBasedEngine.Load: does not model a raise from the logging that follows `self.loaded = True` (decision_engine.py:220-223). There `load` raises although the engine is loaded with the detector it read; the model instead reports success for a given bundle, and raises only without one. In either model case the engine takes the bundle when one is given and otherwise keeps its earlier state, so from a fresh engine it is loaded exactly when a bundle was given. For the hybrid engine that logging raise changes nothing: its `except` path (decision_engine.py:332-336) ends with the model loaded with that detector, the rules loaded and the hybrid loaded, which is the bundle case of `Engines.HybridEngine.Load`.
- The clock read (`datetime.utcnow()`) is replaced by the hours since the last switch, passed in as a value.
- Rounding of the risk score and the savings is treated as the identity.
- Reason strings are tags naming the rule or branch, with the values the text would print, but not the formatted text. The model scorer's one-element reason list joined by "; " is that one tag.
- Logging and the printing in the usage example are left out.
- The current discount computed before scoring is passed to no scorer that reads it. The only effect modelled is the failure its division raises when there is no current price and the on-demand price is positive.
- An instance record whose `current_pool_id` or `current_mode` is present but null is not modelled: `instance.get` then returns None (decision_engine.py:79-80), not the default. In the model each is a string, or absent and then `'unknown'` or `'spot'`. A null pool id matches no quote, as an id absent from the quotes does, and a null mode matches neither `'spot'` nor `'ondemand'`, as any other mode string does; the source then takes the branch the model takes for such a string, and differs only in reporting None as the mode or pool of a stay.
- Missing keys in the dictionaries (KeyError) are not modelled. Neither is a pool context entry that is an empty (falsy) dictionary: every entry has both percentiles.
- The configuration defaults (5.0, 0.7, 10, 2) are never read by the engine and are not modelled, and neither are the model directory and region. The default engine type `'ml_based'` is not modelled either: `DecisionEngine.Create` always takes the engine type name explicitly.
- `Scoring.Score`: its contract states only the [0,1] bound. Delegation is stated by `Scoring.HybridDelegates`.
- Engines.DecisionEngine.IsLoaded: for a hybrid engine its contract says nothing; the hybrid's own flag is not part of its scoring state. The constructor and `Load` state its value.
- Concurrency: there is none. The engine is read-only after loading.
