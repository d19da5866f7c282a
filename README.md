# Fraud detection core in Dafny

This project models the decision-making core of a fraud detection system and proves properties about it. The system has four parts:

- a transaction service that accepts payments and publishes them;
- a fraud service that scores each published transaction with rules and a machine-learning model, then decides, stores and streams the decision;
- an ML training library that prepares features and keeps a registry of model versions;
- a dashboard front-end that filters and pages through decisions as they stream in.

Each Dafny module stands for one source file:

| module | file | what it models |
|---|---|---|
| `Rules` | `rules.dfy` | the four fraud rules: high amount, foreign location, suspicious merchant, rapid transactions |
| `RuleEngine` | `rule_engine.dfy` | the clamped, weighted mean of the rule scores, rounded half-up to 4 decimals, with the per-rule score table in registration order |
| `FeatureEngineering` | `feature_context.dfy` | the feature context built from the velocity tracker |
| `Velocity` | `velocity.dfy` | the per-user sorted set of recent transactions and the last-seen time, over an abstract key-value store |
| `MlFeatures` | `ml_features.dfy` | the request sent to the ML service |
| `MlInference` | `ml_inference.dfy` | the ML client's score resolution, fallback, URL joining, timeout floor and exception unwrapping |
| `RiskAggregation`, `RiskScoring` | `risk.dfy` | the 0.40/0.60 blend of rule and ML scores |
| `DecisionEngine` | `decision_engine.dfy` | the APPROVED / REVIEW / BLOCKED thresholds |
| `FraudDecisionMapping` | `decision_mapper.dfy` | the decision entity and event built from a transaction and its scores |
| `FraudProcessing` | `fraud_processing.dfy` | the orchestrator: idempotency guard, scoring, save, publish and stream, then the commit |
| `ModelQuality` | `monitor.dfy` | the baseline and recent score windows, drift and low-confidence alarms |
| `FraudDecisionSpecifications` | `specifications.dfy` | the repository filters as a predicate over a decision |
| `Dashboard` | `dashboard.dfy` | the decision page query and the metrics: counts, fraud rate, average risk, per-minute buckets |
| `RateLimiting` | `rate_limiter.dfy` | the fixed-window rate limiter for dashboard paths |
| `JwtAuthentication` | `jwt_filter.dfy` | bearer-token extraction and the security context it sets |
| `JwtTokens` | `jwt_tokens.dfy` | the transaction service's token issue and parse: role normalisation and the claim checks |
| `TransactionMapping` | `transaction_mapper.dfy` | the request, entity, event and response mapping |
| `TransactionCreation` | `transaction_service.dfy` | amount validation, then save, send and the commit that refuses a duplicate transaction id or a value that does not fit its column |
| `ModelRegistry` | `registry.dfy` | the model registry: version numbering, registration, activation, rollback |
| `TrainingFeatures` | `feature_engineering.dfy` | training and inference feature frames: target resolution, schema choice, sanitisers, per-minute frequency |
| `DashboardApp` | `app_helpers.dfy` | the dashboard's filter predicate, live-stream page merge, filter buttons and paging |

`FraudTypes`, `Numeric`, `Strings`, `Sorting` and `Wrappers` hold the shared pieces:

- the transaction and decision records;
- half-up rounding at scale 4, clamping, 32- and 64-bit wrap-around, truncating division;
- Java, JavaScript and Python string operations;
- a stable insertion sort by a total preorder;
- `Option` and `Result`.

How values are represented:

- A `BigDecimal` at scale 4 is an integer count of 1/10000 units.
- A `double` is a `real`. NaN and infinity appear only where the code tests for them.
- Times are epoch milliseconds or seconds as integers.

Parts of the code that change state are classes. Each class method is proved equal to a pure function of the old state. The properties are proved as lemmas about those functions. The classes are:

- the velocity tracker and its store;
- the model-quality monitor;
- the orchestrator;
- the rate limiter;
- the model registry;
- the transaction service;
- the dashboard component.

Clocks, random identifiers, the store's failures, the ML service's answer and token signature checks are all parameters. Each operation takes them as given inputs.

## Model

| member | source | states |
|---|---|---|
| Rules.HighAmountScoreRange | fraud-service/src/main/java/com/frauddetection/fraudservice/rule/HighAmountRule.java:24-34 | the amount score lies in [0, 1]; a missing amount or one at or below 5000 scores 0; from 10000 on it scores 1.0 |
| Rules.HighAmountScoreMonotone | fraud-service/src/main/java/com/frauddetection/fraudservice/rule/HighAmountRule.java:24-34 | a larger amount never scores lower |
| Rules.HighAmountExamples | fraud-service/src/test/java/com/frauddetection/fraudservice/rule/HighAmountRuleTest.java:1-44 | 7500 scores 0.5, 20000 is capped at 1.0, 5000 scores 0 |
| Rules.ForeignLocationScoreCases | fraud-service/src/main/java/com/frauddetection/fraudservice/rule/ForeignLocationRule.java:31-51 | the three outcomes of the location rule, each as an if-and-only-if: 1.0 exactly when the location is present, not blank and its trimmed lower-cased form names a high-risk city; 0.65 exactly when it is present, not blank, names no such city and has a comma and no United States suffix; 0 exactly when it is missing, blank, or neither |
| Rules.ForeignLocationHighRiskExample | fraud-service/src/test/java/com/frauddetection/fraudservice/rule/ForeignLocationRuleTest.java:1-44 | "Moscow, RU" scores 1.0 |
| Rules.ForeignLocationForeignExample | fraud-service/src/test/java/com/frauddetection/fraudservice/rule/ForeignLocationRuleTest.java:1-44 | "Toronto, CA" scores 0.65 |
| Rules.ForeignLocationDomesticExample | fraud-service/src/test/java/com/frauddetection/fraudservice/rule/ForeignLocationRuleTest.java:1-44 | "Austin, US" scores 0 |
| Rules.ForeignLocationScoreNormalizes | fraud-service/src/main/java/com/frauddetection/fraudservice/rule/ForeignLocationRule.java:33-37 | padding and letter case do not matter: two locations with the same trimmed, lower-cased form score the same, even when one is blank and skipped before normalizing |
| Rules.SuspiciousMerchantScoreNormalizes | fraud-service/src/main/java/com/frauddetection/fraudservice/rule/SuspiciousMerchantRule.java:35-39 | padding and letter case do not matter: two merchant ids with the same trimmed, lower-cased form score the same, even when one is blank |
| Rules.SuspiciousMerchantScoreIff | fraud-service/src/main/java/com/frauddetection/fraudservice/rule/SuspiciousMerchantRule.java:33-47 | the merchant scores 1.0 if and only if it is present, not blank and names one of the suspicious keywords; otherwise it scores 0 |
| Rules.SuspiciousMerchantExample | fraud-service/src/test/java/com/frauddetection/fraudservice/rule/SuspiciousMerchantRuleTest.java:1-34 | a crypto-exchange merchant scores 1.0 |
| Rules.OrdinaryMerchantExample | fraud-service/src/test/java/com/frauddetection/fraudservice/rule/SuspiciousMerchantRuleTest.java:1-34 | an ordinary merchant scores 0 |
| Rules.RapidTransactionScoreMonotone | fraud-service/src/main/java/com/frauddetection/fraudservice/rule/RapidTransactionRule.java:21-36 | more transactions in either window, or a shorter gap since the last one, never lower the velocity score |
| Rules.RapidTransactionExamples | fraud-service/src/test/java/com/frauddetection/fraudservice/rule/RapidTransactionRuleTest.java:1-44 | (7, 10, 2) scores 1.0, (4, 7, 30) scores 0.8 and (1, 2, 4) scores 0.45 |
| Rules.EvaluateRange | fraud-service/src/main/java/com/frauddetection/fraudservice/rule/HighAmountRule.java:15-34 | each of the four rules scores within [0, 1] and has a positive weight |
| RuleEngine.Normalize | fraud-service/src/main/java/com/frauddetection/fraudservice/engine/RuleEngine.java:42-47 | a rule's score is brought into [0, 1]: NaN and infinities become 0, finite values are clipped |
| RuleEngine.IndexOfName | fraud-service/src/main/java/com/frauddetection/fraudservice/engine/RuleEngine.java:27-32 | the position of a name in the score map, or -1 exactly when no entry has that name |
| RuleEngine.Contributions | fraud-service/src/main/java/com/frauddetection/fraudservice/engine/RuleEngine.java:29-36 | one contribution per rule, each with a score in [0, 1] and a non-negative weight |
| RuleEngine.Evaluate | fraud-service/src/main/java/com/frauddetection/fraudservice/engine/RuleEngine.java:20-40 | the loop computes the rounded weighted mean of the clamped scores and the per-rule map of rounded scores |
| RuleEngine.EvaluateNoRules | fraud-service/src/main/java/com/frauddetection/fraudservice/engine/RuleEngine.java:21-23 | no rules give score 0 and an empty map |
| RuleEngine.Round4UnitInterval | fraud-service/src/main/java/com/frauddetection/fraudservice/engine/RuleEngine.java:49-51 | rounding to four places keeps a value of [0, 1] inside [0, 1] |
| RuleEngine.WeightedSumBounds | fraud-service/src/main/java/com/frauddetection/fraudservice/engine/RuleEngine.java:34-35 | if every positively weighted score lies in [lo, hi], the weighted sum lies between lo and hi times the total weight |
| RuleEngine.WeightedSumAbove | fraud-service/src/main/java/com/frauddetection/fraudservice/engine/RuleEngine.java:34-35 | if every positively weighted score is at least lo and no weight is negative, the weighted sum is at least lo times the total weight, which is non-negative |
| RuleEngine.WeightedSumBelow | fraud-service/src/main/java/com/frauddetection/fraudservice/engine/RuleEngine.java:34-35 | if every positively weighted score is at most hi and no weight is negative, the weighted sum is at most hi times the total weight, which is non-negative |
| RuleEngine.AccumulateAbove | fraud-service/src/main/java/com/frauddetection/fraudservice/engine/RuleEngine.java:34-35 | one accumulation step with a non-negative weight keeps the weighted sum at least lo times the total weight |
| RuleEngine.AccumulateBelow | fraud-service/src/main/java/com/frauddetection/fraudservice/engine/RuleEngine.java:34-35 | one accumulation step with a non-negative weight keeps the weighted sum at most hi times the total weight |
| RuleEngine.RuleMeanUnitInterval | fraud-service/src/main/java/com/frauddetection/fraudservice/engine/RuleEngine.java:38-39 | the engine's score lies in [0, 1] whatever the rules return, NaN and infinities included |
| RuleEngine.WeightedMeanBetween | fraud-service/src/main/java/com/frauddetection/fraudservice/engine/RuleEngine.java:38 | the weighted mean lies between the smallest and largest score of positive weight |
| RuleEngine.NoPositiveWeight | fraud-service/src/main/java/com/frauddetection/fraudservice/engine/RuleEngine.java:31-38 | with no positive weight the total weight is 0 and the score is exactly 0 |
| RuleEngine.RulesWithoutWeight | fraud-service/src/main/java/com/frauddetection/fraudservice/engine/RuleEngine.java:31-38 | rules whose weights are all at most 0 give the score 0 |
| RuleEngine.ZeroWeightRuleIgnored | fraud-service/src/main/java/com/frauddetection/fraudservice/engine/RuleEngine.java:30-36 | adding a rule of weight at most 0 leaves the score unchanged, though the rule gets its own map entry |
| RuleEngine.ZeroWeightMeanUnchanged | fraud-service/src/main/java/com/frauddetection/fraudservice/engine/RuleEngine.java:30-38 | a rule of weight at most 0 added last leaves the unrounded weighted mean unchanged |
| RuleEngine.DropWeightlessLast | fraud-service/src/main/java/com/frauddetection/fraudservice/engine/RuleEngine.java:34-38 | a last contribution of weight 0 adds nothing to either sum, so the weighted mean is the same without it |
| RuleEngine.ExtraRuleListed | fraud-service/src/main/java/com/frauddetection/fraudservice/engine/RuleEngine.java:29-32 | every registered rule, whatever its weight, gets an entry under its name in the per-rule map |
| RuleEngine.IndexOfNameAt | fraud-service/src/main/java/com/frauddetection/fraudservice/engine/RuleEngine.java:27 | in a map with distinct names, a name is found exactly at its own position |
| RuleEngine.PutLookup | fraud-service/src/main/java/com/frauddetection/fraudservice/engine/RuleEngine.java:32 | after an insertion-ordered put, the key maps to the new value and every other key keeps its value; names keep their order, and a new name goes last |
| RuleEngine.ScoreTableShape | fraud-service/src/main/java/com/frauddetection/fraudservice/engine/RuleEngine.java:27-32 | the map has one entry per distinct rule name, in first-registration order, and each holds the rounded score of the last rule of that name |
| RuleEngine.ScoreTableDistinct | fraud-service/src/main/java/com/frauddetection/fraudservice/engine/RuleEngine.java:27-32 | no rule name gets two entries in the per-rule map |
| RuleEngine.ScoreTableNames | fraud-service/src/main/java/com/frauddetection/fraudservice/engine/RuleEngine.java:27-32 | the per-rule map lists each rule name once, in the order the names were first registered |
| RuleEngine.ScoreTableLookup | fraud-service/src/main/java/com/frauddetection/fraudservice/engine/RuleEngine.java:27-32 | each name maps to the rounded score of the last rule registered under it, and an unregistered name to nothing |
| RuleEngine.ScoreTableSize | fraud-service/src/main/java/com/frauddetection/fraudservice/engine/RuleEngine.java:27-32 | the map's size is the number of distinct rule names |
| RuleEngine.FirstOccurrencesOfDistinct | fraud-service/src/main/java/com/frauddetection/fraudservice/engine/RuleEngine.java:27-32 | without repeated names, the first occurrences are all the names |
| RuleEngine.UnanimousMean | fraud-service/src/main/java/com/frauddetection/fraudservice/engine/RuleEngine.java:34-38 | rules that all score the same value with positive weight average to that value |
| RuleEngine.PositiveTotal | fraud-service/src/main/java/com/frauddetection/fraudservice/engine/RuleEngine.java:35 | some positive weight makes the total weight positive |
| RuleEngine.ProductionNames | fraud-service/src/test/java/com/frauddetection/fraudservice/engine/RuleEngineTest.java:18-23 | the four fraud rules have four distinct names |
| RuleEngine.ProductionScoresAllOne | fraud-service/src/test/java/com/frauddetection/fraudservice/engine/RuleEngineTest.java:25-34 | on the engine test's transaction every one of the four rules scores 1.0 |
| RuleEngine.ProductionTableSize | fraud-service/src/test/java/com/frauddetection/fraudservice/engine/RuleEngineTest.java:37 | the engine test's map has four entries |
| RuleEngine.ProductionRulesScenario | fraud-service/src/test/java/com/frauddetection/fraudservice/engine/RuleEngineTest.java:16-39 | the engine test's scenario: four map entries and a score of 1.0, which lies in [0, 1] and exceeds 0.7 |
| FeatureEngineering.EventTime | fraud-service/src/main/java/com/frauddetection/fraudservice/service/FeatureEngineeringService.java:18 | the tracked time is the creation time when there is one, else the clock's reading |
| FeatureEngineering.BuildContextProperties | fraud-service/src/main/java/com/frauddetection/fraudservice/service/FeatureEngineeringService.java:17-30 | the context reports the tracker's statistics unchanged: its one-minute count never exceeds its five-minute count and counts the transaction itself, its elapsed time is never negative, and a store failure gives the neutral context |
| FeatureEngineering.FeatureEngineeringService.constructor | fraud-service/src/main/java/com/frauddetection/fraudservice/service/FeatureEngineeringService.java:13-15 | the service holds the tracker it is given |
| FeatureEngineering.FeatureEngineeringService.BuildFeatureContext | fraud-service/src/main/java/com/frauddetection/fraudservice/service/FeatureEngineeringService.java:17-30 | the method returns the context of the tracker's statistics and leaves the store as the tracker does |
| Velocity.ZAdd | fraud-service/src/main/java/com/frauddetection/fraudservice/service/VelocityTrackingService.java:41 | adding a member to a sorted set inserts it, or moves it to the new score |
| Velocity.ZRemoveRangeByScore | fraud-service/src/main/java/com/frauddetection/fraudservice/service/VelocityTrackingService.java:42 | exactly the members scored within the range are removed; the others keep their scores |
| Velocity.SafeInt | fraud-service/src/main/java/com/frauddetection/fraudservice/service/VelocityTrackingService.java:69-74 | a missing count becomes 0; a count that fits an int is kept; the result always fits an int |
| Velocity.SecondsSinceLast | fraud-service/src/main/java/com/frauddetection/fraudservice/service/VelocityTrackingService.java:76-87 | the elapsed seconds are never negative; a missing or unparsable previous time gives Long.MAX_VALUE |
| Velocity.SecondsSinceWrittenTime | fraud-service/src/main/java/com/frauddetection/fraudservice/service/VelocityTrackingService.java:56-83 | the last-seen time one call writes is read back by the next: the whole seconds between them, or 0 when the clock went backwards |
| Velocity.Track | fraud-service/src/main/java/com/frauddetection/fraudservice/service/VelocityTrackingService.java:28-67 | a store failure at any step gives the degraded statistics (0, 0, Long.MAX_VALUE); a successful call writes the event time as the last-seen value and reports the seconds since the previous one |
| Velocity.StepIndex | fraud-service/src/main/java/com/frauddetection/fraudservice/service/VelocityTrackingService.java:39-56 | the store calls are numbered in the order the tracker makes them |
| Velocity.RedisStore.constructor | fraud-service/src/main/java/com/frauddetection/fraudservice/service/VelocityTrackingService.java:22 | the store starts empty |
| Velocity.RedisStore.Get | fraud-service/src/main/java/com/frauddetection/fraudservice/service/VelocityTrackingService.java:39 | GET returns the stored string, if any |
| Velocity.RedisStore.Add | fraud-service/src/main/java/com/frauddetection/fraudservice/service/VelocityTrackingService.java:41 | ZADD updates the store as the sorted-set model says |
| Velocity.RedisStore.RemoveRangeByScore | fraud-service/src/main/java/com/frauddetection/fraudservice/service/VelocityTrackingService.java:42 | ZREMRANGEBYSCORE updates the store as the sorted-set model says |
| Velocity.RedisStore.Count | fraud-service/src/main/java/com/frauddetection/fraudservice/service/VelocityTrackingService.java:44-53 | ZCOUNT returns the number of members scored within the range |
| Velocity.RedisStore.Set | fraud-service/src/main/java/com/frauddetection/fraudservice/service/VelocityTrackingService.java:56 | SET stores the string under its key |
| Velocity.VelocityTrackingService.constructor | fraud-service/src/main/java/com/frauddetection/fraudservice/service/VelocityTrackingService.java:24-26 | the tracker holds the store it is given |
| Velocity.VelocityTrackingService.TrackAndMeasure | fraud-service/src/main/java/com/frauddetection/fraudservice/service/VelocityTrackingService.java:28-67 | the method's store commands leave the store and return the statistics the model of one call gives, for a failure at any step as well as for success |
| Velocity.SubsetCardinality | fraud-service/src/main/java/com/frauddetection/fraudservice/service/VelocityTrackingService.java:44-53 | a subset has no more members than its superset, so a narrower window never counts more |
| Velocity.TrackCounts | fraud-service/src/main/java/com/frauddetection/fraudservice/service/VelocityTrackingService.java:44-61 | after a successful call both counts include the event itself and the one-minute count never exceeds the five-minute count |
| Velocity.TrackCountsAfter | fraud-service/src/main/java/com/frauddetection/fraudservice/service/VelocityTrackingService.java:41-53 | after a successful call the user's set holds the new member scored with the event time, grows by at most one, and keeps every other member of the last five minutes |
| Velocity.RecordedShape | fraud-service/src/main/java/com/frauddetection/fraudservice/service/VelocityTrackingService.java:41-42 | adding the member and pruning entries older than five minutes keeps the new member and every recent one |
| Velocity.WindowCounts | fraud-service/src/main/java/com/frauddetection/fraudservice/service/VelocityTrackingService.java:44-53 | a set holding a member scored now counts it in both windows, and the windows nest |
| Velocity.WindowCountsTwo | fraud-service/src/main/java/com/frauddetection/fraudservice/service/VelocityTrackingService.java:44-48 | two distinct members scored within the last minute are both counted |
| Velocity.UserKeysDisjoint | fraud-service/src/main/java/com/frauddetection/fraudservice/service/VelocityTrackingService.java:29-30 | the keys of different users never collide |
| Velocity.TrackTouchesOnlyUserKeys | fraud-service/src/main/java/com/frauddetection/fraudservice/service/VelocityTrackingService.java:28-67 | a call changes only the calling user's two keys |
| Velocity.TrackIsolatesUsers | fraud-service/src/main/java/com/frauddetection/fraudservice/service/VelocityTrackingService.java:28-67 | tracking one user leaves every other user's velocity state unchanged |
| Velocity.TrackTwice | fraud-service/src/main/java/com/frauddetection/fraudservice/service/VelocityTrackingService.java:28-87 | two successful calls for one user within a minute: the second reports the seconds since the first and counts both events |
| MlFeatures.SanitizeAmount | fraud-service/src/main/java/com/frauddetection/fraudservice/service/MlFeatureEngineeringService.java:45-50 | a missing or negative amount becomes 0.0000; any other is the amount rounded half-up to four decimals, never negative |
| MlFeatures.ToScore | fraud-service/src/main/java/com/frauddetection/fraudservice/service/MlFeatureEngineeringService.java:52-58 | a rule output becomes a risk in [0, 1] at four decimals; NaN and infinities become 0 |
| MlFeatures.TransactionFrequency | fraud-service/src/main/java/com/frauddetection/fraudservice/service/MlFeatureEngineeringService.java:30-36 | the frequency is the larger of the two velocity counts, or 0 when both are negative |
| MlFeatures.BuildRequestProperties | fraud-service/src/main/java/com/frauddetection/fraudservice/service/MlFeatureEngineeringService.java:25-43 | the payload carries the amount to within half a unit of the fourth decimal; each risk lies in [0, 1] and is 1.0000 exactly when its rule fires fully; the merchant risk is 0 exactly when that rule does not fire; without a context the frequency is 0 |
| MlFeatures.ScoreOfExact | fraud-service/src/main/java/com/frauddetection/fraudservice/service/MlFeatureEngineeringService.java:56-57 | 0 and 1 are kept exactly |
| MlFeatures.ScoreBelowOne | fraud-service/src/main/java/com/frauddetection/fraudservice/service/MlFeatureEngineeringService.java:56-57 | the location rule's partial scores 0 and 0.65 stay below 1.0000 |
| MlFeatures.TransactionFrequencyExample | fraud-service/src/test/java/com/frauddetection/fraudservice/service/MlFeatureEngineeringServiceTest.java:1-57 | counts (3, 8) give the frequency 8 |
| MlFeatures.BuildRequestRiskyExample | fraud-service/src/test/java/com/frauddetection/fraudservice/service/MlFeatureEngineeringServiceTest.java:1-57 | "Moscow, RU" and "crypto-exchange-2" at 8700 with counts (3, 8) give (8700.0000, 8, 1.0000, 1.0000) |
| MlFeatures.BuildRequestSafeExample | fraud-service/src/test/java/com/frauddetection/fraudservice/service/MlFeatureEngineeringServiceTest.java:1-57 | "Austin, US" and "merchant-1" at -90 without a context give all zeros |
| MlInference.Clamp | fraud-service/src/main/java/com/frauddetection/fraudservice/service/MlInferenceClient.java:208-219 | a missing value is 0; values outside [0, 1] go to the nearer bound |
| MlInference.ClampedScore | fraud-service/src/main/java/com/frauddetection/fraudservice/service/MlInferenceClient.java:105 | a clamped value at four decimals lies in [0, 1] |
| MlInference.FetchScore | fraud-service/src/main/java/com/frauddetection/fraudservice/service/MlInferenceClient.java:156-189 | the call succeeds exactly on a 2xx response whose body holds a probability, and then returns that probability; a thrown exception passes through |
| MlInference.PredictScore | fraud-service/src/main/java/com/frauddetection/fraudservice/service/MlInferenceClient.java:104-154 | the score lies in [0, 1] at four decimals |
| MlInference.PredictScoreResolution | fraud-service/src/main/java/com/frauddetection/fraudservice/service/MlInferenceClient.java:104-140 | the score is the service's clamped probability exactly when the call succeeds, and the clamped fallback otherwise, each within half a unit of the fourth decimal |
| MlInference.ClampedScoreOfUnits | fraud-service/src/main/java/com/frauddetection/fraudservice/service/MlInferenceClient.java:105 | a score already at four decimals in [0, 1] comes back unchanged |
| MlInference.PredictScoreExamples | fraud-service/src/test/java/com/frauddetection/fraudservice/service/MlInferenceClientTest.java:1-164 | a 2xx probability 0.83 gives 0.8300; a 503 with fallback 0.61 gives 0.6100; a timeout with fallback 0.73 gives 0.7300 |
| MlInference.ResolvePredictUrl | fraud-service/src/main/java/com/frauddetection/fraudservice/service/MlInferenceClient.java:202-206 | the URL ends with the predict path |
| MlInference.ResolvePredictUrlJoins | fraud-service/src/main/java/com/frauddetection/fraudservice/service/MlInferenceClient.java:202-206 | with or without a trailing "/" on the base and a leading "/" on the path, the URL joins them with exactly one "/" |
| MlInference.SafeTimeout | fraud-service/src/main/java/com/frauddetection/fraudservice/service/MlInferenceClient.java:93 | the timeout is at least 1 ms and a valid configured timeout is kept |
| MlInference.Unwrap | fraud-service/src/main/java/com/frauddetection/fraudservice/service/MlInferenceClient.java:191-200 | the loop stops at the first circuit-breaker or REST exception in the cause chain, else at the last cause; an empty chain gives none |
| MlInference.MlInferenceClient.constructor | fraud-service/src/main/java/com/frauddetection/fraudservice/service/MlInferenceClient.java:82-102 | the client keeps the resolved URL and the floored timeout |
| RiskAggregation.Clamp | fraud-service/src/main/java/com/frauddetection/fraudservice/service/RiskAggregationService.java:22-33 | a missing score is 0; scores outside [0, 1] go to the nearer bound |
| RiskAggregation.Aggregate | fraud-service/src/main/java/com/frauddetection/fraudservice/service/RiskAggregationService.java:13-20 | the aggregate lies in [0, 1] and is within half a unit of the fourth decimal of 0.4 times the clamped rule score plus 0.6 times the clamped ML score |
| RiskAggregation.ClampMonotone | fraud-service/src/main/java/com/frauddetection/fraudservice/service/RiskAggregationService.java:22-33 | clamping preserves order |
| RiskAggregation.AggregateMonotone | fraud-service/src/main/java/com/frauddetection/fraudservice/service/RiskAggregationService.java:13-20 | a higher rule score or a higher ML score never lowers the aggregate |
| RiskAggregation.AggregateMissingIsZero | fraud-service/src/main/java/com/frauddetection/fraudservice/service/RiskAggregationService.java:23-25 | a missing score aggregates like a score of 0 |
| RiskAggregation.AggregateOfEqualScores | fraud-service/src/main/java/com/frauddetection/fraudservice/service/RiskAggregationService.java:10-19 | two equal scores in [0, 1] at four decimals aggregate to themselves, since the weights sum to 1 |
| RiskAggregation.AggregateExamples | fraud-service/src/test/java/com/frauddetection/fraudservice/service/RiskAggregationServiceTest.java:1-31 | (0.4, 0.9) gives 0.7000; (5, 2) gives 1.0000; (-1, -2) gives 0.0000 |
| RiskScoring.Calculate | fraud-service/src/main/java/com/frauddetection/fraudservice/service/RiskScoringService.java:13-20 | a score exists exactly when the rule score is finite, since a non-finite double cannot become a decimal; it lies in [0, 1] |
| RiskScoring.CalculateIsAggregate | fraud-service/src/main/java/com/frauddetection/fraudservice/service/RiskScoringService.java:13-33 | for a finite rule score the result equals the aggregation service's |
| RiskScoring.CalculateExamples | fraud-service/src/test/java/com/frauddetection/fraudservice/service/RiskScoringServiceTest.java:1-27 | (0.5, 0.9) gives 0.7400; (10, 5) gives 1.0000; (-3, 0) gives 0.0000; a missing ML score counts as 0 |
| DecisionEngine.Decide | fraud-service/src/main/java/com/frauddetection/fraudservice/service/DecisionEngine.java:13-22 | BLOCKED exactly when the score is at least 0.7, REVIEW exactly when it lies in [0.4, 0.7), APPROVED exactly below 0.4; a missing score counts as 0 |
| DecisionEngine.DecideMonotone | fraud-service/src/main/java/com/frauddetection/fraudservice/service/DecisionEngine.java:13-22 | a higher score never gets a milder verdict |
| DecisionEngine.DecideExamples | fraud-service/src/test/java/com/frauddetection/fraudservice/service/DecisionEngineTest.java:1-31 | 0.7000 blocks, 0.6500 reviews, 0.3999 and a missing score approve |
| ModelQuality.NormalizeConfig | fraud-service/src/main/java/com/frauddetection/fraudservice/service/ModelQualityMonitoringService.java:47-52 | the settings are normalised: windows of at least 1, probabilities clipped to [0, 1], the band's maximum not below its minimum, the drift threshold not negative; valid settings are kept |
| ModelQuality.ClampScore | fraud-service/src/main/java/com/frauddetection/fraudservice/service/ModelQualityMonitoringService.java:166-184 | a missing score is 0, and so is one too large in magnitude for a `double` (it converts to an infinity); others are clipped to [0, 1], and a score already in [0, 1] is kept as it is |
| ModelQuality.AppendValue | fraud-service/src/main/java/com/frauddetection/fraudservice/service/ModelQualityMonitoringService.java:120-125 | the recent window keeps the last min(n + 1, size) values of the old window plus the new score, evicting the oldest when full |
| ModelQuality.AppendBaseline | fraud-service/src/main/java/com/frauddetection/fraudservice/service/ModelQualityMonitoringService.java:114-118 | the baseline grows by the new score only while it is below its size, and never loses a value |
| ModelQuality.SumBounds | fraud-service/src/main/java/com/frauddetection/fraudservice/service/ModelQualityMonitoringService.java:132-136 | the sum of n values in [lo, hi] lies between n·lo and n·hi |
| ModelQuality.MeanBounds | fraud-service/src/main/java/com/frauddetection/fraudservice/service/ModelQualityMonitoringService.java:127-137 | the mean of values in [lo, hi] lies in [lo, hi] |
| ModelQuality.ConstantValues | fraud-service/src/main/java/com/frauddetection/fraudservice/service/ModelQualityMonitoringService.java:127-150 | equal values have that value as their mean and no variance |
| ModelQuality.NoDeviation | fraud-service/src/main/java/com/frauddetection/fraudservice/service/ModelQualityMonitoringService.java:144-148 | values equal to the mean have no squared deviation |
| ModelQuality.SquaredDeviationsNonNegative | fraud-service/src/main/java/com/frauddetection/fraudservice/service/ModelQualityMonitoringService.java:144-148 | the total of squared deviations is never negative |
| ModelQuality.CountWithinBounds | fraud-service/src/main/java/com/frauddetection/fraudservice/service/ModelQualityMonitoringService.java:157-162 | the low-confidence count never exceeds the number of values, and equals it when every value is in the band |
| ModelQuality.RatioBounds | fraud-service/src/main/java/com/frauddetection/fraudservice/service/ModelQualityMonitoringService.java:152-164 | the low-confidence ratio lies in [0, 1], and is 1 when every value is in the band |
| ModelQuality.MeasureBounds | fraud-service/src/main/java/com/frauddetection/fraudservice/service/ModelQualityMonitoringService.java:84-88 | over windows of scores in [0, 1], the mean, drift and ratio lie in [0, 1] and the variance is not negative |
| ModelQuality.AppendWithin | fraud-service/src/main/java/com/frauddetection/fraudservice/service/ModelQualityMonitoringService.java:81-82 | appending a score in [0, 1] to either window keeps every score in [0, 1] |
| ModelQuality.RecordPreservesValid | fraud-service/src/main/java/com/frauddetection/fraudservice/service/ModelQualityMonitoringService.java:77-112 | recording a score keeps the windows bounded, every score and gauge in range and every open alarm counted |
| ModelQuality.RecordWindowsValid | fraud-service/src/main/java/com/frauddetection/fraudservice/service/ModelQualityMonitoringService.java:78-82 | recording keeps both windows within their sizes and their scores in [0, 1] |
| ModelQuality.RecordGaugesValid | fraud-service/src/main/java/com/frauddetection/fraudservice/service/ModelQualityMonitoringService.java:84-93 | recording publishes a mean, drift and ratio in [0, 1] and a non-negative variance |
| ModelQuality.RecordAll | fraud-service/src/main/java/com/frauddetection/fraudservice/service/ModelQualityMonitoringService.java:77-112 | recording a series of scores in turn keeps the recent window within its size |
| ModelQuality.RecordAllValid | fraud-service/src/main/java/com/frauddetection/fraudservice/service/ModelQualityMonitoringService.java:77-112 | every state the monitor goes through is valid |
| ModelQuality.RecordAllLast | fraud-service/src/main/java/com/frauddetection/fraudservice/service/ModelQualityMonitoringService.java:84-111 | after at least one score the gauges are those of the current windows, and an alarm whose metric is at or above its threshold is open and counted |
| ModelQuality.Clamped | fraud-service/src/main/java/com/frauddetection/fraudservice/service/ModelQualityMonitoringService.java:78 | each score of a series is clipped on its own, in order |
| ModelQuality.AppendValueKeepsLast | fraud-service/src/main/java/com/frauddetection/fraudservice/service/ModelQualityMonitoringService.java:120-125 | appending to the recent window of a prefix gives the recent window of the longer prefix |
| ModelQuality.AppendBaselineKeepsFirst | fraud-service/src/main/java/com/frauddetection/fraudservice/service/ModelQualityMonitoringService.java:114-118 | appending to the baseline of a prefix gives the baseline of the longer prefix |
| ModelQuality.RecordAllStep | fraud-service/src/main/java/com/frauddetection/fraudservice/service/ModelQualityMonitoringService.java:78-82 | one more score appends to the windows as the service does |
| ModelQuality.RecordAllWindows | fraud-service/src/main/java/com/frauddetection/fraudservice/service/ModelQualityMonitoringService.java:81-82 | after any series of scores the recent window holds the last min(n, recent size) clipped scores and the baseline the first min(n, baseline size), both in order |
| ModelQuality.SpikeRunCountsRisingEdges | fraud-service/src/main/java/com/frauddetection/fraudservice/service/ModelQualityMonitoringService.java:95-111 | an alarm ends open exactly when the last check reached its threshold, and counts once per rising edge, so a metric that stays above its threshold is counted once |
| ModelQuality.RecordAllRunsAlarm | fraud-service/src/main/java/com/frauddetection/fraudservice/service/ModelQualityMonitoringService.java:76-111 | recording scores one by one runs each alarm over the threshold checks made after each score, starting closed with no spikes |
| ModelQuality.RecordAllCountsSpikes | fraud-service/src/main/java/com/frauddetection/fraudservice/service/ModelQualityMonitoringService.java:76-111 | after any series of scores, each spike counter equals the number of rising edges of its metric reaching its threshold score after score, and the alarm is open exactly when the metric reached it after the last score |
| ModelQuality.MonitorExample | fraud-service/src/test/java/com/frauddetection/fraudservice/service/ModelQualityMonitoringServiceTest.java:1-81 | windows (5, 10), band [0.45, 0.55], thresholds 0.10 and 0.40: five scores of 0.20 then ten of 0.50 give mean 0.5, no variance, drift 0.3, ratio 1.0 and a spike of each kind |
| ModelQuality.ExampleGauges | fraud-service/src/main/java/com/frauddetection/fraudservice/service/ModelQualityMonitoringService.java:84-88 | the gauges of that example's windows are (0.5, 0, 0.3, 1.0) |
| ModelQuality.ClampingExample | fraud-service/src/main/java/com/frauddetection/fraudservice/service/ModelQualityMonitoringService.java:166-184 | with windows of 3, the scores -5.0, 9.0 and none are kept as 0, 1 and 0, with mean 1/3 |
| ModelQuality.ClampedScores | fraud-service/src/main/java/com/frauddetection/fraudservice/service/ModelQualityMonitoringService.java:166-184 | -5.0, 9.0 and a missing score clip to 0, 1 and 0 |
| ModelQuality.ClampedMean | fraud-service/src/main/java/com/frauddetection/fraudservice/service/ModelQualityMonitoringService.java:127-137 | the mean of 0, 1 and 0 is 1/3 |
| ModelQuality.ModelQualityMonitoringService.constructor | fraud-service/src/main/java/com/frauddetection/fraudservice/service/ModelQualityMonitoringService.java:38-75 | the monitor starts with normalised settings, empty windows, zero gauges and closed alarms |
| ModelQuality.ModelQualityMonitoringService.RecordMlScore | fraud-service/src/main/java/com/frauddetection/fraudservice/service/ModelQualityMonitoringService.java:77-112 | the monitor's new state is the model of recording one score, and stays valid |
| ModelQuality.ModelQualityMonitoringService.NextState | fraud-service/src/main/java/com/frauddetection/fraudservice/service/ModelQualityMonitoringService.java:78-111 | computing the windows, gauges and alarms step by step gives the model of recording one score |
| ModelQuality.ModelQualityMonitoringService.Store | fraud-service/src/main/java/com/frauddetection/fraudservice/service/ModelQualityMonitoringService.java:90-93 | the monitor keeps the new windows, gauges and alarm state |
| ModelQuality.ModelQualityMonitoringService.MeasureWindows | fraud-service/src/main/java/com/frauddetection/fraudservice/service/ModelQualityMonitoringService.java:84-88 | the four metrics are those of the windows after the score is appended, the baseline mean falling back to the recent mean when the baseline is empty |
| ModelQuality.ModelQualityMonitoringService.UpdateAlarm | fraud-service/src/main/java/com/frauddetection/fraudservice/service/ModelQualityMonitoringService.java:95-111 | one alarm counts on reaching its threshold while closed and reopens below it |
| ModelQuality.Mean | fraud-service/src/main/java/com/frauddetection/fraudservice/service/ModelQualityMonitoringService.java:127-137 | the running total over the values divided by their count is their mean, 0 for no values |
| ModelQuality.Variance | fraud-service/src/main/java/com/frauddetection/fraudservice/service/ModelQualityMonitoringService.java:139-150 | the loop computes the mean squared deviation from the given mean, 0 for no values |
| ModelQuality.LowConfidenceRatio | fraud-service/src/main/java/com/frauddetection/fraudservice/service/ModelQualityMonitoringService.java:152-164 | the loop computes the share of values in the band, 0 for no values |
| FraudDecisionMapping.Scale | fraud-service/src/main/java/com/frauddetection/fraudservice/mapper/FraudDecisionMapper.java:52-57 | a missing score becomes 0.0000; any other is stored within half a unit of the fourth decimal |
| FraudDecisionMapping.ScaleKeepsDecimals | fraud-service/src/main/java/com/frauddetection/fraudservice/mapper/FraudDecisionMapper.java:52-57 | a score that already has four decimals is stored exactly |
| FraudDecisionMapping.ScaleOrdered | fraud-service/src/main/java/com/frauddetection/fraudservice/mapper/FraudDecisionMapper.java:52-57 | rescaling never reverses the order of two scores |
| FraudDecisionMapping.ToEventLossless | fraud-service/src/main/java/com/frauddetection/fraudservice/mapper/FraudDecisionMapper.java:35-50 | the event loses nothing: the decision can be read back from it, so distinct decisions give distinct events |
| FraudDecisionMapping.ToEntityCopiesTransaction | fraud-service/src/main/java/com/frauddetection/fraudservice/mapper/FraudDecisionMapper.java:14-50 | a new decision is unsaved, carries the transaction's ids, amount, currency, merchant and location and the verdict, and its three scores lie within half a unit of the given ones; the event of the saved decision reports the same with its generated id and time |
| FraudDecisionMapping.ToEntityOfDecimals | fraud-service/src/main/java/com/frauddetection/fraudservice/mapper/FraudDecisionMapper.java:14-33 | scores that already have four decimals are stored exactly, and missing ones as 0.0000 |
| FraudProcessing.ResolveMlScore | fraud-service/src/main/java/com/frauddetection/fraudservice/service/FraudProcessingService.java:129-148 | the client's score, which lies in [0, 1], when waiting for it completes; the fallback when waiting is interrupted or fails |
| FraudProcessing.AssessTransaction | fraud-service/src/main/java/com/frauddetection/fraudservice/service/FraudProcessingService.java:80-88 | the scoring steps compute the rule score, the ML request and score, the risk score and the verdict of the model |
| FraudProcessing.AssessProperties | fraud-service/src/main/java/com/frauddetection/fraudservice/service/FraudProcessingService.java:80-88 | the rule score is the engine's score at four decimals; every score lies in [0, 1]; the verdict follows the thresholds on the risk score; when no ML score is available the ML and risk scores both equal the rule score |
| FraudProcessing.InitialConsistent | fraud-service/src/main/java/com/frauddetection/fraudservice/service/FraudProcessingService.java:71-127 | the service starts with consistent records |
| FraudProcessing.ProcessedPreservesAccounted | fraud-service/src/main/java/com/frauddetection/fraudservice/service/FraudProcessingService.java:71-127 | every call, one whose commit is refused included, keeps each event describing the decision streamed with it, the counter holding exactly the streamed verdicts, and every stored decision streamed and kept under its own transaction id |
| FraudProcessing.ProcessedPreservesConsistent | fraud-service/src/main/java/com/frauddetection/fraudservice/service/FraudProcessingService.java:71-127 | a call whose commit is not refused keeps one stored decision, one event, one stream push and one counted verdict per decided transaction, each describing the same decision; a call whose commit is refused breaks this one-to-one agreement |
| FraudProcessing.StoreNewPreservesConsistent | fraud-service/src/main/java/com/frauddetection/fraudservice/service/FraudProcessingService.java:99-103 | saving, publishing, streaming and counting a decision for a transaction not stored yet keeps one record of each kind per decided transaction |
| FraudProcessing.DuplicateSkipped | fraud-service/src/main/java/com/frauddetection/fraudservice/service/FraudProcessingService.java:75-78 | a transaction already decided is skipped: nothing is assessed, saved, published, streamed or counted, and only a latency sample is added |
| FraudProcessing.PublishThenCommit | fraud-service/src/main/java/com/frauddetection/fraudservice/service/FraudProcessingService.java:75-126 | for a transaction not decided yet, exactly one event, one stream push and one counted verdict, all describing the saved decision with the assessment's scores and the assigned id and time, whatever the commit does; the decision is stored exactly when the commit takes it; a transaction already decided changes only the latency samples, which grow by one on every call |
| FraudProcessing.DuplicateAtCommitStillPublished | fraud-service/src/main/java/com/frauddetection/fraudservice/service/FraudProcessingService.java:71-123 | a delivery whose insert the unique constraint on the transaction id (fraud-service/src/main/java/com/frauddetection/fraudservice/model/FraudDecision.java:21-22) refuses at the commit has still published, streamed and counted its decision, which is not stored, and the call fails; the intended method would only add a latency sample |
| FraudProcessing.IntendedPublishOnlyAfterSave | fraud-service/src/main/java/com/frauddetection/fraudservice/service/FraudProcessingService.java:90-123 | with the duplicate caught as the `catch` means it, an event is published, a push streamed and a verdict counted exactly when a new decision is stored, one of each, all describing it; a refused insert publishes nothing |
| FraudProcessing.IntendedPreservesConsistent | fraud-service/src/main/java/com/frauddetection/fraudservice/service/FraudProcessingService.java:90-123 | with the duplicate caught as the `catch` means it, every call keeps the records consistent one to one |
| FraudProcessing.ProcessTwice | fraud-service/src/main/java/com/frauddetection/fraudservice/service/FraudProcessingService.java:72-127 | processing the same transaction twice stores one decision and publishes one event |
| FraudProcessing.SaveAndPublish | fraud-service/src/main/java/com/frauddetection/fraudservice/service/FraudProcessingService.java:90-102 | the inner block saves the decision (queuing its insert, with id and time assigned as in fraud-service/src/main/java/com/frauddetection/fraudservice/model/FraudDecision.java:130-134), publishes, streams and counts it, and then the commit stores it or throws; the records are those of one call and `failed` holds exactly when the commit is refused |
| FraudProcessing.FraudProcessingService.constructor | fraud-service/src/main/java/com/frauddetection/fraudservice/service/FraudProcessingService.java:45-69 | the service starts with no decisions, events, pushes, counts or latency samples |
| FraudProcessing.FraudProcessingService.ProcessAndPublish | fraud-service/src/main/java/com/frauddetection/fraudservice/service/FraudProcessingService.java:72-127 | the method leaves the velocity store and the service's records as the models of the feature step and of one call say, with the assessment of the transaction's features; it fails exactly when the transaction was not decided and its commit is refused |
| FraudProcessing.FraudProcessingService.DecideNew | fraud-service/src/main/java/com/frauddetection/fraudservice/service/FraudProcessingService.java:80-123 | for a transaction not decided yet, the velocity store ends as the feature step leaves it and the returned records are those of one call assessed with the features built from the store as it was, failing exactly when the commit is refused |
| FraudProcessing.AssessAndSave | fraud-service/src/main/java/com/frauddetection/fraudservice/service/FraudProcessingService.java:81-123 | assessing with given features and then saving, publishing and committing gives the records of one call with that assessment, failing exactly when the commit is refused |
| FraudProcessing.FraudProcessingService.Store | fraud-service/src/main/java/com/frauddetection/fraudservice/service/FraudProcessingService.java:99-103 | the service keeps the new records |
| TransactionMapping.ToEventLossless | transaction-service/src/main/java/com/frauddetection/transactionservice/mapper/TransactionMapper.java:27-55 | the event loses nothing: the transaction can be read back from it, and the response reports every field the event does |
| TransactionMapping.ToEntityProperties | transaction-service/src/main/java/com/frauddetection/transactionservice/mapper/TransactionMapper.java:14-25 | a new transaction is unsaved, keeps the request's ids, amount, merchant, location and device, has an upper-case currency (one sent upper-case is kept) and the requested status, RECEIVED when none is given |
| TransactionMapping.SavedFitsColumns | transaction-service/src/main/java/com/frauddetection/transactionservice/model/Transaction.java:22-45 | the transaction saved for a request fits the table exactly when the request's ids, user, merchant and device have at most 100 characters, its currency 3, its location 150 and a requested status 30, each up to trailing spaces, and its amount is less than 99999999999999999.995 in magnitude |
| TransactionMapping.UpperFitsVarchar | transaction-service/src/main/java/com/frauddetection/transactionservice/mapper/TransactionMapper.java:19 | upper-casing the currency does not change whether it fits its column |
| TransactionMapping.SavedEntity | transaction-service/src/main/java/com/frauddetection/transactionservice/model/Transaction.java:157-168 | a saved new transaction has the generated id and the save time and otherwise what the request gave |
| TransactionCreation.CreateProperties | transaction-service/src/main/java/com/frauddetection/transactionservice/service/TransactionServiceImpl.java:40-65 | a request is created exactly when its amount is positive, its transaction id is new and the saved transaction fits the table's columns; a non-positive amount is refused with its message and changes nothing; any positive amount sends exactly one record, the saved transaction's event keyed by its transaction id; a duplicate id or a value that does not fit is then refused with the conflict outcome and nothing saved; a created one is saved once and answered with what was sent |
| TransactionCreation.CreatePreservesConsistent | transaction-service/src/main/java/com/frauddetection/transactionservice/service/TransactionServiceImpl.java:40-65 | every create, a refused one included, keeps the record of every saved transaction on the topic, every record keyed by its transaction id, the saved transaction ids unique and every saved transaction within the table's columns |
| TransactionCreation.RefusedStillSent | transaction-service/src/main/java/com/frauddetection/transactionservice/model/Transaction.java:22-45 | a positive request whose transaction id is already saved, or whose values do not fit the table, is refused at the commit, yet its event has been sent: the topic gains a record whose transaction is not saved |
| TransactionCreation.LongUserIdExample | transaction-service/src/main/java/com/frauddetection/transactionservice/model/Transaction.java:25-26 | a request whose user id has 101 characters is refused with the conflict outcome: its event is sent and nothing is saved |
| TransactionCreation.CreateExample | transaction-service/src/test/java/com/frauddetection/transactionservice/service/TransactionServiceImplTest.java:1-101 | a request for 90.12 USD is answered with its id and amount, one transaction saved and one event sent |
| TransactionCreation.TransactionServiceImpl.constructor | transaction-service/src/main/java/com/frauddetection/transactionservice/service/TransactionServiceImpl.java:26-37 | the service starts with no saved transactions and no sent records |
| TransactionCreation.TransactionServiceImpl.CreateTransaction | transaction-service/src/main/java/com/frauddetection/transactionservice/service/TransactionServiceImpl.java:40-65 | the method checks, saves, sends and then commits; its new state and outcome are those of the model of one create, and nothing is left pending |
| TransactionCreation.TransactionServiceImpl.Save | transaction-service/src/main/java/com/frauddetection/transactionservice/model/Transaction.java:157-161 | the save assigns id and time and queues the insert for the commit, changing neither the saved transactions nor the topic |
| TransactionCreation.TransactionServiceImpl.Commit | transaction-service/src/main/java/com/frauddetection/transactionservice/model/Transaction.java:22-45 | the commit inserts the queued transactions exactly when each fits the table's columns and none repeats a transaction id already saved or queued before it, and otherwise inserts nothing; the queue is emptied and the topic untouched |
| TransactionCreation.InsertableSingle | transaction-service/src/main/java/com/frauddetection/transactionservice/model/Transaction.java:22-45 | one queued transaction can be inserted exactly when it fits the table's columns and its transaction id is not saved yet |
| FraudDecisionSpecifications.Select | fraud-service/src/main/java/com/frauddetection/fraudservice/repository/FraudDecisionSpecifications.java:68-82 | the query selects, in stored order, exactly the stored decisions that match every filter |
| FraudDecisionSpecifications.BuildIff | fraud-service/src/main/java/com/frauddetection/fraudservice/repository/FraudDecisionSpecifications.java:14-82 | a decision matches exactly when its user is the trimmed user filter, its verdict the decision filter, its amount within [minAmount, maxAmount] and its creation time within [from, to], both ends included, for each bound given |
| FraudDecisionSpecifications.NoFilterSelectsAll | fraud-service/src/main/java/com/frauddetection/fraudservice/repository/FraudDecisionSpecifications.java:14-82 | with every argument absent, or only a blank user id, the query selects every decision |
| FraudDecisionSpecifications.SelectAllMatching | fraud-service/src/main/java/com/frauddetection/fraudservice/repository/FraudDecisionSpecifications.java:14-82 | a filter that every stored decision matches selects all of them, in stored order |
| FraudDecisionSpecifications.SelectAppend | fraud-service/src/main/java/com/frauddetection/fraudservice/repository/FraudDecisionSpecifications.java:68-82 | the query keeps the stored order: the selection from two stretches one after the other is the selection from the first followed by that from the second |
| FraudDecisionSpecifications.SelectSingle | fraud-service/src/main/java/com/frauddetection/fraudservice/repository/FraudDecisionSpecifications.java:68-82 | a single decision is selected exactly when it matches every filter |
| FraudDecisionSpecifications.UserIdTrimmed | fraud-service/src/main/java/com/frauddetection/fraudservice/repository/FraudDecisionSpecifications.java:14-21 | spaces around the user id do not change what it selects, as long as something is left once it is trimmed |
| FraudDecisionSpecifications.ControlCharacterUserId | fraud-service/src/main/java/com/frauddetection/fraudservice/repository/FraudDecisionSpecifications.java:14-21 | the user id U+0000 is not blank but trims to the empty user id |
| FraudDecisionSpecifications.NarrowingFilter | fraud-service/src/main/java/com/frauddetection/fraudservice/repository/FraudDecisionSpecifications.java:68-82 | dropping any one filter argument keeps every decision that matched |
| FraudDecisionSpecifications.MissingFieldFailsBound | fraud-service/src/main/java/com/frauddetection/fraudservice/repository/FraudDecisionSpecifications.java:32-66 | a decision whose amount or creation time is missing fails every bound on that field |
| Dashboard.ValidationRejectsEmptyRanges | fraud-service/src/main/java/com/frauddetection/fraudservice/service/DashboardService.java:155-171 | a failing range check means no decision can match the filters; a passing one with both bounds given lets a decision at the bounds match |
| Dashboard.ToDashboardDecisions | fraud-service/src/main/java/com/frauddetection/fraudservice/service/DashboardService.java:62-65 | one row per decision, in order, each the decision's dashboard view |
| Dashboard.NewerFirstIsTotalPreorder | fraud-service/src/main/java/com/frauddetection/fraudservice/service/DashboardService.java:55 | ordering by creation time, newest first, is a total preorder |
| Dashboard.Block | fraud-service/src/main/java/com/frauddetection/fraudservice/service/DashboardService.java:52-74 | the entries of a page are those from its start position, a full page of them or all that are left, in order |
| Dashboard.PageOfProperties | fraud-service/src/main/java/com/frauddetection/fraudservice/service/DashboardService.java:52-74 | a page holds its size of entries, or all that are left from its start when fewer are, taken in order from its start; the page count covers all entries; the page is the last exactly when nothing lies beyond it |
| Dashboard.PageCovers | fraud-service/src/main/java/com/frauddetection/fraudservice/service/DashboardService.java:52-74 | the pages cover every entry: entry i is entry i mod size of page i div size |
| Dashboard.LastPage | fraud-service/src/main/java/com/frauddetection/fraudservice/service/DashboardService.java:73 | a page is at or beyond the last page exactly when its end reaches the total |
| Dashboard.FetchDecisionsPaging | fraud-service/src/main/java/com/frauddetection/fraudservice/service/DashboardService.java:39-75 | a page is refused exactly when a range is inverted; otherwise it has the floored number and size, exactly size entries or the matching decisions left from its start when fewer are, a total that counts every matching decision, a page count that covers it, and is the last exactly when no matching decision lies beyond it |
| Dashboard.FetchDecisionsContent | fraud-service/src/main/java/com/frauddetection/fraudservice/service/DashboardService.java:58-65 | every entry of a page shows a stored decision matching the filters, newest first |
| Dashboard.PageContent | fraud-service/src/main/java/com/frauddetection/fraudservice/service/DashboardService.java:55-65 | any block of the ordered result holds matching stored decisions, newest first |
| Dashboard.VerdictCountsAddUp | fraud-service/src/main/java/com/frauddetection/fraudservice/service/DashboardService.java:87-90 | the three verdict counts add up to the total |
| Dashboard.FraudRateBounds | fraud-service/src/main/java/com/frauddetection/fraudservice/service/DashboardService.java:92-94 | the fraud rate is a percentage between 0.00 and 100.00: 100.00 when every decision is flagged, 0.00 when none is |
| Dashboard.SumRiskBounds | fraud-service/src/main/java/com/frauddetection/fraudservice/service/DashboardService.java:101-104 | the sum of n risk scores in [lo, hi] lies between n·lo and n·hi |
| Dashboard.AverageRiskBetween | fraud-service/src/main/java/com/frauddetection/fraudservice/service/DashboardService.java:101-110 | the mean risk score lies between the lowest and the highest score |
| Dashboard.TruncateToMinute | fraud-service/src/main/java/com/frauddetection/fraudservice/service/DashboardService.java:115 | a time truncates to the start of its minute, also before 1970 |
| Dashboard.AddToMinuteProperties | fraud-service/src/main/java/com/frauddetection/fraudservice/service/DashboardService.java:112-118 | counting one decision keeps the minutes ascending and their counts positive, adds its minute, adds one to that minute's count and leaves every other minute's count as it was |
| Dashboard.AddToMinuteCountAt | fraud-service/src/main/java/com/frauddetection/fraudservice/service/DashboardService.java:114-117 | after counting a decision, its minute's count is one more and every other minute's count is unchanged |
| Dashboard.PerMinuteProperties | fraud-service/src/main/java/com/frauddetection/fraudservice/service/DashboardService.java:112-124 | the points are in ascending order, one per minute in which some decision was created and no other, each counting exactly the decisions created in its minute, and their counts add up to the decisions that have a creation time |
| Dashboard.PerMinuteCounts | fraud-service/src/main/java/com/frauddetection/fraudservice/service/DashboardService.java:112-124 | the count the points give a minute is the number of decisions created in it, 0 when there is none |
| Dashboard.FetchMetricsProperties | fraud-service/src/main/java/com/frauddetection/fraudservice/service/DashboardService.java:77-137 | the metrics are refused only for a start after the end; the verdict counts add up to the total; the fraud rate lies in [0.00, 100.00]; the mean risk score lies in [0, 1]; the per-minute counts add up to the total |
| Dashboard.MetricsOfProperties | fraud-service/src/main/java/com/frauddetection/fraudservice/service/DashboardService.java:87-136 | over the selected decisions the verdict counts add up to the total, the fraud rate is a percentage in [0.00, 100.00], risk scores in [0, 1] average to a score in [0, 1], and timed decisions give per-minute points in ascending minute order, each counting exactly the decisions created in its minute and together counting all of them |
| RateLimiting.NormalizeConfig | fraud-service/src/main/java/com/frauddetection/fraudservice/security/RateLimitingFilter.java:28-34 | a limit or window below 1 is raised to 1, anything else kept |
| RateLimiting.FirstSplitField | fraud-service/src/main/java/com/frauddetection/fraudservice/security/RateLimitingFilter.java:69-71 | element 0 of splitting on commas is the text before the first comma; it does not exist exactly when the header is non-empty and made of commas only |
| RateLimiting.CommaOnlyForwardedForThrows | fraud-service/src/main/java/com/frauddetection/fraudservice/security/RateLimitingFilter.java:69-71 | the header "X-Forwarded-For: ," makes the client lookup throw instead of counting the request |
| RateLimiting.SourceProperties | fraud-service/src/main/java/com/frauddetection/fraudservice/security/RateLimitingFilter.java:66-74 | the counted address is the remote address exactly when the header is missing, blank or made of commas only, else the trimmed text before its first comma; this agrees with the code as written wherever that does not throw |
| RateLimiting.ExtractWindowFromKey | fraud-service/src/main/java/com/frauddetection/fraudservice/security/RateLimitingFilter.java:90-101 | the window read from a key is a long, or -1 |
| RateLimiting.LastSeparatorBeforeTail | fraud-service/src/main/java/com/frauddetection/fraudservice/security/RateLimitingFilter.java:92 | the last colon of a key is the one before a tail without colons |
| RateLimiting.KeyRoundTrip | fraud-service/src/main/java/com/frauddetection/fraudservice/security/RateLimitingFilter.java:66-101 | the window can be read back from every key the filter builds |
| RateLimiting.ExtractWindowFailures | fraud-service/src/main/java/com/frauddetection/fraudservice/security/RateLimitingFilter.java:90-101 | a key without a colon, with nothing after its last colon, or with a non-number there has no window |
| RateLimiting.CleanupProperties | fraud-service/src/main/java/com/frauddetection/fraudservice/security/RateLimitingFilter.java:76-88 | a cleanup records the current window; in a new window it keeps exactly the counters of the previous window or later, unchanged; in a window already cleaned it changes nothing |
| RateLimiting.FilterProperties | fraud-service/src/main/java/com/frauddetection/fraudservice/security/RateLimitingFilter.java:37-64 | a skipped request changes nothing; a counted one is refused with 429 and the window length as Retry-After exactly when its key's count, one higher than before, exceeds the limit, and passed on otherwise |
| RateLimiting.FilterAsWrittenAgrees | fraud-service/src/main/java/com/frauddetection/fraudservice/security/RateLimitingFilter.java:37-74 | the filter as written fails on a request exactly when it is not skipped and its forwarded-for header is made of commas only, and then counts nothing; on every other request it agrees with the corrected filter |
| RateLimiting.CountRequestProperties | fraud-service/src/main/java/com/frauddetection/fraudservice/security/RateLimitingFilter.java:52-64 | once the key is built, the request is never skipped; it is refused with 429 exactly when the key's new count exceeds the limit, the cleanup records the window, and in a window from 1970 on the key keeps its new count |
| RateLimiting.CountedKeyKept | fraud-service/src/main/java/com/frauddetection/fraudservice/security/RateLimitingFilter.java:55-61 | counting a request records the current window as cleaned and, when the key's window is still accepted, the key keeps its count one higher than before |
| RateLimiting.CleanupKeepsAccepted | fraud-service/src/main/java/com/frauddetection/fraudservice/security/RateLimitingFilter.java:76-88 | a cleanup records the window and keeps the counter of a key whose window is the previous one or later |
| RateLimiting.WindowIsLong | fraud-service/src/main/java/com/frauddetection/fraudservice/security/RateLimitingFilter.java:52 | the window of a long epoch second is a long |
| RateLimiting.SameWindowRun | fraud-service/src/main/java/com/frauddetection/fraudservice/security/RateLimitingFilter.java:47-64 | within one window, successive requests from one client to one path are counted one by one: from a fresh counter, the first maxRequests pass and the rest are refused |
| RateLimiting.RateLimitingFilter.constructor | fraud-service/src/main/java/com/frauddetection/fraudservice/security/RateLimitingFilter.java:28-34 | the filter starts with floored settings, no counters and no cleanup |
| RateLimiting.RateLimitingFilter.DoFilter | fraud-service/src/main/java/com/frauddetection/fraudservice/security/RateLimitingFilter.java:37-64 | the filter's new counters and its outcome are those of the model of one request |
| RateLimiting.RateLimitingFilter.CleanupExpiredWindows | fraud-service/src/main/java/com/frauddetection/fraudservice/security/RateLimitingFilter.java:76-88 | the counters after a cleanup are those of the cleanup model |
| JwtTokens.NewTokenServiceProperties | transaction-service/src/main/java/com/frauddetection/transactionservice/security/JwtTokenService.java:28-39 | a service is built exactly when the secret has text and at least 32 characters; it keeps the issuer, and its tokens live at least one minute, the configured number when that is positive |
| JwtTokens.NormalizedRoles | transaction-service/src/main/java/com/frauddetection/transactionservice/security/JwtTokenService.java:101-110 | normalising never adds roles |
| JwtTokens.NormalizedRolesComplete | transaction-service/src/main/java/com/frauddetection/transactionservice/security/JwtTokenService.java:101-110 | every role with text appears in the result, trimmed and upper-cased |
| JwtTokens.NormalizedRolesSound | transaction-service/src/main/java/com/frauddetection/transactionservice/security/JwtTokenService.java:101-110 | every role in the result is the normalisation of a role with text |
| JwtTokens.NormalizedRolesCount | transaction-service/src/main/java/com/frauddetection/transactionservice/security/JwtTokenService.java:101-110 | the result is empty exactly when no role has text, and as long as the roles when all have text |
| JwtTokens.UpperKeepsVisible | transaction-service/src/main/java/com/frauddetection/transactionservice/security/JwtTokenService.java:107 | upper-casing keeps every character above U+0020 above it |
| JwtTokens.NormalizeRoleIdempotent | transaction-service/src/main/java/com/frauddetection/transactionservice/security/JwtTokenService.java:107 | normalising a role twice is normalising it once |
| JwtTokens.NormalizeNormalized | transaction-service/src/main/java/com/frauddetection/transactionservice/security/JwtTokenService.java:101-110 | normalising normalised roles drops only those left without text and keeps the others as they are |
| JwtTokens.TextRoles | transaction-service/src/main/java/com/frauddetection/transactionservice/security/JwtTokenService.java:91-93 | the roles kept are exactly the roles with text |
| JwtTokens.TextItems | transaction-service/src/main/java/com/frauddetection/transactionservice/security/JwtTokenService.java:84-89 | only the string entries of the roles claim are kept |
| JwtTokens.CheckClaimsAccepts | transaction-service/src/main/java/com/frauddetection/transactionservice/security/JwtTokenService.java:70-98 | claims are accepted exactly when the subject has text, the issuer is the configured one when one with text is configured, and the roles are a list holding at least one string with text; the principal is then the subject |
| JwtTokens.CheckClaimsRoles | transaction-service/src/main/java/com/frauddetection/transactionservice/security/JwtTokenService.java:84-98 | an accepted principal has at least one role, each trimmed and upper-case |
| JwtTokens.ParseTokenRefusals | transaction-service/src/main/java/com/frauddetection/transactionservice/security/JwtTokenService.java:58-68 | a blank token, or one that does not parse and verify, gives no principal; any other gives what its claims give |
| JwtTokens.TextItemsOfTexts | transaction-service/src/main/java/com/frauddetection/transactionservice/security/JwtTokenService.java:84-89 | the strings of a list of string claims are those strings |
| JwtTokens.IssueThenParse | transaction-service/src/main/java/com/frauddetection/transactionservice/security/JwtTokenService.java:41-99 | a token issued by a service is accepted by the same service when it verifies: for a user name with text and at least one role left with text, the principal is the user with the issued roles, less any left without text |
| JwtTokens.IssuedTokenExpiry | transaction-service/src/main/java/com/frauddetection/transactionservice/security/JwtTokenService.java:41-56 | a token expires one lifetime after it is issued, and no sooner than a minute |
| JwtTokens.NormalizeRoles | transaction-service/src/main/java/com/frauddetection/transactionservice/security/JwtTokenService.java:101-110 | the loop computes the normalised roles |
| JwtTokens.ParseTokenClaims | transaction-service/src/main/java/com/frauddetection/transactionservice/security/JwtTokenService.java:58-99 | the loop over the raw roles computes the principal the parse model gives |
| JwtAuthentication.ResolveTokenSources | fraud-service/src/main/java/com/frauddetection/fraudservice/security/JwtAuthenticationFilter.java:65-79 | a bearer header wins over the query parameter; the parameter counts on the stream path only; no token is found otherwise |
| JwtAuthentication.BearerRoundTrip | fraud-service/src/main/java/com/frauddetection/fraudservice/security/JwtAuthenticationFilter.java:66-70 | a token sent as "Bearer <token>" is found as sent, whatever the path and parameters |
| JwtAuthentication.AuthoritiesRoundTrip | fraud-service/src/main/java/com/frauddetection/fraudservice/security/JwtAuthenticationFilter.java:48-50 | each authority is its role behind the ROLE_ prefix, so the roles can be read back |
| JwtAuthentication.FilterProperties | fraud-service/src/main/java/com/frauddetection/fraudservice/security/JwtAuthenticationFilter.java:31-63 | the filter only fills an empty context: it authenticates exactly when the request is filtered, none is set yet, a token with text is found and the parser accepts it, and then with the parsed user and ROLE_ authorities in role order |
| JwtAuthentication.SecurityContext.constructor | fraud-service/src/main/java/com/frauddetection/fraudservice/security/JwtAuthenticationFilter.java:46-58 | the context holds the authentication it is given |
| JwtAuthentication.DoFilter | fraud-service/src/main/java/com/frauddetection/fraudservice/security/JwtAuthenticationFilter.java:31-63 | the context after the filter is what the filter model gives |
| Sorting.SortByStable | ml-training/model_registry/registry.py:69 | the sort is stable, as Python's `sorted` is: among the elements equivalent in order to any given one, such as versions with equal creation times, the sorted sequence keeps the input's relative order |
| ModelRegistry.MaxOf | ml-training/model_registry/registry.py:144 | the highest version number, at least every number collected, and 0 when there is none |
| ModelRegistry.NumericVersionsComplete | ml-training/model_registry/registry.py:140-143 | every version named "v" followed by digits has its number collected |
| ModelRegistry.NextVersionIsNew | ml-training/model_registry/registry.py:138-145 | the next version name is "v" followed by digits, numbered above every numbered version, so it differs from every registered name |
| ModelRegistry.NextVersionNumber | ml-training/model_registry/registry.py:138-145 | the next version name reads back as the number one above the highest registered version number |
| ModelRegistry.IndexOfVersion | ml-training/model_registry/registry.py:101 | the position of the first entry with the name, or -1 exactly when no entry has it |
| ModelRegistry.FindVersion | ml-training/model_registry/registry.py:148-152 | the loop returns the first entry with the name, or the not-found error |
| ModelRegistry.NextVersion | ml-training/model_registry/registry.py:138-145 | the loop computes the next version name |
| ModelRegistry.CreatedNoLaterIsTotalPreorder | ml-training/model_registry/registry.py:69 | ordering entries by their registration time, compared as text, is a total preorder |
| ModelRegistry.RegisterProperties | ml-training/model_registry/registry.py:22-76 | registering fails exactly when the artifact is missing or the chosen name is taken, never for a generated name; otherwise the versions are the old ones plus the new entry, in registration order, and the new version is active exactly when activation was asked for or nothing was active |
| ModelRegistry.InPermutation | ml-training/model_registry/registry.py:69 | an entry of the list before sorting is in the sorted list |
| ModelRegistry.RegisterPreservesValid | ml-training/model_registry/registry.py:22-76 | registering keeps the versions in registration order, their names unique and the active version registered |
| ModelRegistry.CountedTwice | ml-training/model_registry/registry.py:39 | an entry at two positions is counted twice |
| ModelRegistry.CountedOnce | ml-training/model_registry/registry.py:39 | in a list with unique names every entry occurs at most once |
| ModelRegistry.DistinctInPermutation | ml-training/model_registry/registry.py:68-69 | names unique before sorting stay unique after it |
| ModelRegistry.SetActiveProperties | ml-training/model_registry/registry.py:79-85 | activation fails, naming the unknown version, exactly when no version has that name; otherwise that version is active and the versions are unchanged |
| ModelRegistry.RollbackProperties | ml-training/model_registry/registry.py:88-113 | a rollback is refused, in this order, for fewer than one step, no versions, no active version, an active version not registered, and fewer than steps versions before the active one; otherwise the version steps places earlier is active and the versions are unchanged |
| ModelRegistry.RollbackInValid | ml-training/model_registry/registry.py:101-113 | in a consistent registry a rollback activates the entry steps places before the active one |
| ModelRegistry.ActivationPreservesValid | ml-training/model_registry/registry.py:79-113 | activating and rolling back keep the registry consistent |
| ModelRegistry.RegisterInTimeOrder | ml-training/model_registry/registry.py:68-69 | a version registered no earlier than every other is appended at the end |
| ModelRegistry.TwoVersionsThenRollback | ml-service/tests/test_week6_training_pipeline.py:106-130 | registering v1 and then v2 without names, in time order, and rolling back one step makes v1 active again |
| ModelRegistry.RegisterFirstExample | ml-service/tests/test_week6_training_pipeline.py:106-130 | registering into an empty registry without a name gives v1 and makes it active |
| ModelRegistry.RegisterSecondExample | ml-service/tests/test_week6_training_pipeline.py:106-130 | registering a later model after v1 gives v2, keeps the versions in time order and makes v2 active |
| ModelRegistry.RollbackExample | ml-service/tests/test_week6_training_pipeline.py:106-130 | rolling back one step from v2 activates v1 |
| ModelRegistry.RegistryStore.constructor | ml-training/model_registry/registry.py:116-130 | a new registry has no versions and nothing active |
| ModelRegistry.RegistryStore.RegisterModel | ml-training/model_registry/registry.py:22-76 | a refused registration leaves the registry file unchanged; an accepted one stores the registry of the model and returns its entry |
| ModelRegistry.RegistryStore.SetActiveVersion | ml-training/model_registry/registry.py:79-85 | a refused activation changes nothing; an accepted one stores the new active version and returns its entry |
| ModelRegistry.RegistryStore.RollbackToPrevious | ml-training/model_registry/registry.py:88-113 | a refused rollback changes nothing; an accepted one stores the new active version and returns its entry |
| TrainingFeatures.SanitizerProperties | ml-training/feature_engineering.py:159-172 | each sanitiser puts every value in its range (labels in {0, 1}, amounts not negative, frequencies in [0, 10000], probabilities in [0, 1]), turns a value that is not a number into 0, keeps a value already in range, and changes nothing when applied again |
| TrainingFeatures.TruncToIntProperties | ml-training/feature_engineering.py:160 | conversion to int drops the fraction toward zero whatever the sign, and keeps whole numbers |
| TrainingFeatures.MinuteBuckets | ml-training/feature_engineering.py:176-177 | one minute per row |
| TrainingFeatures.TransactionFrequencies | ml-training/feature_engineering.py:175-179 | one frequency per row |
| TrainingFeatures.TransactionFrequencyProperties | ml-training/feature_engineering.py:175-179 | each row's frequency counts the row itself, so it lies between 1 and the smaller of the row count and 10000; rows in the same minute get the same frequency; below the cap it is the number of rows in that minute; a time that is not a number or is negative falls in minute 0 |
| TrainingFeatures.Names | ml-training/feature_engineering.py:38 | one name per column, in order |
| TrainingFeatures.ColumnIndex | ml-training/feature_engineering.py:82-87 | the position of a column with exactly that name, or -1 exactly when there is none |
| TrainingFeatures.LowerIndex | ml-training/feature_engineering.py:53 | the column a lower-cased name picks is the last column whose lower-cased name matches, or -1 |
| TrainingFeatures.DropColumn | ml-training/feature_engineering.py:98 | dropping the target keeps exactly the other columns |
| TrainingFeatures.FirstPresent | ml-training/feature_engineering.py:86-88 | the candidate found names a column, and none is found exactly when no candidate names a column |
| TrainingFeatures.ResolveTargetColumn | ml-training/feature_engineering.py:76-94 | the loop over the candidates resolves the target as the model says |
| TrainingFeatures.ResolveTargetProperties | ml-training/feature_engineering.py:76-94 | the chosen target always names a column; an explicit target is chosen exactly when it names a column, else refused with its message; otherwise the first candidate naming a column is chosen, and the error listing the candidates is raised exactly when none does |
| TrainingFeatures.FirstPresentIsFirst | ml-training/feature_engineering.py:86-88 | no earlier candidate names a column |
| TrainingFeatures.FeatureRows | ml-training/feature_engineering.py:147-155 | one feature row per dataset row |
| TrainingFeatures.FeatureRowsInRange | ml-training/feature_engineering.py:102-116 | every built row is in the sanitisers' ranges |
| TrainingFeatures.InferenceRows | ml-training/feature_engineering.py:58-71 | one feature row per payload row, each in range |
| TrainingFeatures.RawFrequency | ml-training/feature_engineering.py:129-133 | one frequency per row |
| TrainingFeatures.BuildFeatureFrameProperties | ml-training/feature_engineering.py:97-156 | the schema is "inference_features" exactly when, besides the target, all four features are present case-insensitively; failing that an amount column gives "credit_card_raw", and without one the dataset is refused; the features are the four columns in order, one row per dataset row, each in range |
| TrainingFeatures.RawFrequencyFeature | ml-training/feature_engineering.py:129-134 | a raw dataset's frequency is the per-minute count from its time column, or 1 without one |
| TrainingFeatures.SanitizeLabels | ml-training/feature_engineering.py:159-160 | one label per cell |
| TrainingFeatures.SanitizeLabelsInRange | ml-training/feature_engineering.py:159-160 | every label is 0 or 1 |
| TrainingFeatures.SumOfBits | ml-training/feature_engineering.py:42 | the number of positive labels lies between 0 and the number of labels |
| TrainingFeatures.RatioInUnit | ml-training/feature_engineering.py:42 | the positive-class ratio lies in [0, 1] |
| TrainingFeatures.PrepareTrainingFrameProperties | ml-training/feature_engineering.py:23-44 | an empty dataset is refused first, then the target and schema errors; a prepared frame has one feature row and one 0/1 label per dataset row, records the chosen target and all source columns, and its positive-class ratio is the share of positive labels, in [0, 1] |
| TrainingFeatures.PreparedShape | ml-training/feature_engineering.py:23-44 | a prepared frame records the resolved target and every source column, with one feature row and one label per dataset row |
| TrainingFeatures.PreparedInRange | ml-training/feature_engineering.py:23-44 | a prepared frame's labels are 0 or 1, its feature rows are in range, and its positive-class ratio lies in [0, 1] |
| TrainingFeatures.PreparedLabelsInRange | ml-training/feature_engineering.py:23-44 | a prepared frame's labels are 0 or 1 and its positive-class ratio lies in [0, 1] |
| TrainingFeatures.PreparedRowsInRange | ml-training/feature_engineering.py:23-44 | every feature row of a prepared frame is in range |
| TrainingFeatures.MissingFeatures | ml-training/feature_engineering.py:55 | a feature is listed as missing exactly when no column has its name case-insensitively |
| TrainingFeatures.PrepareInferenceFrameProperties | ml-training/feature_engineering.py:47-73 | a payload is refused exactly when a feature is missing, with a message naming the missing ones in order; otherwise the four features in order, one row per payload row, each in range, the same features a training dataset with these columns and a target would get |
| TrainingFeatures.MissingIffIncomplete | ml-training/feature_engineering.py:54-55 | some feature is listed as missing exactly when the four are not all present |
| TrainingFeatures.NoneMissing | ml-training/feature_engineering.py:55 | when every feature is present none is listed as missing |
| TrainingFeatures.DropAbsent | ml-training/feature_engineering.py:98 | dropping a column that is not there changes nothing |
| TrainingFeatures.DropNoneNamed | ml-training/feature_engineering.py:98 | dropping a name that no column has leaves the columns unchanged |
| TrainingFeatures.TrainingExample | ml-service/tests/test_week6_training_pipeline.py:21-40 | labels 0, 1, 1 are kept and out-of-range inference features are clipped into range |
| DashboardApp.InitialFiltersMatchAll | frontend-dashboard/src/App.tsx:17-26 | the initial filters, every field empty, let every decision through |
| DashboardApp.LowerOfUpper | frontend-dashboard/src/App.tsx:38 | lower-casing after upper-casing is lower-casing, so the user id match ignores case |
| DashboardApp.MatchesProperties | frontend-dashboard/src/App.tsx:35-66 | the user id match ignores case in the decision and in the filter text; a missing amount is filtered as 0; amount and time bounds are inclusive, so a decision exactly at both bounds passes them as if they were not set |
| DashboardApp.UpperKeepsTrim | frontend-dashboard/src/App.tsx:38 | trimming the filter text commutes with changing its case |
| DashboardApp.UpperTrimStart | frontend-dashboard/src/App.tsx:38 | dropping leading white space commutes with upper-casing |
| DashboardApp.UpperTrimEnd | frontend-dashboard/src/App.tsx:38 | dropping trailing white space commutes with upper-casing |
| DashboardApp.UpperKeepsLeading | frontend-dashboard/src/App.tsx:38 | upper-casing keeps the number of leading white-space characters |
| DashboardApp.UpperKeepsTrailing | frontend-dashboard/src/App.tsx:38 | upper-casing keeps the number of trailing white-space characters |
| DashboardApp.NewerFirstIsTotalPreorder | frontend-dashboard/src/App.tsx:68-70 | ordering by creation time, newest first, is a total preorder, so the sort is well defined |
| DashboardApp.WithoutDuplicate | frontend-dashboard/src/App.tsx:161-167 | every row for the new decision's transaction and time is dropped and every other row is kept as often as it occurs, so the result holds no more rows than the page |
| DashboardApp.WithoutDuplicateAppend | frontend-dashboard/src/App.tsx:161-167 | the rows kept from two runs of rows are those kept from each, in order |
| DashboardApp.WithoutDuplicateSingle | frontend-dashboard/src/App.tsx:161-167 | a single row is kept exactly when it is not for the new decision's transaction and time |
| DashboardApp.SliceEnd | frontend-dashboard/src/App.tsx:171 | slicing to the page size keeps at most the rows there are, and exactly the smaller of the two for a non-negative size |
| DashboardApp.MergeShape | frontend-dashboard/src/App.tsx:156-178 | a merged page is the start, cut as the slice cuts, of a sequence that holds exactly the new decision and the other entries' rows, sorted newest first and stable among equal times; it is sorted, no longer than a non-negative size, counts one more decision, and is otherwise the page it was |
| DashboardApp.MergeRows | frontend-dashboard/src/App.tsx:161-171 | every merged row is the new decision or an old row for another entry, so the new entry appears once at most, as the new decision; a decision no older than every row is shown first whenever the page keeps a row |
| DashboardApp.NewestGoesFirst | frontend-dashboard/src/App.tsx:169-170 | after sorting, a decision no older than every other row is first |
| DashboardApp.OnStreamDecisionProperties | frontend-dashboard/src/App.tsx:149-178 | a streamed decision changes only the shown page, only on the first page, only when the applied filters let it through and a page is loaded; then the page is merged |
| DashboardApp.FilterActionsProperties | frontend-dashboard/src/App.tsx:202-215 | applying is refused when both draft dates are set and "from" is after "to", and an empty or unparsable date never refuses; otherwise the draft is applied, the first page shown and the applied range is not empty; resetting shows the first page with every decision let through |
| DashboardApp.NavigationProperties | frontend-dashboard/src/App.tsx:252-258 | "Previous" steps back one page but never below the first; "Next" does nothing on the last page and otherwise steps forward one page, which "Previous" undoes |
| DashboardApp.Dashboard.constructor | frontend-dashboard/src/App.tsx:73-77 | the component starts with empty filters, on the first page, with no page loaded |
| DashboardApp.Dashboard.ReceiveDecision | frontend-dashboard/src/App.tsx:149-178 | the stream listener updates the state as the merge model says |
| DashboardApp.Dashboard.Apply | frontend-dashboard/src/App.tsx:202-208 | the apply button updates the state as the filter model says |
| DashboardApp.Dashboard.Reset | frontend-dashboard/src/App.tsx:210-215 | the reset button restores the initial filters on the first page |
| DashboardApp.Dashboard.Previous | frontend-dashboard/src/App.tsx:252 | the previous button updates the state as the navigation model says |
| DashboardApp.Dashboard.Next | frontend-dashboard/src/App.tsx:253-258 | the next button updates the state as the navigation model says |

## Left out

- IEEE `double` arithmetic is modelled as exact reals. Rounding error, NaN propagation and `BigDecimal.valueOf(double)` conversion are not modelled. NaN and infinity appear only where the code tests for them: rule outputs and ML features. The monitor's scores arrive as `BigDecimal`, which has no NaN; one beyond the `double` range converts to an infinity, which the monitor records as 0 (`ModelQuality.DOUBLE_OVERFLOW`).
- ModelQuality.Variance: the monitor's standard-deviation gauge is stated as the variance, because `Math.sqrt` has no counterpart over Dafny reals. The square root is monotone, so the bounds and the zero case carry over.
- ModelQuality.MonitorExample: the test's "standard deviation 0.0" is proved as variance 0, for the same reason.
- Case mapping and digit tests are ASCII only. The code's `toLowerCase`/`toUpperCase`, Python's `lower()` and `isdigit()`, and JavaScript's `toLowerCase()` also map non-ASCII letters and digits. Java's whitespace test and `trim` are modelled as written: code points up to U+0020 for `trim`.
- JwtTokens.NewTokenService: the secret's length is counted in Dafny characters. Java counts UTF-16 code units, which differ only for characters outside the Basic Multilingual Plane.
- JWT signing and signature verification are an oracle, `verify: string -> Option<Claims>`. The oracle also holds the JWT library's own refusal of expired tokens, with `exp` truncated to whole seconds when the token is signed, so expiry is not modelled outside it. The fraud service's own token service is not part of this model; the filter takes its parse result as given.
- The velocity store's key expiry is not modelled: the `expire` call is a step that may fail, with no time-to-live. Store failures are a parameter naming the step that throws, and the network and the real client are left out.
- The ML client's HTTP transport, JSON binding, circuit-breaker and retry state machines, thread pool and latency timer are left out. A call is an outcome value: a response with status and body, or an exception kind.
- The processing timer's measured durations, counters other than the decision counter, gauges and logging are left out. That one latency sample is recorded on every exit path is modelled, as the `latencySamples` count.
- Instants are integers. Operations that the code would overflow as `long` require `IsLong` (the window arithmetic in the rate limiter, the velocity window bounds). `Instant.now()`, random UUIDs and the clock are parameters.
- Concurrency is modelled sequentially. This covers the monitor's `synchronized` methods, the rate limiter's concurrent map and atomic counters, duplicate concurrent deliveries, and the stream's emitter list. Whether the commit's unique constraint refuses the new decision, because a concurrent delivery of the same transaction committed first, is a parameter outcome of the commit; the concurrent delivery's own call is a separate call of the model.
- In the orchestrator, exceptions other than the unique-constraint violation at the commit are not modelled. Publishing and streaming are appends that do not fail, and the commit's rollback does not undo them. What the consumer's error handling does with the failed call (a retry of the delivery) is not part of this model.
- The fraud-service `FraudDecision` entity and `FraudDecisionEvent` as written lack the amount, currency, merchant and location fields that the mapper sets and the dashboard reads. The model gives the decision those fields, as the mapper and dashboard code use them.
- The model-quality monitor is a separate service, because the orchestrator never calls it.
- Dashboard.FetchDecisions: decisions with the same creation time are returned in stored order. The database's order among equal times is unspecified, so only "newest first" is a property of the source.
- Kafka send failures on the transaction service, and the rollback of the save that they would cause, are not modelled. A second transaction with the same id, or one with a value that does not fit its column, is refused at the commit, after its event has been sent (`TransactionCreation.RefusedStillSent`); the 409 answer is the `Conflict` outcome.
- TransactionCreation.CreateProperties, TransactionCreation.TransactionServiceImpl.Commit: the `numeric(19, 2)` amount column rounds the stored amount to cents; the model keeps the amount as given, which is also what the response and the event carry. The transaction saved in the model is the entity in memory, and the column's cutting of trailing spaces beyond its length is not applied to it either. Lengths are counted in Unicode characters, as PostgreSQL counts them for a UTF-8 database. Values PostgreSQL refuses for other reasons, such as a NUL character, are not modelled.
- The bean validation of the request record at the controller (required fields, an amount of at least 0.01, a currency of three capital letters) is not part of this model; `TransactionCreation` starts at the service, which checks only the amount.
- RateLimiting.FilterProperties: states the corrected filter, which counts a request whose `X-Forwarded-For` header is made of commas only against the remote address. The filter as written fails on such a request instead; that filter is `RateLimiting.FilterAsWritten`, and `RateLimiting.FilterAsWrittenAgrees` proves the two differ on exactly those requests.
- RateLimiting.SameWindowRun: runs the corrected filter, for the same reason. It repeats one request; unless that request's `X-Forwarded-For` header is made of commas only, each step is also the filter as written, by `RateLimiting.FilterAsWrittenAgrees`, and otherwise each step fails as written.
- RateLimiting.RateLimitingFilter.DoFilter: the class runs the corrected filter, for the same reason.
- The model registry's file copies, directory creation, path resolution, JSON reading and writing, and `promote_to_active` are left out. Whether the source artifact exists is a parameter. The registration time is given as its ISO-8601 text.
- `percentile_rank` and the `v`-column risk signals of the raw credit-card schema are left out, because they are pandas ranking over floats. Their per-row results are parameters of the feature frame.
- pandas' numeric coercion is modelled by a cell that is either a finite number or not numeric. `pd.to_numeric` also parses texts such as `"inf"` to an infinity, and `astype(int)` converts to 64-bit integers; neither infinities nor the 64-bit range are modelled, as the four lines below say.
- TrainingFeatures.TruncToInt: exact truncation toward zero of any real. `astype(int)` agrees only for magnitudes below 2^63. Beyond that numpy's cast is platform-defined: on x86 it gives -2^63, on saturating platforms the nearest 64-bit bound. An infinity makes `astype(int)` raise.
- TrainingFeatures.TruncToIntProperties: states truncation for every real, so it is weaker than the source only outside the 64-bit range, where the source's result is platform-defined, and for infinities, where the source raises.
- TrainingFeatures.SanitizeLabel, TrainingFeatures.SanitizeFrequency: a cell of magnitude 2^63 or more gives label 1 or 0 and frequency 10000 or 0 by its sign. On x86 the source gives -2^63 and then 0 for both after clipping. A cell holding an infinity makes the source raise, and the model has no such cell.
- TrainingFeatures.SanitizeAmount: a cell holding positive infinity is kept as infinity by the source. The model's cells are finite, so every amount it produces is a finite real. Duplicate column names and payloads given as lists of records or as dictionaries of columns are not modelled; a payload is a table.
- The dashboard's rendering, effects, stream connection, metrics loading and API client are left out. Dates are parsed times in milliseconds, or a text that parses to NaN.

## Behaviour worth knowing

- A user id filter of `"\0"` is not blank to Java's `isBlank`, but `trim` turns it into the empty string. The repository then asks for decisions whose user id is empty (`FraudDecisionSpecifications.ControlCharacterUserId`).
- A role made only of control characters is not blank to `isBlank`, and `trim` turns it into the empty string. Such a role is issued as an empty role, and the empty role is dropped when the token is parsed (`JwtTokens.NormalizeNormalized`, `JwtTokens.IssueThenParse`).
- Before 1970 the rate limiter's window number is negative. The cleanup that runs on the first request of such a window drops every key, including the one just counted, so that window lets one request more than the limit through (`RateLimiting.FilterProperties` states that the key keeps its count only for windows from 1970 on).
- The transaction service sends a transaction's event before the commit that inserts it. A second request with a transaction id already saved is answered with 409, but its event is already on the topic, though no transaction backs it (`TransactionCreation.RefusedStillSent`). The same holds for a request whose user, merchant, device or transaction id is longer than 100 characters, or whose location is longer than 150: the request record checks none of these lengths, the table refuses them only at the commit, and the answer is the same 409 (`TransactionCreation.LongUserIdExample`).
- The fraud service inserts a decision when its transaction commits, after the method has published, streamed and counted it. Two concurrent deliveries of the same transaction both pass the check for an existing decision; the second one's insert is refused at the commit, outside the `catch` meant for it, so its decision is published, streamed and counted though it is not stored, and the call fails (`FraudProcessing.DuplicateAtCommitStillPublished`).
- The registry counts a version as numbered only when it is `v` followed by ASCII digits. Python's `isdigit` also accepts other Unicode digits.

## Findings

| source | as written | input that shows it | evidently intended | confidence | as-written member | corrected member |
|---|---|---|---|---|---|---|
| fraud-service/src/main/java/com/frauddetection/fraudservice/security/RateLimitingFilter.java:69-71 | a non-blank `X-Forwarded-For` header is split on commas and its first entry taken; for a header made only of commas, `split` returns an empty array and the lookup throws, so the request fails instead of being counted | `X-Forwarded-For: ,` | count the request against the remote address, as for a missing or blank header | not executed | RateLimiting.SourceAsWritten, RateLimiting.CommaOnlyForwardedForThrows, RateLimiting.FilterAsWritten, RateLimiting.FilterAsWrittenAgrees | RateLimiting.Source, RateLimiting.SourceProperties, RateLimiting.Filter |
| fraud-service/src/main/java/com/frauddetection/fraudservice/service/FraudProcessingService.java:98-123 | the decision's id is assigned on persist (`FraudDecision` has no id generator), so `save` only queues the insert and the unique constraint on the transaction id is checked at the commit of the `@Transactional` method; that is after the publish, the stream push and the counter, and outside the `catch` of the duplicate, which never sees it | two deliveries of one transaction that both find no decision at line 75 before either commits | a duplicate is caught and logged and nothing is published for it | not executed | FraudProcessing.Processed, FraudProcessing.DuplicateAtCommitStillPublished | FraudProcessing.ProcessedIntended, FraudProcessing.IntendedPublishOnlyAfterSave, FraudProcessing.IntendedPreservesConsistent |

The orchestrator class follows the code as written (`FraudProcessing.Processed`); `FraudProcessing.ProcessedIntended` differs from it exactly on the calls whose commit is refused.
