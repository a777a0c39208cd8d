# Fraud detection engine and dashboard views, modelled in Dafny

This project models three parts of an AI banking fraud-detection system:

- **The backend risk-scoring engine** (`FraudDetectionMLModel`).
  - A fixed table of eight feature weights.
  - Two keyword classifiers: one for merchant names, one for locations.
  - `predict` walks eight rules in a fixed order. Each rule adds at most one `weight × multiplier` term to a running score and pushes one explanation when it does. The score is then clamped to [0, 1]. The transaction is called fraudulent when the unrounded score exceeds 0.5. Confidence is `|score − 0.5| · 2`. Both numbers are rounded to three decimals.
  - `trainModel` groups amounts by merchant and by location, then marks the engine trained.
  - `evaluateModel` builds a confusion matrix and derives accuracy, precision, recall and F1.
- **`parseCSV`**, shared by the two dashboard pages.
  - The trimmed text is split into lines.
  - The first line gives the trimmed header cells.
  - Every later line with as many cells as there are headers becomes a header→value record.
- **The dashboard views over the parsed rows.**
  - The case-insensitive search filters.
  - The risk-profile pie chart (High / Medium / Low counts).
  - The transaction-type pie chart, a tally into a dictionary keyed by type.

Modules follow the program's structure:

- `Text`: the JavaScript string operations used. These are `trim`, `toLowerCase`, `includes` and `split`. The source never joins; `Join` exists only to state that splitting loses nothing.
- `RiskCurves`: the two classifiers.
- `Scoring`: the rules as functions. This module defines `Prediction`, the specification `predict` is proved against.
- `Metrics`: the confusion matrix and the scores.
- `Engine`: the `FraudDetectionModel` class, with its `Train`, `Predict` and `Evaluate` methods, and the grouping loop.
- `Filtering`: `Array.prototype.filter`.
- `Csv`: the `ParseCsv` method and its specification `Parsed`.
- `Dashboard`: the search filters and the two charts, including the `TransactionTypeData` tally method.

Modelling choices:

- **Arithmetic** is on `real`, so it is exact.
  - Every weight × multiplier under the default table is a whole number of thousandths.
  - Rounding to three decimals is `floor(x·1000 + 0.5)/1000`.
- **Clock and random inputs become a `Context` parameter.** These are the hour and weekday from `new Date`, and the three `Math.random()` history features. Each is bounded as the source produces it.
- **JavaScript semantics are kept where they matter.**
  - 0/0 is NaN. Every ratio of the evaluation has its numerator bounded by its denominator, so no other division by zero (such as 1/0, which is Infinity) can occur. For example, accuracy with no test transactions is NaN, not 0.
  - A missing label reads as `undefined`, which counts as false.
  - A missing record field never matches a search (the `?.` chain).

## Model

| member | source | states |
|---|---|---|
| Engine.FraudDetectionModel.constructor | ai-fraud-detection/backend/src/services/ml-service/FraudDetectionMLModel.ts:26-38 | A new engine holds the default weight table, which is valid, and is not trained |
| Scoring.DefaultWeightsValid | ai-fraud-detection/backend/src/services/ml-service/FraudDetectionMLModel.ts:28-37 | The eight default weights are non-negative and add up to exactly 1.0 |
| RiskCurves.MerchantRisk | ai-fraud-detection/backend/src/services/ml-service/FraudDetectionMLModel.ts:211-226 | The merchant risk is always 0.8, 0.5 or 0.1 |
| RiskCurves.MerchantRiskTiers | ai-fraud-detection/backend/src/services/ml-service/FraudDetectionMLModel.ts:211-226 | 0.8 iff the lower-cased merchant contains a high-risk keyword; 0.5 iff it contains none of those but a medium-risk one; 0.1 iff it contains none of either |
| RiskCurves.LocationRisk | ai-fraud-detection/backend/src/services/ml-service/FraudDetectionMLModel.ts:231-246 | The location risk is always 0.9, 0.6 or 0.2 |
| RiskCurves.LocationRiskTiers | ai-fraud-detection/backend/src/services/ml-service/FraudDetectionMLModel.ts:231-246 | 0.9 iff the lower-cased location contains a high-risk keyword; 0.6 iff it contains none of those but a medium-risk one; 0.2 otherwise |
| RiskCurves.CaseInsensitive | ai-fraud-detection/backend/src/services/ml-service/FraudDetectionMLModel.ts:217-241 | Both classifiers give the same answer for a text and for its lower-cased form |
| RiskCurves.RiskWiden | ai-fraud-detection/backend/src/services/ml-service/FraudDetectionMLModel.ts:219-241 | Adding text around a merchant or location never lowers its risk |
| RiskCurves.DowntownCasino | ai-fraud-detection/backend/src/services/ml-service/FraudDetectionMLModel.ts:214-220 | "Downtown Casino" is a high-risk merchant (0.8) |
| RiskCurves.JewelryStore | ai-fraud-detection/backend/src/services/ml-service/FraudDetectionMLModel.ts:214-220 | "Jewelry Store" is a high-risk merchant (0.8) |
| RiskCurves.Starbucks | ai-fraud-detection/backend/src/services/ml-service/FraudDetectionMLModel.ts:214-224 | "Starbucks" matches no keyword and is low-risk (0.1) |
| RiskCurves.LagosNigeria | ai-fraud-detection/backend/src/services/ml-service/FraudDetectionMLModel.ts:234-240 | "Lagos, Nigeria" is a high-risk location (0.9) |
| RiskCurves.SeattleWa | ai-fraud-detection/backend/src/services/ml-service/FraudDetectionMLModel.ts:234-244 | "Seattle, WA" matches no keyword (0.2) |
| RiskCurves.MiamiFl | ai-fraud-detection/backend/src/services/ml-service/FraudDetectionMLModel.ts:234-244 | "Miami, FL" matches no keyword (0.2) |
| Scoring.ExtractFeatures | ai-fraud-detection/backend/src/services/ml-service/FraudDetectionMLModel.ts:178-206 | The feature vector keeps the amount. The hour is in 0..23 and the weekday in 0..6. Merchant and location risk take only their three tier values. Deviation and velocity are in [0,1) and frequency is in 0..9 |
| Engine.FraudDetectionModel.ApplyRule | ai-fraud-detection/backend/src/services/ml-service/FraudDetectionMLModel.ts:95-156 | One rule section adds exactly that rule's term to the running score and appends exactly that rule's explanation, if any |
| Scoring.Rule | ai-fraud-detection/backend/src/services/ml-service/FraudDetectionMLModel.ts:95-156 | A rule that fires has a multiplier in (0, 0.9] and an explanation belonging to the rule's own feature |
| Scoring.Term | ai-fraud-detection/backend/src/services/ml-service/FraudDetectionMLModel.ts:95-156 | A rule that does not fire adds nothing to the score |
| Scoring.TermBound | ai-fraud-detection/backend/src/services/ml-service/FraudDetectionMLModel.ts:95-156 | With any valid weights a rule adds between 0 and 0.9 times its feature's weight |
| Scoring.ExplanationsFaithful | ai-fraud-detection/backend/src/services/ml-service/FraudDetectionMLModel.ts:95-156 | There are at most 8 explanations, in feature order (amount, hour, day, merchant, location, behaviour, frequency, velocity). Each is the explanation of a rule that fired, and a rule fires iff an explanation for its feature is present |
| Scoring.DefaultTermIffExplained | ai-fraud-detection/backend/src/services/ml-service/FraudDetectionMLModel.ts:95-156 | Under the default weights a feature adds a positive term exactly when its explanation is pushed |
| Scoring.RawScoreInRange | ai-fraud-detection/backend/src/services/ml-service/FraudDetectionMLModel.ts:95-159 | With any non-negative weights summing to 1 the accumulated score lies in [0, 0.9], so the clamp changes nothing |
| Scoring.DefaultRawScore | ai-fraud-detection/backend/src/services/ml-service/FraudDetectionMLModel.ts:95-159 | Under the default weights the accumulated score is at most 0.757 (the upper clamp never fires) and is a whole number of thousandths |
| Scoring.CeilingReached | ai-fraud-detection/backend/src/services/ml-service/FraudDetectionMLModel.ts:95-156 | The bound 0.757 is attained: a $3000 casino payment from Lagos at 23:00 on a Sunday with maximal history features scores exactly 0.757 |
| Scoring.Round3 | ai-fraud-detection/backend/src/services/ml-service/FraudDetectionMLModel.ts:169-170 | Rounding to three decimals gives a whole number of thousandths, moves a value by at most half a thousandth, and keeps [0,1] values in [0,1] |
| Scoring.RoundThousandths | ai-fraud-detection/backend/src/services/ml-service/FraudDetectionMLModel.ts:169-170 | A whole number of thousandths is unchanged by the rounding |
| Scoring.ConfidenceThousandths | ai-fraud-detection/backend/src/services/ml-service/FraudDetectionMLModel.ts:165-170 | The confidence of a whole-thousandths score is a whole number of thousandths |
| Scoring.Conclude | ai-fraud-detection/backend/src/services/ml-service/FraudDetectionMLModel.ts:158-172 | isFraud iff the clamped, unrounded score exceeds 0.5. Both outputs lie in [0,1]. The reported score is at least 0.5 when fraud is decided and at most 0.5 otherwise. The explanations pass through unchanged |
| Scoring.Prediction | ai-fraud-detection/backend/src/services/ml-service/FraudDetectionMLModel.ts:83-173 | For any weights both reported numbers lie in [0,1], the reported score is on the side of 0.5 the decision took, and there are at most 8 explanations |
| Scoring.PredictionBounds | ai-fraud-detection/backend/src/services/ml-service/FraudDetectionMLModel.ts:158-172 | For any valid weights, isFraud holds iff the unrounded score exceeds 0.5. Score and confidence lie in [0,1]. The explanations are the rule explanations, at most 8 |
| Scoring.DefaultPrediction | ai-fraud-detection/backend/src/services/ml-service/FraudDetectionMLModel.ts:158-172 | Under the default weights the reported riskScore is the exact accumulated score, at most 0.757. isFraud iff riskScore > 0.5, and confidence is exactly abs(riskScore − 0.5)·2 |
| Scoring.DecidedBeforeRounding | ai-fraud-detection/backend/src/services/ml-service/FraudDetectionMLModel.ts:159-170 | A score of 0.5002 is fraud although it is reported as 0.5: the decision precedes rounding |
| Scoring.NightJewelryScenario | ai-fraud-detection/backend/src/services/ml-service/FraudDetectionMLModel.ts:83-173 | $2500 at a jewelry store in Miami at 03:00 on a Saturday is fraud with score 0.515 and confidence 0.03. It carries the high-amount, unusual-hour, weekend and high-risk-merchant explanations, in that order |
| Scoring.DaytimeCoffeeScenario | ai-fraud-detection/backend/src/services/ml-service/FraudDetectionMLModel.ts:83-173 | $45.99 at Starbucks in Seattle at 14:00 on a Wednesday is not fraud, with score 0, confidence 1 and no explanations |
| Engine.FraudDetectionModel.Predict | ai-fraud-detection/backend/src/services/ml-service/FraudDetectionMLModel.ts:83-173 | The step-by-step method returns exactly `Prediction` of the engine's weights, for any training state. With a valid weight table, as every engine holds, isFraud holds iff the accumulated score exceeds 0.5, so the clamp never decides |
| Engine.GroupAmounts | ai-fraud-detection/backend/src/services/ml-service/FraudDetectionMLModel.ts:57-72 | The grouping loop builds exactly `Grouped` of the transactions |
| Engine.GroupedMeaning | ai-fraud-detection/backend/src/services/ml-service/FraudDetectionMLModel.ts:57-72 | Each key of the grouping holds exactly the amounts of the transactions with that key, in order, and every key has at least one |
| Engine.GroupedKeys | ai-fraud-detection/backend/src/services/ml-service/FraudDetectionMLModel.ts:57-72 | The grouping's keys are exactly the merchants (or locations) that occur |
| Engine.AsWrittenAgrees | ai-fraud-detection/backend/src/services/ml-service/FraudDetectionMLModel.ts:57-72 | The grouping over a plain object succeeds iff no key is an `Object.prototype` member name, and it then equals the intended grouping |
| Engine.ConstructorMerchantBreaksTraining | ai-fraud-detection/backend/src/services/ml-service/FraudDetectionMLModel.ts:58-63 | As written, a single transaction at a merchant named "constructor" stops `trainModel` before it sets `modelTrained` |
| Engine.GroupedAsWrittenUpTo | ai-fraud-detection/backend/src/services/ml-service/FraudDetectionMLModel.ts:57-72 | The as-written grouping over a plain object fails (the TypeError) only when some key seen so far is an `Object.prototype` member name |
| Engine.FraudDetectionModel.Train | ai-fraud-detection/backend/src/services/ml-service/FraudDetectionMLModel.ts:50-78 | Training always ends with the engine marked trained, for any batch including the empty one, and keeps the engine's valid weight table. The weights are constant, so predictions do not change and training again changes nothing |
| Metrics.CountMeaning | ai-fraud-detection/backend/src/services/ml-service/FraudDetectionMLModel.ts:295-304 | Each step raises exactly one counter by one, the one selected by predicted / actual |
| Metrics.TallyMeaning | ai-fraud-detection/backend/src/services/ml-service/FraudDetectionMLModel.ts:291-305 | The four counters sum to the number of test transactions. TP+FP is the number of positive predictions, TP+FN the number of positive labels, and TP+TN the number of agreements |
| Engine.CountOutcomes | ai-fraud-detection/backend/src/services/ml-service/FraudDetectionMLModel.ts:291-305 | The counting loop computes exactly `Tally` of the predictions and labels |
| Metrics.Ratio | ai-fraud-detection/backend/src/services/ml-service/FraudDetectionMLModel.ts:307-310 | A part-of-whole ratio is NaN (JavaScript's 0/0) iff its denominator is 0, and otherwise lies in [0,1] |
| Metrics.AccuracyMeaning | ai-fraud-detection/backend/src/services/ml-service/FraudDetectionMLModel.ts:307-313 | Accuracy is NaN exactly when there were no test transactions, and otherwise lies in [0,1] |
| Metrics.PrecisionRecallMeaning | ai-fraud-detection/backend/src/services/ml-service/FraudDetectionMLModel.ts:308-315 | Precision and recall lie in [0,1] and are 0 whenever their denominator is 0 |
| Metrics.F1Range | ai-fraud-detection/backend/src/services/ml-service/FraudDetectionMLModel.ts:310-316 | The harmonic mean of two values in [0,1] lies in [0,1], and so does its NaN-to-0 form |
| Metrics.F1Meaning | ai-fraud-detection/backend/src/services/ml-service/FraudDetectionMLModel.ts:310-316 | F1 lies in [0,1] and is 0 when there is no true positive |
| Metrics.ScoresMeaning | ai-fraud-detection/backend/src/services/ml-service/FraudDetectionMLModel.ts:307-316 | All four reported scores lie in [0,1]. Accuracy is NaN iff the matrix is empty. Precision, recall and F1 are 0 when undefined |
| Metrics.Scores | ai-fraud-detection/backend/src/services/ml-service/FraudDetectionMLModel.ts:307-316 | Every reported score lies in [0,1] wherever it is a number |
| Metrics.AllAgreeAccuracy | ai-fraud-detection/backend/src/services/ml-service/FraudDetectionMLModel.ts:307-313 | A non-empty matrix without false positives or negatives has accuracy 1 |
| Metrics.PerfectPredictions | ai-fraud-detection/backend/src/services/ml-service/FraudDetectionMLModel.ts:284-316 | Predictions matching every label give no false positive, no false negative and accuracy 1 |
| Metrics.MixedExample | ai-fraud-detection/backend/src/services/ml-service/FraudDetectionMLModel.ts:307-316 | TP=2, FP=1, TN=1, FN=0 reports 0.75, 0.667, 1 and 0.8. F1 uses the unrounded precision |
| Metrics.AllNegativeExample | ai-fraud-detection/backend/src/services/ml-service/FraudDetectionMLModel.ts:307-316 | Three true negatives report accuracy 1 and precision, recall and F1 of 0 |
| Engine.FraudDetectionModel.Evaluate | ai-fraud-detection/backend/src/services/ml-service/FraudDetectionMLModel.ts:278-317 | `evaluateModel` returns exactly the scores of the tally of the engine's decisions against the labels |
| Csv.Lines | ai-fraud-detection/frontend/src/components/EnhancedDashboard/EnhancedDashboard.tsx:78 | Splitting the trimmed text always gives at least one line, so the header line always exists |
| Csv.LinesJoin | ai-fraud-detection/frontend/src/components/EnhancedDashboard/EnhancedDashboard.tsx:78 | The lines are the whole trimmed text: joined with newlines they give it back |
| Csv.Cells | ai-fraud-detection/frontend/src/components/EnhancedDashboard/EnhancedDashboard.tsx:83 | Every line, even an empty one, gives at least one cell |
| Csv.CellsHaveNoComma | ai-fraud-detection/frontend/src/components/EnhancedDashboard/EnhancedDashboard.tsx:83 | No cell contains a comma |
| Csv.CellsOfPlainLine | ai-fraud-detection/frontend/src/components/EnhancedDashboard/EnhancedDashboard.tsx:83 | A line without a comma is a single cell, its trimmed text |
| Csv.Parsed | ai-fraud-detection/frontend/src/components/EnhancedDashboard/EnhancedDashboard.tsx:77-95 | The parse has at most one record per line after the header |
| Csv.ParseCsv | ai-fraud-detection/frontend/src/components/EnhancedDashboard/EnhancedDashboard.tsx:77-95 | The loop returns exactly `Parsed` of the text: the records of the data lines that fit the header |
| Csv.BuildRecord | ai-fraud-detection/frontend/src/components/EnhancedDashboard/EnhancedDashboard.tsx:85-89 | The `headers.forEach` loop builds exactly `RecordOf` of the headers and the line's cells |
| Csv.RecordOfMeaning | ai-fraud-detection/frontend/src/components/EnhancedDashboard/EnhancedDashboard.tsx:85-89 | A fitting line's record has exactly the header names as keys. Each key holds the cell of the last column of that name, and every value is one of the cells (never undefined) |
| Csv.CellsTrimmed | ai-fraud-detection/frontend/src/components/EnhancedDashboard/EnhancedDashboard.tsx:83 | Every cell is trimmed text |
| Csv.ParsedOrder | ai-fraud-detection/frontend/src/components/EnhancedDashboard/EnhancedDashboard.tsx:82-92 | Record j comes from data line Kept[j]. These positions increase, and a data line is used iff its cell count equals the header count |
| Csv.ParsedShape | ai-fraud-detection/frontend/src/components/CustomerAnalysis/CustomerAnalysis.tsx:86-104 | There are at most lines−1 records. Each record's keys are exactly the trimmed header cells, and each value is trimmed |
| Csv.ParsedHasNoComma | ai-fraud-detection/frontend/src/components/EnhancedDashboard/EnhancedDashboard.tsx:82-92 | No value in a parsed record contains a comma |
| Csv.ParsedOfTrimmed | ai-fraud-detection/frontend/src/components/CustomerAnalysis/CustomerAnalysis.tsx:87-92 | Surrounding white space, and in particular a trailing newline, does not change the parse |
| Dashboard.SearchEmpty | ai-fraud-detection/frontend/src/components/CustomerAnalysis/CustomerAnalysis.tsx:72-73 | An empty search term yields its input unchanged |
| Dashboard.Search | ai-fraud-detection/frontend/src/components/EnhancedDashboard/EnhancedDashboard.tsx:136-162 | A search never returns more rows than it was given |
| Dashboard.FilteredCustomers | ai-fraud-detection/frontend/src/components/EnhancedDashboard/EnhancedDashboard.tsx:136-144 | The customer search returns at most the given customers |
| Dashboard.FilteredTransactions | ai-fraud-detection/frontend/src/components/EnhancedDashboard/EnhancedDashboard.tsx:146-162 | The transaction and fraud-case search returns at most the given rows |
| Dashboard.SearchMeaning | ai-fraud-detection/frontend/src/components/EnhancedDashboard/EnhancedDashboard.tsx:136-162 | A non-empty search returns the order-preserving subsequence of exactly the rows where a listed field contains the term, ignoring case |
| Dashboard.SearchCaseInsensitive | ai-fraud-detection/frontend/src/components/EnhancedDashboard/EnhancedDashboard.tsx:139-142 | Lower-casing the search term does not change the result |
| Dashboard.CustomerMatch | ai-fraud-detection/frontend/src/components/CustomerAnalysis/CustomerAnalysis.tsx:75-81 | A customer matches iff its name, city, account_type or risk_profile contains the term; a missing field does not match |
| Dashboard.TransactionMatch | ai-fraud-detection/frontend/src/components/EnhancedDashboard/EnhancedDashboard.tsx:146-162 | A transaction or fraud case matches iff its transaction_id, customer_id or transaction_type contains the term |
| Dashboard.RiskCountsMeaning | ai-fraud-detection/frontend/src/components/CustomerAnalysis/CustomerAnalysis.tsx:171-225 | The exact-equality counts of High, Medium and Low add up to the number of customers graded with one of them, at most all customers |
| Dashboard.RiskCount | ai-fraud-detection/frontend/src/components/EnhancedDashboard/EnhancedDashboard.tsx:104-106 | A level's count is at most the number of customers |
| Dashboard.RiskProfileData | ai-fraud-detection/frontend/src/components/EnhancedDashboard/EnhancedDashboard.tsx:103-113 | The chart has three slices, none counting more customers than there are |
| Dashboard.RiskProfileDataMeaning | ai-fraud-detection/frontend/src/components/EnhancedDashboard/EnhancedDashboard.tsx:103-113 | The chart has three slices whose values sum to at most the customer count, and to exactly it when every customer is graded |
| Dashboard.TransactionTypeData | ai-fraud-detection/frontend/src/components/EnhancedDashboard/EnhancedDashboard.tsx:116-131 | The `forEach` tally and the entries mapping return exactly `TypeData` of the transactions |
| Dashboard.TypeData | ai-fraud-detection/frontend/src/components/EnhancedDashboard/EnhancedDashboard.tsx:116-131 | The chart has at most one slice per transaction |
| Dashboard.TypeDataNames | ai-fraud-detection/frontend/src/components/EnhancedDashboard/EnhancedDashboard.tsx:117-126 | There is one slice per distinct non-empty type, no type twice, and a type has a slice iff some transaction has it |
| Dashboard.TypeDataValues | ai-fraud-detection/frontend/src/components/EnhancedDashboard/EnhancedDashboard.tsx:119-130 | Each slice holds the number of transactions of its type, at least 1, and slice i has colour COLORS[i mod 6] |
| Dashboard.TypeDataTotal | ai-fraud-detection/frontend/src/components/EnhancedDashboard/EnhancedDashboard.tsx:119-124 | The slice values add up to the number of transactions with a non-empty type |

## Left out

- Floating point: scores are exact reals, and `toFixed(3)` is round-half-up on exact thousandths. IEEE doubles are not modelled, neither in the weighted sum of `predict` nor in the evaluation ratios. In particular the reported evaluation scores can differ from the source by one thousandth when the exact value is a decimal tie. For example, accuracy 7/80 = 0.0875 is stored as the double just below it, so the source reports 0.087 where the model gives 0.088; likewise F1 for TP=3, FP=7, FN=19 is exactly 0.1875, reported as 0.187 by the source and 0.188 by the model.
- Explanation text: each explanation is a tag carrying the quoted amount, hour, merchant or location, not the formatted message with `toFixed(2)`.
- Clock and randomness: `new Date(...).getHours()/getDay()` and the three `Math.random()` helpers are the `Context` parameter. The host time zone and the random distribution are not modelled.
- `Engine.FraudDetectionModel.Predict`: the "model not trained" console warning is not modelled; it is output only.
- Logging: `console.log` in `trainModel` is left out.
- `getInstance`: the singleton accessor is left out. The model's class has a public constructor instead.
- `Engine.FraudDetectionModel.Train`: this models the intended grouping over a dictionary holding only its own keys. The as-written behaviour over a plain object is modelled separately (see Findings). `async` and the resolved promise are not modelled.
- Dashboard dictionaries: `typeCounts` and the parsed records are plain objects in the source. Keys that name `Object.prototype` members are not modelled there; the model treats both as dictionaries of their own keys.
- Key order: `Object.entries` lists integer-like keys first, in numeric order. The model lists types in first-insertion order, which differs only for integer-like type names.
- `Text.Lower`: `toLowerCase` is modelled on ASCII letters only. Other characters are left unchanged, with no Unicode case mapping.
- `Text.Split`: only `split` with a one-character separator is modelled, which is all the source uses.
- React glue: state hooks, `fetch` of the CSV files, the effects' scheduling, `formatCurrency`, the fraud-amount sum and all rendering are left out.
- The backend service, controller, persistence, WebSocket and chatbot layers are outside this model.

## Findings

| source | as written | input that shows it | evidently intended | confidence | as-written member | corrected member |
|---|---|---|---|---|---|---|
| ai-fraud-detection/backend/src/services/ml-service/FraudDetectionMLModel.ts:57-72 | The amounts are grouped in `{}` with `if (!merchantAmounts[tx.merchant])`. A key such as "constructor" or "toString" reads the inherited `Object.prototype` member, which is truthy, so no array is created. The `.push` then throws a TypeError, and `modelTrained` is never set | One transaction whose merchant is "constructor" | Group into a dictionary of own keys (e.g. `Object.create(null)` or a `Map`), so every batch trains | not executed | Engine.ConstructorMerchantBreaksTraining | Engine.GroupAmounts |
