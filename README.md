# Cannabinoid extraction analytics — a Dafny model

This project models the deterministic core of a Streamlit dashboard for a cannabinoid extraction lab.
The core covers five things:

- **Derived metrics per batch.** Total cannabinoids, total THC, degradation index and isomerization ratio, written into the batch dictionary.
- **Extraction optimiser.** A heuristic efficiency prediction while untrained, and a fixed grid search for the best temperature, time and rpm.
- **Degradation predictor.** First-order THC decay per storage condition, CBN formed from the THC lost, shelf-life estimates and storage recommendations.
- **Rule-based checks.** The anomaly detector's untrained rule, and the potency grade and hemp compliance rules.
- **Certificate of analysis (CoA) arithmetic.** The component table, its unit conversions and totals, the output file name, and the same calculations repeated inline in the dashboard.

Python floats are modelled as Dafny `real`, so there is no rounding.
Two kinds of foreign code are passed in as function values:

- the fitted scikit-learn estimators: a scaler and a regressor, or an isolation forest's verdict and decision functions;
- `exp` and `log`.

Lemmas about `exp` rely only on what they state: exp(0) = 1, and exp is positive and non-decreasing.

Modules, one per source file or class:

| module | file | what it holds |
|---|---|---|
| `Wrappers` | `wrappers.dfy` | `Option` |
| `Dicts` | `dicts.dfy` | `dict.get(key, default)` on a map |
| `PredictionHelpers` | `helpers.dfy` | the three module-level helpers of `utils/prediction_models.py` |
| `Optimizer` | `optimizer.dfy` | class `ExtractionOptimizer`, plus the grid and its left-fold specification `Scan` |
| `Degradation` | `degradation.dfy` | the rate table, the forecast, shelf life and storage advice |
| `Anomaly` | `anomaly.dfy` | class `AnomalyDetector` |
| `Potency` | `potency.dfy` | `calculate_grade` and `predict_compliance` |
| `DataProcessing` | `data_processor.dfy` | class `DataProcessor`; class `BatchData`, the caller's dictionary updated in place |
| `CoaGenerator` | `coa.dfy` | table rows, totals and the file name |
| `App` | `app.dfy` | the calculations written inline in `app.py` |

Where the code and its docstrings or comments disagree, the model follows the code:

- The untrained heuristic switches formula at −60 with a strict `<`, so `predict` at (−60 °C, 20 min) gives 81, not 85 (`Optimizer.HeuristicShape`).
- The comment above the heuristic says a warmer temperature lowers efficiency. Between −60 and −40 the code does the opposite: 81 at −60, 83 at −50 and 85 at −40 (`Optimizer.HeuristicShape`).
- The docstring of `calculate_grade` lists an isomerization limit for grade C, but the code does not check one (`Potency.CalculateGrade`, `Potency.ClassifierExamples`).
- The same docstring writes strict bounds (">90%", ">85%", ">80%") and fails only "over 5 %" degradation. The code accepts the bounds themselves (`>=`), and fails a batch at degradation exactly 5: (90, 1, 1) grades A and (85, 5, 0) fails (`Potency.ClassifierExamples`).
- The rate table's comment calls the rates "% per month", and the docstring of `predict_degradation` writes THC0·exp(−k·t). The code uses exp(−rate·t/12) with t in months (`Degradation.PredictDegradation`).

## Model

| member | source | states |
|---|---|---|
| PredictionHelpers.DegradationIndex | utils/prediction_models.py:240-242 | 0 when total THC ≤ 0; otherwise result × total THC = CBN × 100; non-negative for non-negative CBN |
| PredictionHelpers.IsomerizationRatio | utils/prediction_models.py:244-246 | 0 when Δ9 ≤ 0; otherwise result × Δ9 = Δ8 × 100; non-negative for non-negative Δ8 |
| PredictionHelpers.EstimateExtractionEfficiency | utils/prediction_models.py:248-253 | needs a non-zero initial potency (there is no guard); result × initial = final × mass × 100; within 0..100 when 0 ≤ final × mass ≤ initial |
| Optimizer.ScaleRows | utils/prediction_models.py:36 | the scaler's transform applied to each row; same length |
| Optimizer.Heuristic | utils/prediction_models.py:47-51 | 85 + (0.1·abs(temp + 60) if temp < −60, else −0.2·abs(temp + 40)) − 0.05·(time − 20)² |
| Optimizer.PointScore | utils/prediction_models.py:75 | a grid point's score: the model on the scaled row [temp, time, rpm, 2000, 1.8] when trained, the heuristic otherwise |
| Optimizer.HeuristicShape | utils/prediction_models.py:42-51 | the untrained prediction reads only temperature and time and is highest at 20 min; at 20 min it gives 87 at −80, 85.1 at −61, 81 at −60, 83 at −50 and 85 at −40 |
| Optimizer.Row | utils/prediction_models.py:74 | the first k rpm points of a (temp, time) pair; length k |
| Optimizer.Block | utils/prediction_models.py:73-74 | the first j time rows of a temperature; length 5·j |
| Optimizer.GridUpTo | utils/prediction_models.py:72-74 | the first i temperature blocks; length 30·i |
| Optimizer.Grid | utils/prediction_models.py:72-74 | every (temp, time, rpm) in loop order; 9 · 6 · 5 points |
| Optimizer.Step | utils/prediction_models.py:75-78 | one loop body: the state changes only to (this point, its score), and only when the score strictly beats the best so far; the best score never drops |
| Optimizer.Scan | utils/prediction_models.py:69-78 | the loop state after visiting the points in order from (None, 0); its meaning is stated by the `Scan…` lemmas |
| Optimizer.RowMembers | utils/prediction_models.py:74 | membership in a row is exactly fixed temp and time, with rpm among the first k |
| Optimizer.BlockMembers | utils/prediction_models.py:73-74 | membership in a block is exactly fixed temp, with time among the first j and any rpm |
| Optimizer.GridUpToMembers | utils/prediction_models.py:72-74 | membership in the first i blocks is temp among the first i, with any time and rpm |
| Optimizer.FullBlockMembers | utils/prediction_models.py:73-74 | a full block holds exactly its temperature with every time and rpm |
| Optimizer.GridIsProduct | utils/prediction_models.py:72-74 | the loops visit 270 points, and a point is visited iff it lies in the product temp {−80,−75,…,−40} × time {15,17,…,25} × rpm {1000,…,1400} |
| Optimizer.ScanIsUpperBound | utils/prediction_models.py:69-78 | the best score is ≥ 0 and ≥ every visited score |
| Optimizer.ScanNone | utils/prediction_models.py:69-78 | no best point iff no visited score exceeds 0; the best score is then 0 |
| Optimizer.ScanKeepsFirstMaximum | utils/prediction_models.py:76-78 | the chosen point was visited, scores the best score, and every earlier point scores strictly less (strict `>` keeps the first maximum) |
| Optimizer.ScanPicks | utils/prediction_models.py:69-78 | a positive maximum that is strictly higher than everything before it is the result |
| Optimizer.BlockPrefix | utils/prediction_models.py:73-74 | a shorter block is a prefix of a longer one |
| Optimizer.GridStartsWithFirstBlock | utils/prediction_models.py:72-74 | the visit order starts with the −80 block |
| Optimizer.HeuristicGridBound | utils/prediction_models.py:47-51 | on the grid, the heuristic never exceeds 86.95 |
| Optimizer.GridStart | utils/prediction_models.py:72-74 | the grid has 270 points and its first 30 are the full −80 block |
| Optimizer.GridBeforeOptimum | utils/prediction_models.py:72-74 | the ten grid points before (−80, 19, 1000) are at −80 with 15 or 17 min |
| Optimizer.HeuristicGridMaximum | utils/prediction_models.py:47-74 | with heuristic scores, no grid point scores above 86.95 |
| Optimizer.HeuristicBeforeOptimum | utils/prediction_models.py:47-74 | with heuristic scores, the ten grid points before (−80, 19, 1000) score below 86.95 |
| Optimizer.GridHead | utils/prediction_models.py:72-74 | the grid's first ten points are the −80 rows for 15 and 17 min, followed by (−80, 19, 1000) |
| Optimizer.HeuristicAtFirstRows | utils/prediction_models.py:47-51 | (−80, 19, 1000) scores 86.95, and every earlier point scores less |
| Optimizer.HeuristicOptimum | utils/prediction_models.py:69-80 | with heuristic scores, the search returns ({−80, 19, 1000}, 86.95) |
| Optimizer.ExtractionOptimizer.constructor | utils/prediction_models.py:25-32 | starts untrained |
| Optimizer.ExtractionOptimizer.Train | utils/prediction_models.py:34-38 | fits the scaler on X and the model on the scaled X; sets the trained flag |
| Optimizer.ExtractionOptimizer.Predict | utils/prediction_models.py:40-54 | untrained: exactly one value, the heuristic of the first row; trained: the model applied to each scaled row |
| Optimizer.ExtractionOptimizer.Scorer | utils/prediction_models.py:75 | a grid point's score is the first prediction for the row [temp, time, rpm, 2000, 1.8] |
| Optimizer.ExtractionOptimizer.OptimizeParameters | utils/prediction_models.py:56-80 | the three nested loops return exactly the left fold `Scan` of this object's predictions over the fixed grid, whatever `bounds` is |
| Optimizer.RowStep | utils/prediction_models.py:74-78 | one pass of the rpm loop scans the next rpm point of the row |
| Optimizer.BlockStep | utils/prediction_models.py:73-74 | a finished rpm row extends the time block by one row |
| Optimizer.GridSearchResult | utils/prediction_models.py:69-80 | the best score is ≥ 0 and ≥ every grid point's prediction; no best point iff no prediction exceeds 0; otherwise the best point is on the grid, its prediction is the best score, and every earlier grid point predicts strictly less |
| Optimizer.UntrainedSearch | utils/prediction_models.py:42-80 | untrained, the search returns ({−80, 19, 1000}, 86.95) |
| Optimizer.ExtractionOptimizer.Snapshot | utils/prediction_models.py:82-83 | the saved pair (model, scaler) reproduces the trained predictions |
| Optimizer.ExtractionOptimizer.Load | utils/prediction_models.py:85-89 | installs the loaded model and scaler; sets the trained flag |
| Optimizer.SaveThenLoad | utils/prediction_models.py:82-89 | an optimiser loaded from another's saved state predicts exactly as that one does |
| Degradation.Lookup | utils/prediction_models.py:114 | `dict.get`: the value of an entry with that key, or the default when no entry has it |
| Degradation.Rate | utils/prediction_models.py:100-114 | the rate is always positive |
| Degradation.RateTable | utils/prediction_models.py:100-114 | 0.5 / 0.2 / 0.05 for the three named conditions; 0.3 for every other string |
| Degradation.Points | utils/prediction_models.py:116 | the length of `np.arange(0, months + 1)`: months + 1, or 0 for negative months |
| Degradation.Decayed | utils/prediction_models.py:117 | THC0·exp(−rate·t/12), the THC left after t months |
| Degradation.PredictDegradation | utils/prediction_models.py:106-120 | three arrays of length months + 1; time points 0..months; THC(t) = THC0·exp(−rate·t/12); CBN(t) = CBN0 + 0.3·(THC0 − THC(t)) |
| Degradation.ForecastTrend | utils/prediction_models.py:116-118 | for THC0 ≥ 0, the series start at their initial values; THC never rises and stays in [0, THC0]; CBN never falls |
| Degradation.ForecastStep | utils/prediction_models.py:117-118 | for s ≤ t: 0 ≤ THC(t) ≤ THC(s) ≤ THC0 and CBN0 ≤ CBN(s) ≤ CBN(t); at s = 0 both series hold their initial values |
| Degradation.ForecastAt | utils/prediction_models.py:117-118 | THC(t) = THC0·exp(−rate·t/12) and CBN(t) = CBN0 + 0.3·(THC0 − THC(t)) at one time point |
| Degradation.DecayedOrder | utils/prediction_models.py:117 | for THC0 ≥ 0 and s ≤ t: 0 ≤ THC0·exp(−rate·t/12) ≤ THC0·exp(−rate·s/12) ≤ THC0, with THC0 itself at s = 0 |
| Degradation.DecayFactors | utils/prediction_models.py:117 | exp(−rate·t/12) lies in (0, 1], equals 1 at t = 0 and does not grow with t |
| Degradation.MonthsToThreshold | utils/prediction_models.py:130-140 | result × rate = −12·ln(threshold); positive when ln(threshold) < 0 |
| Degradation.EstimateShelfLife | utils/prediction_models.py:122-133 | the value computed for the last condition in the table, frozen storage |
| Degradation.ShelfLifeByCondition | utils/prediction_models.py:129-130 | one (condition, months) entry per table entry, in table order |
| Degradation.ShelfLifeKeepsOnlyLast | utils/prediction_models.py:129-133 | the scalar returned is the frozen entry; unless ln(threshold) = 0 it differs from the room-temperature and refrigerated entries |
| Degradation.AdviceFor | utils/prediction_models.py:140-152 | a record carries its condition and its achievable months, and is suitable iff those months reach the target |
| Degradation.PredictOptimalStorage | utils/prediction_models.py:135-154 | one record per condition, in table order, each equal to `AdviceFor` at ln(0.9) |
| Degradation.ColderStorageLastsLonger | utils/prediction_models.py:100-141 | with ln(0.9) < 0, achievable months rise strictly from room to fridge to frozen, and suitability carries over to colder storage |
| Anomaly.RuleVerdict | utils/prediction_models.py:180-183 | −1 iff efficiency < 70 or degradation > 5; otherwise 1 |
| Anomaly.AnomalyDetector.constructor | utils/prediction_models.py:162-167 | starts untrained |
| Anomaly.AnomalyDetector.Train | utils/prediction_models.py:169-172 | fits the forest on X and sets the trained flag |
| Anomaly.AnomalyDetector.Detect | utils/prediction_models.py:174-185 | untrained: one verdict from the rule on the first row; trained: the forest's verdict per row |
| Anomaly.UntrainedExamples | utils/prediction_models.py:174-189 | untrained, (65, 1.0) is flagged −1 and (90, 1.0) passes with 1 whatever rows follow, and the score is [0] |
| Anomaly.AnomalyDetector.AnomalyScore | utils/prediction_models.py:187-189 | untrained: [0] for any input; trained: the forest's decision value per row |
| Potency.CalculateGrade | utils/prediction_models.py:204-220 | Pass iff the grade is not F; A iff total ≥ 90, degradation < 2 and isomerization < 3; B iff not A and total ≥ 85, degradation < 3 and isomerization < 5; F iff total < 80 or degradation ≥ 5 (C is the rest) |
| Potency.VerdictIgnoresIsomerization | utils/prediction_models.py:213-220 | pass/fail never depends on isomerization |
| Potency.GradeMonotone | utils/prediction_models.py:213-220 | raising the total, or lowering degradation or isomerization, never lowers the grade |
| Potency.PredictCompliance | utils/prediction_models.py:222-236 | hemp: compliant iff ratio > 20 and THC < 0.3, and the two checks are reported separately; any other product type is compliant |
| Potency.ClassifierExamples | utils/prediction_models.py:213-236 | worked grades A, B, C (also with isomerization 20) and F, including A at exactly (90, 1, 1) and F at degradation exactly 5; hemp passes at ratio 25 and fails at ratio 15 |
| DataProcessing.DeriveMetrics | utils/data_processor.py:56-75 | totals of present values, with absent keys read as 0; both ratios equal the module-level helpers; all four metrics are non-negative for a non-negative profile |
| DataProcessing.WithMetrics | utils/data_processor.py:53-77 | keys become the old keys plus the four metric keys; every other key keeps its value; the metric keys hold the derived metrics |
| DataProcessing.RecalculationIsIdempotent | utils/data_processor.py:53-77 | computing the metrics a second time changes nothing |
| DataProcessing.BatchData.constructor | utils/data_processor.py:53 | wraps the caller's dictionary |
| DataProcessing.DataProcessor.constructor | utils/data_processor.py:15-17 | records the database path |
| DataProcessing.DataProcessor.CalculateMetrics | utils/data_processor.py:53-77 | returns the same object, whose dictionary is now `WithMetrics` of the old one |
| DataProcessing.CalculateMetricsStandalone | utils/data_processor.py:80-83 | same as `CalculateMetrics` on a fresh processor |
| CoaGenerator.ComponentValues | utils/coa_generator.py:80-87 | six values in fixed order, each the data value or its sample default |
| CoaGenerator.Sum | utils/coa_generator.py:89 | Python's `sum`, left to right from 0 |
| CoaGenerator.SumBounds | utils/coa_generator.py:89 | a sum of non-negative values is non-negative and at least each term |
| CoaGenerator.RowFor | utils/coa_generator.py:91-95 | mg/g = 10 × % and mg/mL = 9 × % |
| CoaGenerator.ResultsTable | utils/coa_generator.py:80-102 | seven rows; rows CBC, CBD, Δ8-THC, Δ9-THC, CBG, CBN carry the data value or default; the total row is their sum; every row has mg/g = 10× and mg/mL = 9× |
| CoaGenerator.TotalRowBounds | utils/coa_generator.py:80-102 | with non-negative data, the total row is non-negative and at least every component row |
| CoaGenerator.CoaTotalThc | utils/coa_generator.py:108 | Δ9-THC plus Δ8-THC, each with its sample default; equal to the Δ9 row plus the Δ8 row (`TotalsMatchRows`) |
| CoaGenerator.CoaDegradationIndex | utils/coa_generator.py:108-109 | the same guarded ratio as the module-level helper, applied to CBN and total THC with the sample defaults |
| CoaGenerator.TotalsMatchRows | utils/coa_generator.py:89-108 | the total row is the sum of the six rows; total THC is the Δ9 row plus the Δ8 row |
| CoaGenerator.EmptyDataDefaults | utils/coa_generator.py:80-109 | for empty data, total 92.4429, total THC 88.0966 and degradation index 187.92 / 88.0966 |
| CoaGenerator.OutputPath | utils/coa_generator.py:146 | "coa_" + batch id + ".pdf", with "unknown" when there is no batch id |
| CoaGenerator.OutputPathRoundTrip | utils/coa_generator.py:146 | the batch id can be read back from the file name |
| App.Where | app.py:275 | the indices whose value is below the bound, strictly increasing and complete |
| App.ShelfLifeMonth | app.py:275-277 | the least index below 90 % of current THC; every earlier index is at or above that bound; nothing iff no index qualifies |
| App.ShelfLifeReport | app.py:261-279 | a warning at the first forecast month below 90 % of current THC; otherwise stable for the chosen months |
| App.ShelfLifeWithinHorizon | app.py:261-277 | for non-negative current THC, the warning month is never 0 and never past the horizon |
| App.OfferedStorageUsesDefaultRate | app.py:257-263 | each offered label gets the default rate 0.3, and all three give the same forecast |
| App.PredictorKey | app.py:257 | maps each offered label to the table key in the same position; other strings pass through unchanged |
| App.CorrectedStorageRates | app.py:257-263 | through `PredictorKey` the labels get 0.5, 0.2 and 0.05 |
| App.PageReport | app.py:255-279 | the page's report for a label is the report for the matching table key |
| App.PreviewTotals | app.py:315-317 | total THC = Δ9 + Δ8; total = all six summed; degradation index equals the helper, and is 0 when total THC ≤ 0 |
| App.PreviewPercents | app.py:324 | the six inputs in preview order, then the total |
| App.Preview | app.py:322-326 | seven rows named Δ9-THC … CBC, TOTAL; mg/g = 10 × % w/w row by row; the last row is the total |
| App.AsData | app.py:184-187 | the six inputs as a dictionary with exactly the six concentration keys, each holding its input value |
| App.PreviewMatchesMetrics | app.py:315-317 | the preview totals equal those the metric calculator derives from the same values |
| App.PreviewMatchesCertificate | app.py:315-317 | the preview totals equal the certificate's total THC, degradation index and total row |
| App.FreshnessLabel | app.py:329-330 | Fresh iff < 2; Moderate iff 2 ≤ d < 5; Degraded iff ≥ 5 |
| App.FreshnessAgreesWithGrade | app.py:329-330 | "Degraded" always fails grading; any other label passes once the total reaches 80; "Fresh" with total ≥ 90 and isomerization < 3 grades A |

## Left out

- The scikit-learn estimators (`RandomForestRegressor`, `StandardScaler`, `IsolationForest`, `SVC`) are foreign code. Fitted estimators are function values that `Train` receives; their numerical behaviour is not modelled. `PotencyClassifier`'s SVC and scaler are never consulted by the modelled methods and are not modelled.
- joblib's file I/O in `save` and `load` is not modelled. `Snapshot` is the saved pair and `Load` takes that pair, so only the state change is modelled.
- PredictionHelpers.EstimateExtractionEfficiency: requires a non-zero initial potency. The source divides by it unguarded and raises `ZeroDivisionError` at 0, which is not modelled.
- Degradation.EstimateShelfLife, Potency.PredictCompliance: the Python default arguments (`threshold=0.9`, `product_type='hemp'`) are not modelled; callers pass every argument.
- `exp` and `log` are parameters, not computed numerically, and IEEE-754 rounding is not modelled (values are reals).
- Degradation.EstimateShelfLife: the `print` of each condition's months is not modelled. The unused `initial_thc` argument is kept.
- Optimizer.ExtractionOptimizer.Predict, Anomaly.AnomalyDetector.Detect: need a non-empty X. The source indexes `X[0]` and would raise an exception on an empty matrix. The trained path's error on an empty matrix is not modelled either.
- Optimizer.ExtractionOptimizer.OptimizeParameters: `bounds` is accepted and ignored, as in the source; the default-bounds dictionary it builds is never read.
- Feature rows and anomaly samples are records of reals. Rows with the wrong number of columns, which unpacking would reject, are not modelled.
- Batch dictionaries hold only real values. The source reads just the six concentration keys and the `total_thc` it has written, so text entries such as `batch_id` or `strain` pass through it unchanged, and only a non-numeric concentration makes it fail; the model admits neither.
- DataProcessing.WithMetrics: "every other key keeps its value" is proved for real-valued dictionaries only, since the model's dictionaries hold nothing else.
- `DataProcessor.init_database` and the SQLite database are not part of this model; `dbPath` is only recorded.
- FPDF page layout, fonts, notes, the analyst line and `datetime.now()` in `utils/coa_generator.py` are not part of this model. So are `:.2f` / `:.4f` formatting and the `generate_coa` call that writes the file.
- The dashboard's Streamlit widgets, Plotly charts, hard-coded alert and dashboard figures, and random scatter data are not modelled. The `CoA_<batch>.pdf` download name is not modelled either.
- `google_sheets_handler.py` (network access through gspread) is not part of this model.

## Findings

| source | as written | input that shows it | evidently intended | confidence | as-written member | corrected member |
|---|---|---|---|---|---|---|
| app.py:257-263 | the page offers "Room Temp", "Refrigerated" and "Frozen" and passes the label unchanged to `predict_degradation`, whose table keys are "Room Temp (20°C)", "Refrigerated (4°C)" and "Frozen (-20°C)" | storage "Frozen": rate 0.3 instead of 0.05, the same forecast as "Room Temp" | each label selects its own rate | not executed | App.OfferedStorageUsesDefaultRate | App.CorrectedStorageRates |
| utils/prediction_models.py:129-133 | `months_to_threshold` is overwritten on every pass of the loop, and only the last value is returned | any threshold with ln(threshold) ≠ 0, e.g. 0.9: only the frozen figure comes back, and the room-temperature and refrigerated figures are lost | a shelf life per storage condition | not executed | Degradation.ShelfLifeKeepsOnlyLast | Degradation.ShelfLifeByCondition |
