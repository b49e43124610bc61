# Airport lounge crowd forecasting — a Dafny model

This project models the forecasting-and-analytics core of an airport-lounge
"peak-hour intelligence engine". The engine has four parts:

- It builds a lag feature from the hourly history: each row gets the crowd of the hour before.
- It rolls a fitted regression model forward six hours. Each prediction becomes the next hour's lag feature.
- It adds a flight-schedule offset to the forecast.
- It derives staffing, catering, surge, guest-experience, sustainability and cost figures from the adjusted forecast.

The fitted model is a function parameter (`Predict.Predictor`). Every statement about the rollout therefore holds for every model.

Modules, one per source file, plus two helpers:

| module | file | models |
|---|---|---|
| `Wrappers` | numeric.dfy | `Option`, the "no data" outcome |
| `Numeric` | numeric.dfy | Python `int()` on a float (`Trunc`) and `round(x, 2)` (`Round2`), on exact reals |
| `Preprocessing` | preprocess.dfy | src/preprocess.py: shift, `dropna`, column selection |
| `Predict` | predict.dfy | src/predict.py: the six-step rollout, as a method with a loop, proved against a step-by-step specification |
| `Optimizer` | optimizer.dfy | src/optimizer.py: the floor-of-3 staffing rule and the catering split |
| `Dashboard` | dashboard.dfy | the computations of dashboard/app.py, lifted out of the page script into functions, the catering loop as a method, and the page's analytics as the methods `Analyze` and `RunDashboard` |

Modelling choices:

- Fractional quantities are exact `real`s.
- Python's `int()` is truncation toward zero (`Numeric.Trunc`). This is floor for non-negative values and ceiling for negative ones, so negative inputs need no precondition.
- `round(x, 2)` on a NumPy float scales by 100, rounds half to even and scales back. `Numeric.Round2` does the same on exact reals.
- The float constants 0.7, 1.1, 0.5 and 0.25 are their exact decimal values.
- A pandas NaN is `None` in an `Option`.
- The confidence margin `int(recent_std)` is a non-negative integer input.
- Feature rows are values. The rollout's `.copy()` of the last row is therefore implicit, and the loop cannot change the feature table.

Points where the code's behaviour is easy to misread:

- A largest growth of exactly 25 is Moderate: dashboard/app.py:131-135 compares `> 25`, then `> 15`.
- A constant model answering `c` gives six copies of `round(c, 2)`, not of `c` (src/predict.py:23).
- Nothing rejects negative or non-numeric predictions; they flow into the adjustment and every figure after it.
- A history of fewer than two rows yields an empty feature table, and `X.iloc[-1]` (src/predict.py:11) raises IndexError on it. The model returns `None` there.
- `is_weekend` is an integer column (0 or 1), not a boolean.
- The guest score is only bounded below by `max(0, …)` (dashboard/app.py:144). It never exceeds 100 anyway, and `Dashboard.GuestScore` proves this.

## Model

| member | source | states |
|---|---|---|
| `Numeric.Trunc` | dashboard/app.py:77 | `int()` of a float: for x ≥ 0 the result r satisfies r ≤ x < r + 1; for x < 0 it satisfies r − 1 < x ≤ r |
| `Numeric.TruncMonotone` | dashboard/app.py:76-79 | truncation keeps values in order |
| `Numeric.Round2` | src/predict.py:23 | `round(pred, 2)` has at most two decimals and lies within 0.005 of `pred` |
| `Numeric.Round2Exact` | src/predict.py:23 | a value with two decimals rounds to itself |
| `Numeric.Round2Idempotent` | src/predict.py:23 | rounding twice equals rounding once |
| `Preprocessing.FeatureVector` | src/preprocess.py:13-20 | a feature row becomes exactly six model inputs |
| `Preprocessing.FeatureVectorRoundTrip` | src/preprocess.py:13-22 | the six columns are in the fixed order hour, day_of_week, is_weekend, flights, avg_passengers, prev_hour_crowd; the row can be read back from its vector |
| `Preprocessing.Lag` | src/preprocess.py:7 | walking the rows in order, row 0 is paired with the given previous crowd and row i > 0 with the crowd of row i − 1; the rows are kept, in order |
| `Preprocessing.ShiftCrowd` | src/preprocess.py:7 | after `shift(1)`, the first row has no lag and row i > 0 has the crowd of row i − 1 as its lag; the rows are kept in order |
| `Preprocessing.DropMissing` | src/preprocess.py:10 | `dropna` keeps only rows with a present lag and never adds rows |
| `Preprocessing.DropMissingKeepsComplete` | src/preprocess.py:10 | rows with no missing value pass `dropna` unchanged |
| `Preprocessing.ShiftThenDrop` | src/preprocess.py:7-10 | after the shift, `dropna` removes exactly the first row |
| `Preprocessing.Project` | src/preprocess.py:13-23 | one feature row and one target per input row, in order; the feature vector is hour, day_of_week, is_weekend, flights, avg_passengers and the lag; the target is the row's crowd |
| `Preprocessing.Preprocess` | src/preprocess.py:3-29 | X and y both have \|history\| − 1 rows; X[j] takes its lag from history row j and its other five columns from row j + 1; y[j] is the crowd of row j + 1 |
| `Preprocessing.ShortHistoryHasNoFeatures` | src/preprocess.py:7-10 | the feature table is empty exactly when the history has fewer than 2 rows |
| `Predict.SeedRow` | src/predict.py:11 | the seed is the last row of the feature table and is absent exactly when the table is empty |
| `Predict.StepInput` | src/predict.py:16-21 | the row the model gets on step k (its prediction is `StepPrediction`): hour (seed.hour + k) mod 24, in 0..23; the other calendar and flight columns of the seed; lag the seed's on step 1 and the raw prediction of step k − 1 after |
| `Predict.AdvanceAfterStep` | src/predict.py:16-21 | moving the working row after step k one hour on gives exactly the row of step k + 1 |
| `Predict.Forecast` | src/predict.py:12-25 | the reference rollout has exactly six values |
| `Predict.PredictNext6Hours` | src/predict.py:6-25 | the loop over a copied last row returns `None` exactly when the history has fewer than 2 rows; otherwise it returns the reference rollout of the seed row |
| `Predict.StepHour` | src/predict.py:16 | on step k the model sees hour (seed.hour + k) mod 24, always in 0..23 |
| `Predict.StepFeedback` | src/predict.py:18-21 | step 1 sees the seed's lag; step k > 1 sees the unrounded prediction of step k − 1 |
| `Predict.CalendarFrozen` | src/predict.py:11-21 | day_of_week, is_weekend, flights and avg_passengers stay those of the seed, also after the hour wraps past midnight |
| `Predict.ForecastRounded` | src/predict.py:21-23 | output k is the step-k prediction rounded to two decimals |
| `Predict.ConstantPredictor` | src/predict.py:14-23 | a model that always answers c gives six copies of round(c, 2) |
| `Predict.SameAnswersSameRollout` | src/predict.py:14-23 | two models that agree on the rows along the rollout produce the same rollout |
| `Predict.NextHour` | src/predict.py:16 | advancing the 24-hour clock one step at a time agrees with advancing it k steps at once |
| `Optimizer.CeilDiv` | src/optimizer.py:9 | `math.ceil(n / d)` is the q with (q − 1)·d < n ≤ q·d |
| `Optimizer.StaffingRecommendation` | src/optimizer.py:4-10 | staff ≥ 3; staff·20 ≥ crowd; staff is 3 or the least count covering the crowd at 20 guests each |
| `Optimizer.StaffingCases` | src/optimizer.py:9-10 | above 40 guests the result is ceil(crowd/20); at 40 or fewer it is 3 |
| `Optimizer.StaffingMonotone` | src/optimizer.py:9-10 | staffing never decreases as the crowd grows |
| `Optimizer.MenuRecommendation` | src/optimizer.py:13-25 | for a non-negative crowd: snacks = ⌊77c/100⌋, drinks = ⌊55c/100⌋, meals = ⌊275c/1000⌋; for a negative crowd, the same truncated toward zero |
| `Optimizer.MenuOrdered` | src/optimizer.py:21-25 | for a crowd ≥ 0, snacks ≥ drinks ≥ meals ≥ 0; a crowd of 0 gives (0, 0, 0) |
| `Optimizer.SelfCheck` | src/optimizer.py:29-32 | 120 guests give 6 staff and a menu of (92, 66, 33) |
| `Dashboard.FlightAdjustment` | dashboard/app.py:72-74 | offset·600 = flights·capacity·rate; within the slider ranges the offset lies in [5/6, 400] |
| `Dashboard.AdjustPredictions` | dashboard/app.py:76-79 | same length as the base; each hour is base + offset truncated toward zero (floor bracket for a non-negative sum, ceiling bracket for a negative one), with one offset for every hour; the order of hours is preserved |
| `Dashboard.DoubledAccessRate` | dashboard/app.py:72-79 | doubling the access rate doubles the offset and moves each adjusted hour by that offset, within one guest |
| `Dashboard.Max` | dashboard/app.py:89 | `max` is ≥ every element and equal to one of them |
| `Dashboard.Summarize` | dashboard/app.py:89-97 | current = hour 0; peak = max; lower = peak − margin ≤ peak ≤ upper = peak + margin; utilization = peak/200·100, which is ≤ 100 exactly when peak ≤ 200 |
| `Dashboard.MultiRoleStaffing` | dashboard/app.py:102-107 | for crowd c ≥ 0: service ⌊c/25⌋, kitchen ⌊c/40⌋, cleaning ⌊c/60⌋, total their sum; for c < 0, truncated toward zero |
| `Dashboard.MultiRoleStaffingMonotone` | dashboard/app.py:102-107 | no role and no total shrinks as the crowd grows |
| `Dashboard.MultiRoleStaffingExamples` | dashboard/app.py:102-107 | 0 guests give (0, 0, 0, 0); 125 guests give (5, 3, 2, 10) |
| `Dashboard.GrowthRates` | dashboard/app.py:128 | `np.diff` has one element fewer than the forecast; element i is hour i + 1 minus hour i |
| `Dashboard.Classify` | dashboard/app.py:131-136 | Severe exactly when the growth is > 25; Moderate exactly when it is in (15, 25]; Stable exactly when it is ≤ 15 |
| `Dashboard.SurgeLevel` | dashboard/app.py:128-136 | Severe exactly when some growth is > 25; Stable exactly when every growth is ≤ 15; Moderate otherwise |
| `Dashboard.SurgeBoundaries` | dashboard/app.py:131-135 | growth 25 is Moderate, 26 Severe, 15 Stable, 16 Moderate |
| `Dashboard.GuestScore` | dashboard/app.py:143-144 | the score is in [0, 100]; it is 100 exactly when peak ≤ 20·service; it is 0 exactly when the overflow is ≥ 100; otherwise score + overflow = 100 |
| `Dashboard.GuestScoreFullOnlyWhenEmpty` | dashboard/app.py:102-109 | with service staff from `multi_role_staffing`, a non-negative peak scores 100 only when the peak is 0 |
| `Dashboard.CateringTable` | dashboard/app.py:154-163 | one row per forecast hour, in order, with Hour = i + 1, the hour's crowd and `menu_recommendation` of that crowd |
| `Dashboard.SnacksColumn` | dashboard/app.py:171 | the snacks column of a table with no negative snack count sums to ≥ 0 |
| `Dashboard.SustainabilityReport` | dashboard/app.py:170-173 | waste reduction = max(0, 900 − snacks): ≥ 0, 0 exactly when the planned snacks reach 900, ≤ 900 for non-negative snacks; the score lies in [0, 100], is waste/900·100 whenever waste ≤ 900 and is capped at 100 above |
| `Dashboard.CostComparison` | dashboard/app.py:185-192 | traditional cost 45000; AI cost 3000·staff; savings 3000·(15 − staff), not clamped, and negative exactly when staff > 15 |
| `Dashboard.SavingsNegativeExactlyAtCapacity` | dashboard/app.py:96-109 | with multi-role staffing at the peak, savings are negative exactly when the peak is ≥ 200, the lounge capacity |
| `Dashboard.Analyze` | dashboard/app.py:72-192 | the report describes the base forecast (`Describes`): the adjusted forecast, the summary of it, staffing at the peak, its surge level, the guest score of the peak and service staff, one catering row per hour, sustainability of the snacks column and the cost of the total staff; the interval is peak ± margin, the score lies in [0, 100], and savings are negative exactly at capacity |
| `Dashboard.DescribedBounds` | dashboard/app.py:89-192 | every described report has current = hour 0, a peak that is one of the hours and bounds them all, interval peak ± margin, score and sustainability in [0, 100], waste ≤ 900 when no hour is negative, traditional cost 45000, and savings negative exactly when the peak reaches 200 |
| `Dashboard.RunDashboard` | dashboard/app.py:53-79 | no report exactly when the history has fewer than 2 rows; otherwise a six-hour report that describes the rollout of the seed row (`Describes`) |
| `Dashboard.FlatScenario` | dashboard/app.py:72-192 | the report the page gives for a constant model answering 50 and schedule (6, 180, 15): offset 27, forecast [77 × 6], current and peak 77, staffing (3, 1, 1, 5), Stable, guest score 83, menu (59, 42, 21) each hour, waste reduction 546, cost (15000, 45000, 30000) |
| `Dashboard.FlatFigures` | dashboard/app.py:72-144 | for the flat base forecast of 50: forecast [77 × 6], peak 77, staffing (3, 1, 1, 5), Stable, guest score 83, savings 30000 |
| `Dashboard.FlatSupplies` | dashboard/app.py:154-172 | for the flat base forecast of 50: menu (59, 42, 21) each hour and waste reduction 546 |
| `Dashboard.FlatCatering` | dashboard/app.py:154-171 | six catering rows of 77 guests each have menu (59, 42, 21) and 354 snacks in total |
| `Dashboard.FlatForecast` | src/predict.py:14-23 | a model that always answers 50 forecasts 50 for every hour |
| `Dashboard.FlatAdjusted` | dashboard/app.py:76-79 | a flat 50 forecast under schedule (6, 180, 15) becomes a flat 77 |
| `Dashboard.FlatSurge` | dashboard/app.py:128-136 | a flat forecast is Stable |

## Left out

- CSV reading and writing, model loading and console output (`pd.read_csv`, `to_csv`, `joblib.load`, `print`) are I/O. The history and the model are parameters instead.
- Model training (src/train_model.py) and synthetic data generation (src/data_generator.py) are not part of this model. The fitted model enters only as the `Predictor` parameter.
- The Streamlit page is not modelled: page configuration, styling, sliders, metrics, alerts, tables, charts and the clock caption. The slider ranges become the predicate `Dashboard.InSliderRange`.
- `recent_std`, a pandas floating-point standard deviation of the last 48 crowds, is not modelled. The confidence margin `int(recent_std)` is a non-negative integer parameter of `Summarize`, `Analyze` and `RunDashboard`.
- IEEE floating point is not modelled. Products such as `crowd * 0.7 * 1.1` are computed on exact rationals. The float result can differ from the exact one when it lands just below a whole number.
- `dropna` is modelled only for the NaN the shift creates. The history's other columns are taken to have no missing values.
- The timestamp column of the history is not modelled, because no feature uses it.
- `Dashboard.Max`, `Dashboard.Summarize`, `Dashboard.SurgeLevel` and `Dashboard.Analyze` require a non-empty forecast, or at least two hours for growth. Python's `max` raises on an empty list, and the rollout always gives six hours.
