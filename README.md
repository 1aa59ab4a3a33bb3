# Fraud Shield: a Dafny model of the detection pipeline

Fraud Shield is a Flask application. A user uploads a CSV of card
transactions (the anonymised `V1`..`V28` features, and optionally a `Class`
label). The application checks the table's shape and prepares the features.
It runs a pre-trained classifier on them and computes batch risk metrics.
It renders a results page with a text summary, and it keeps the annotated
table in memory. A one-time download link hands that table out once.

This project models that pipeline and proves properties of the model:

- `Frames`: a pandas DataFrame as a value (`Table`), and as an object
  (`Frame`) whose columns are assigned in place.
- `Validation`: `validate_csv_data`, the three ordered shape checks.
- `Preparation`: `prepare_data_for_prediction`. It splits off the optional
  `Class` column, coerces non-numeric columns and fills NaN with 0. When
  there is no `Class` column, the caller's non-numeric columns are coerced
  in place.
- `RiskMetrics`: `calculate_risk_metrics`, which gives counts, the fraud rate
  in percent, the risk tier and its icon, and the probability statistics.
- `SummaryReport`: the section structure of `generate_summary_report`.
- `FileSize`: the `format_file_size` loop.
- `ModelLoading`: `load_model_with_fallback` over the configured model paths.
- `Annotation`: the probability column taken from `predict_proba`, and the
  results table with its label and probability columns.
- `FlaskApp`: the application state (`App`, with `RESULTS_STORE`, `MODEL` and
  `MODEL_PATH`). It models the `/predict` route as a method proved against the
  function `PredictOutcome`, and `/download/<token>` as a method proved
  against `DownloadOutcome`.

Several things outside the program become parameters: the file system and
unpickler (`probe`), the CSV reader (`Upload`), `pd.to_numeric`'s parsing of
one text value (`parse`), the classifier's `predict` and `predict_proba`
(`PickledObject`), `to_csv().encode()` (`toCsv`), the clock (`now`) and
`secrets.token_urlsafe` (`token`).

Floats are modelled as exact `real`s. NaN is a separate cell or metric
value, so comparisons with it fall through as in IEEE arithmetic. A zero-row
batch therefore has a NaN rate and a LOW tier.

Behaviour of the code that the model keeps exactly:

- The batch tiers use strict `>` comparisons on a percentage: above 5 is
  HIGH, above 2 is MEDIUM, so exactly 5% is MEDIUM and exactly 2% is LOW.
  There is one tier per batch and none per row.
- The code does not use `RISK_THRESHOLDS` from `config.py`. It uses the
  constants 5 and 2.
- The average, maximum and minimum probabilities are taken over all rows,
  not only over rows classified as fraud. They are present exactly when
  `predict_proba` gave a usable 2-D array.
- Validation stops at the first failing check and returns one message. Up
  to 20 of the 28 expected features may be missing. A table whose columns are at least 80% numeric passes; its non-numeric
  columns are then coerced (unparsable values become 0 after `fillna`), and
  no single value is rejected. The
  code has no size, row-count or empty-batch check.
- The fraud count is the number of predictions equal to 1. The legitimate
  count is the number equal to 0. Other labels count as neither.
- The results table adds `Fraud Prediction` (text labels) and
  `Fraud Probability`, and no other column. When the upload has no `Class`
  column, its non-numeric columns are coerced (NaN not yet filled) before
  being copied into the results. With a `Class` column, the results keep
  the uploaded values.
- At a rate of exactly 2% the LOW advice says "below 2%".
- The model paths are built on the application's directory, which is the
  parameter `baseDir` of `ModelLoading.ModelPaths`; the page and the report
  show the chosen path in that form.

Lemmas about arithmetic that only serve other proofs (`RiskMetrics.TimesMonotone`,
`RiskMetrics.TimesIsProduct`, `RiskMetrics.DivideBounds`, `RiskMetrics.TimesDivide`,
`RiskMetrics.RateAbove`, `FileSize.ScaleUp`, `FileSize.ScaleStrict`,
`FileSize.SameUnitSameValue`, `Frames.DistinctTail`, `Frames.ConsDistinct`,
`RiskMetrics.ScaleMonotone`, `RiskMetrics.ScaleCompare`, `Annotation.AssignWellFormedIf`,
`FlaskApp.StoreOnlyUnderToken`) are
proof helpers and have no row below.

## Model

| member | source | states |
|---|---|---|
| `Frames.Assign` | flask_app.py:135-138 | Assigning a column keeps the row count, replaces an existing label in place or appends a new one at the end, makes the column the new value and leaves every other column unchanged |
| `Frames.AssignWellFormed` | flask_app.py:135-138 | Assigning a column of the right length to a well-formed table gives a well-formed table |
| `Frames.Without` | utils.py:55 | The labels other than the dropped one: exactly the other members, never longer |
| `Frames.WithoutAbsent` | utils.py:55 | Dropping a label that is not there keeps every label in order |
| `Frames.WithoutAt` | utils.py:55 | Dropping a label that occurs once removes exactly its position; the other labels keep their order |
| `Frames.WithoutDistinct` | utils.py:55 | Dropping a label from distinct labels leaves distinct labels |
| `Frames.Drop` | utils.py:55 | `drop('Class', axis=1)` gives the labels without that one in order, keeps the row count and the other columns unchanged, and removes just that key |
| `Frames.DropWellFormed` | utils.py:55 | Dropping a column keeps a table well formed |
| `Frames.FillColumn` | utils.py:68 | `fillna(0)` on a column keeps its dtype and length, turns every NaN cell into the number 0 and changes no other cell |
| `Frames.FillNa` | utils.py:68 | `fillna(0)` keeps labels, rows and keys and fills every column |
| `Frames.FillNaWellFormed` | utils.py:68 | Filling NaN keeps a table well formed |
| `Frames.Frame.constructor` | flask_app.py:107 | A frame built from a well-formed table is valid and holds that table |
| `Frames.Frame.Copy` | flask_app.py:134 | `df.copy()` is a fresh valid frame holding the same table |
| `Frames.Frame.DropColumn` | utils.py:55 | Returns a fresh frame holding `Drop` of this one, which is unchanged |
| `Frames.Frame.FillNaZero` | utils.py:68 | Returns a fresh frame holding `FillNa` of this one |
| `Frames.Frame.AssignColumn` | utils.py:62-65 | `df[col] = ...` in place: the frame now holds `Assign` of its old table and stays valid |
| `Validation.Schema` | utils.py:24-37 | The column view of a table has one entry per label in order, numeric exactly for number dtypes (not bool) |
| `Validation.Filter` | utils.py:29 | An entry is kept exactly when it is in the list and its membership among the names is as asked |
| `Validation.FilterAppend` | utils.py:29 | Filtering a concatenation is the concatenation of the filtered parts, so the kept names keep their order in the list |
| `Validation.NumericCount` | utils.py:35 | The number of numeric columns never exceeds the number of columns |
| `Validation.MissingMessage` | utils.py:32 | The missing-features message: the prefix, Python's list text of at most the first five missing names, then `...`; `FilterAppend` gives their `V1..V28` order and `NoFeaturesRejected` uses it |
| `Validation.ListRepr` | utils.py:32 | How Python prints a list of strings, `['V1', 'V2']`, as used in the missing-features message |
| `Validation.ValidateCsvData` | utils.py:13-40 | The three checks in order with their exact messages (fewer than 5 columns; more than 20 of `V1`..`V28` missing, with the first five named; under 80% numeric), and valid exactly when all three pass, with the passed message |
| `Validation.FilterPartition` | utils.py:28-29 | The missing and present features together account for all 28 expected names |
| `Validation.FilterNoneKept` | utils.py:29 | When no expected name is a column, none is present |
| `Validation.MissingToleranceIff` | utils.py:31 | The missing-feature check passes exactly when at least 8 of the 28 features are present |
| `Validation.MostlyNumericIff` | utils.py:36 | The numeric-share check in integer form: `5 * numeric >= 4 * columns` |
| `Validation.NoFeaturesRejected` | utils.py:24-32 | A table of 5 or more columns with no `V` feature fails on the missing-feature check, naming the first five |
| `Preparation.ToNumericCell` | utils.py:62-63 | `to_numeric(errors='coerce')` keeps numbers and NaN, turns bools into 1 and 0, parsable text into its number and unparsable text into NaN |
| `Preparation.ToNumericColumn` | utils.py:62-65 | A converted column is numeric and as long as before; it is all zeros when the conversion raises, otherwise each cell is converted |
| `Preparation.CoerceAllWellFormed` | utils.py:59-65 | Coercing every non-numeric column keeps a table well formed |
| `Preparation.CoerceAll` | utils.py:60-65 | The table after the coercion loop: labels, order and rows kept, each non-numeric column converted; `CoerceNonNumeric` is proved equal to it and `CoerceAllWellFormed` keeps it well formed |
| `Preparation.PreparedFeatures` | utils.py:51-68 | The returned features: the table without `Class`, coerced, with NaN filled; `PreparedSplit`, `PreparedIsNumeric`, `NumericColumnsKept` and `ObjectColumnPrepared` state its properties |
| `Preparation.InputAfterPrepare` | utils.py:53-65 | The caller's table afterwards: unchanged with `Class`, coerced in place without it (the alias at utils.py:57); `InputUnchangedIff` states when it differs |
| `Preparation.EnsuredFits` | utils.py:59-65 | A column after the loop keeps the row count, holds only cells its dtype allows, and is never a text column |
| `Preparation.CoerceNonNumeric` | utils.py:59-65 | The loop over the columns converts each non-numeric column in place (zeros when the conversion raises) and leaves labels, rows and numeric columns as they were |
| `Preparation.PrepareDataForPrediction` | utils.py:42-71 | Returns the `Class` column as labels when there is one and the prepared features as a fresh frame; the caller's frame is coerced in place exactly when it has no `Class` column |
| `Preparation.PreparedIsNumeric` | utils.py:58-68 | The prepared features are well formed, have no text column, and every cell is a number or a bool |
| `Preparation.PreparedSplit` | utils.py:51-56 | With `Class`, the features are the other columns in order and the labels are that column; without it, there are no labels and the features keep every column; rows are kept |
| `Preparation.NumericColumnsKept` | utils.py:58-68 | A numeric feature column comes out with only its NaN cells replaced by 0 |
| `Preparation.ObjectColumnPrepared` | utils.py:60-68 | A text feature column comes out all zeros when its conversion raises; otherwise a parsable value becomes its number and an unparsable one becomes 0 |
| `Preparation.InputUnchangedIff` | utils.py:51-65 | The caller's table is unchanged exactly when it has a `Class` column or no non-numeric column |
| `RiskMetrics.Occurrences` | utils.py:84-85 | A count of matching predictions never exceeds their number |
| `RiskMetrics.Mean` | utils.py:109 | `np.mean`: the mean times the count is the sum; `MeanBetweenMinAndMax` bounds it |
| `RiskMetrics.Max` | utils.py:110 | `np.max` is one of the probabilities and none exceeds it |
| `RiskMetrics.Min` | utils.py:111 | `np.min` is one of the probabilities and it exceeds none |
| `RiskMetrics.FraudRate` | utils.py:86 | The rate is NaN exactly for an empty batch; otherwise `rate * total == 100 * fraud` and the rate lies in 0..100 |
| `RiskMetrics.Tier` | utils.py:89-97 | The if-chain on the rate: above 5 HIGH, above 2 MEDIUM, else LOW; `TierBoundaries` and `TierMonotone` state its properties |
| `RiskMetrics.LevelOf` | utils.py:86-97 | The tier of a computed rate; a NaN rate fails both comparisons and is LOW, as `EmptyBatchIsLow` states |
| `RiskMetrics.LevelName` | utils.py:90-96 | The level labels `HIGH`, `MEDIUM` and `LOW`; `CalculateRiskMetrics` stores the one of the rate's tier |
| `RiskMetrics.LevelIcon` | utils.py:91-97 | The icons of the three tiers; `CalculateRiskMetrics` stores the one of the rate's tier |
| `RiskMetrics.CalculateRiskMetrics` | utils.py:72-113 | Fails exactly when handed an empty probability array; otherwise the key set is the six base keys plus the three statistics exactly when probabilities are given, with the counts, the rate, the level and icon of its tier, and the mean, maximum and minimum of the probabilities, so `min <= avg <= max` |
| `RiskMetrics.SumBounds` | utils.py:109-111 | The sum of the probabilities lies between `n * min` and `n * max` |
| `RiskMetrics.MeanBetweenMinAndMax` | utils.py:109-111 | The average probability lies between the minimum and the maximum |
| `RiskMetrics.CountsPartition` | utils.py:84-85 | When all predictions are 0 or 1, the legitimate and fraud counts add up to the total |
| `RiskMetrics.TierMonotone` | utils.py:89-97 | A higher rate never gives a lower tier |
| `RiskMetrics.TierBoundaries` | utils.py:89-97 | Strict thresholds: exactly 5% is MEDIUM, exactly 2% is LOW, and each interval maps to its tier |
| `RiskMetrics.TierFromCounts` | utils.py:83-97 | On the counts alone: HIGH iff `20 * fraud > total`, MEDIUM iff `50 * fraud > total >= 20 * fraud`, LOW iff `50 * fraud <= total` |
| `RiskMetrics.EmptyBatchIsLow` | utils.py:86-97 | An empty batch is rated LOW |
| `SummaryReport.GenerateSummaryReport` | utils.py:181-226 | The report is the heading with the batch figures and model path, exactly one assessment with the advice chosen by the level label (HIGH, MEDIUM, anything else LOW), and the probability section exactly when the average is present |
| `SummaryReport.SummaryOf` | utils.py:192-224 | The report's sections: the heading, the advice chosen by the level label, and the probability section when the average is present; `GenerateSummaryReport` is proved equal to it and `AdviceFollowsLevel` ties its advice to the tier |
| `SummaryReport.AdviceFollowsLevel` | utils.py:208-218 | When the level label names a tier, the assessment is that tier's advice |
| `SummaryReport.AdviceMatchesTier` | utils.py:89-113 | Metrics computed from a batch have every key the report reads, their level label is HIGH or MEDIUM exactly for those tiers, and they hold the average exactly when probabilities were given |
| `FileSize.Power1024` | utils.py:235-237 | Every power of 1024 is at least 1 |
| `FileSize.FormatFileSize` | utils.py:228-239 | `0B` exactly for 0; otherwise a unit among B..GB and a value that times 1024 to that power is the input, below 1024 unless the unit is GB, and at least 1 when any division happened |
| `FileSize.PowerMonotone` | utils.py:235-237 | Powers of 1024 grow with the exponent |
| `FileSize.PowerOrder` | utils.py:235-237 | Powers of 1024 are ordered as their exponents |
| `FileSize.ScalingBounds` | utils.py:235-237 | The chosen unit is the right one: the size is at least 1024 to its power (unless B) and below the next power (unless GB) |
| `FileSize.UnitNotAbove` | utils.py:235-237 | Two valid scalings of one size cannot have different units |
| `FileSize.ScalingUnique` | utils.py:228-239 | The result is determined: two results meeting the contract are equal |
| `ModelLoading.FirstUsable` | flask_app.py:51-62 | The chosen index is usable and every earlier path is not; none is chosen only when no path is usable |
| `ModelLoading.LoadModelWithFallback` | flask_app.py:51-62 | Returns a model exactly when it returns a path: the first path that exists, loads and has `predict`, with the object loaded from it; `(None, None)` when there is none |
| `ModelLoading.FirstUsableIsFirst` | flask_app.py:53-62 | The first usable path is pinned down by first-ness |
| `ModelLoading.FallbackKeepsEarlierChoice` | config.py:13-17 | Adding a candidate path after the others never changes an earlier success |
| `ModelLoading.ModelPaths` | config.py:13-17 | Three candidate paths, each in the application's directory or below it (`baseDir + "/"` is a prefix of every one) |
| `Annotation.PositiveClassProbabilities` | flask_app.py:121-128 | Probabilities exist exactly when `predict_proba` exists, succeeded and returned a 2-D array with at least two columns; they are its column 1 |
| `Annotation.ResultsTable` | flask_app.py:134-138 | Succeeds exactly when the predictions (and probabilities, if any) match the row count; then the uploaded labels come first, the new ones are appended, the label column holds the mapped labels, the probability column holds the probabilities, other columns are unchanged, and the table stays well formed |
| `Annotation.LabelsReadBack` | flask_app.py:136 | A label cell is `Fraudulent` exactly for prediction 1, `Legitimate` exactly for 0, and NaN otherwise |
| `Annotation.PredictionLabel` | flask_app.py:136 | The `.map({0: 'Legitimate', 1: 'Fraudulent'})` of one prediction, NaN for any other value; `LabelsReadBack` states it as an iff |
| `Annotation.AnnotateResults` | flask_app.py:134-138 | The in-place assignments leave the frame holding `ResultsTable` of its old table, or report the length mismatch |
| `FlaskApp.ShownPath` | flask_app.py:144 | `MODEL_PATH or "Unknown"`: the path unless absent or empty |
| `FlaskApp.Scored` | flask_app.py:133-144 | After the predictions, a metrics or results failure is a server error that leaves the store alone; a rendered page shows the computed metrics, the batch size and the advice of its tier, and the store gains exactly the results table's CSV under the token |
| `FlaskApp.Publish` | flask_app.py:140-144 | The last step of `/predict`: the page is rendered and the store gains the results' CSV under the token, every other entry unchanged |
| `FlaskApp.Analysis` | flask_app.py:117-144 | A prediction error redirects and only a rendered page changes the store; it shows the metrics of the predictions on the prepared features and stores the CSV of the annotated upload under the token, and nothing else |
| `FlaskApp.PredictOutcome` | flask_app.py:91-184 | The guards in order with their exact messages and categories, each leaving the store alone; a rendered page only after every guard and validation passed, storing under the token only |
| `FlaskApp.FeaturelessUploadRejected` | flask_app.py:112-115 | An upload with 5 or more columns and no `V` feature is redirected by validation, and nothing is stored |
| `FlaskApp.DownloadOutcome` | flask_app.py:187-200 | The bytes are sent exactly when the token is stored with non-empty bytes; the token is then removed; otherwise the expired message and the store unchanged |
| `FlaskApp.DownloadIsOneTime` | flask_app.py:189-194 | Right after a download the same token has expired |
| `FlaskApp.DownloadAfterPredict` | flask_app.py:140-142 | Downloading a rendered analysis's token hands out exactly the CSV of its results table and leaves the store as before the analysis without that token; empty bytes count as expired |
| `FlaskApp.App.constructor` | flask_app.py:48-64 | Start-up: an empty store and the first usable model of the configured paths under the application's directory |
| `FlaskApp.App.Predict` | flask_app.py:91-184 | The route's response and new store are those of `PredictOutcome` |
| `FlaskApp.App.Analyse` | flask_app.py:117-142 | On the uploaded table as a frame, the response and store are those of `Analysis` |
| `FlaskApp.App.PublishResults` | flask_app.py:140-144 | Stores the CSV under the token and renders the page, as `Publish` says |
| `FlaskApp.App.Download` | flask_app.py:187-200 | The route's response and new store are those of `DownloadOutcome` |

## Left out

- `ModelLoading.ModelPaths` joins the application's directory and the file names with `/`, as `str` of a POSIX `Path` does for a directory whose text does not end in `/`; other path normalisation is not modelled.
- Floating point: values are exact reals. Rounding in the 80% check, the rate division and `np.mean` is not modelled.
- `FileSize.FormatFileSize` divides exactly and never fails. The source's `size_bytes /= 1024.0` turns the int into a float, so sizes above 2^53 are rounded and an int beyond the float range raises `OverflowError`; neither is modelled.
- Number formatting in the report (`:,`, `:.2f`, `:.3f`) and in `format_file_size` (`:.1f`): the report sections carry the values, and `FormatFileSize` returns the value with its unit index.
- `create_prediction_visualizations` and the plotly HTML: presentation only.
- The static routes `/`, `/app.js` and `/analyze`, the templates, `flash`/`url_for` mechanics, and `send_file`'s MIME type and file name.
- The `streamlit` import, `run_flask.py`, and the other settings of `config.py`. They do not affect the pipeline.
- Reading and writing CSV, unpickling, the file system, the clock and token generation are parameters, as listed above.
- pandas dtypes beyond numbers, bools and object, and duplicate column labels (`read_csv` renames duplicates).
- Predictions are modelled as integers. A classifier returning other label types is not modelled.
- Errors raised by `predict` are a string. The texts of pandas' length-mismatch error and numpy's empty-reduction error are fixed constants, not pandas' and numpy's exact text.
- Concurrent requests sharing `RESULTS_STORE`: the model is sequential.
- The `actual_labels` returned by preparation are computed, as the source does, but `/predict` does not use them.
