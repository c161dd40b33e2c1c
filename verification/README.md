# Battery health prediction: verified core

A Dafny model of the decision logic of a Streamlit battery-health dashboard. The
dashboard reads three sensor values: voltage, current and temperature. It builds the
feature vector `[v, i, t, power]`, where power is `v * i` rounded to two places. A
pre-trained scaler and regression model turn that vector into a health score, rounded
to two places. The score is classified into three labels: estimated remaining life,
recommended load and suitability. Each prediction is appended as one record to the
session history. The status panel shows the last record, and the PDF export lists
every record under a fixed five-column header.

Modules:

- `Wrappers`: `Option` and `Result`.
- `Classifier`: the threshold classifier `GetDetailedPrediction` over all real scores,
  with the exact label strings of the dashboard. Beside it are an independent reference
  rank (`Grade`, the number of tier bounds 30, 50 and 80 a score reaches) and lemmas for
  tier ranges, boundaries, no clamping and monotonicity.
- `Features`: the feature vector and its column schema `[Voltage, Current, Temp, Power]`.
- `Ledger`: the prediction pipeline `Evaluate` (features, then scaler and model, then
  rounding, then classification, then record). `Session` is a class whose `history`
  field is the session's list, and `Session.Predict` appends only on success.
  `Replay` runs a sequence of requests, one per press of the predict button, and the
  lemmas about it state the append-only discipline over a whole session. The session
  snapshot that the views and the export read is the `history` field itself, so two reads
  with no prediction in between are equal.
- `Report`: the abstract report table, made of a header row and one row per record.
  `ExportTable` builds it with a loop, as the export does.

The scaler and the model are an opaque parameter `predictor: seq<real> -> Result<real,
ScoreError>`; a failure skips the append. Rounding to two places is a parameter
`round2: real -> real`. Formatting the score for the report is a parameter
`fmt: real -> string`. The timestamp is a string parameter.

The label strings are exactly those of app.py:38-44.

## Model

| member | source | states |
|---|---|---|
| Classifier.GetDetailedPrediction | app.py:36-44 | total over every real score: the result is always one of the four fixed label triples |
| Classifier.Grade | app.py:37-43 | the reference rank, the number of bounds 30, 50 and 80 a score reaches, is one of the four tier ranks |
| Classifier.Rank | app.py:37-44 | each of the four triples has a rank 0..3 (Critical, Fair, Good, Excellent), and the rank gives back the triple |
| Classifier.TiersDistinct | app.py:38-44 | the four tiers differ in every label, so a score yields exactly one triple and one label identifies the tier |
| Classifier.TierRanges | app.py:37-44 | Excellent iff score >= 80, Good iff 50 <= score < 80, Fair iff 30 <= score < 50, Critical iff score < 30: bounds are inclusive, above 100 stays Excellent, negatives are Critical |
| Classifier.ClassifierAgreesWithGrade | app.py:37-44 | the if-cascade picks exactly the tier whose rank is the number of bounds the score reaches |
| Classifier.MetMonotone | app.py:37-43 | a higher score reaches at least as many of the bounds |
| Classifier.ClassifierMonotone | app.py:37-44 | s1 <= s2 implies the tier of s2 ranks at least as high as the tier of s1 |
| Features.PowerOf | app.py:33 | the power column is the product v * i rounded to two places by round2 (its value is pinned by the BuildFeatures contract) |
| Features.BuildFeatures | app.py:47 | the vector has length 4, and position k holds the column the schema names at k: voltage, current, temperature, then power = round2(v * i) |
| Features.SchemaIsPermutation | app.py:47 | the schema lists each of the four columns exactly once |
| Features.DefaultReadingFeatures | app.py:30-33 | the default inputs 52 V, 2 A, 30 °C give the vector [52, 2, 30, 104] |
| Ledger.Evaluate | app.py:47-57 | the pipeline fails exactly when the scaler or model fails, with its error; on success the record holds the inputs, the power fed to the model, the score round2(raw), and the classifier's labels for that score |
| Ledger.Commit | app.py:54-58 | the append that happens only on success: the history grows by one on success and by nothing on failure, the earlier entries are kept as a prefix, and on success the new record is the last |
| Ledger.CommitIsAppend | app.py:54-58 | a commit adds at the end of the history only, so committing to h is h followed by what committing to an empty history adds |
| Ledger.Last | app.py:61-62 | the status record is absent exactly when the history is empty, else it is the last element |
| Ledger.Replay | app.py:46-58 | the session as a series of presses of the predict button: the history grows by at most one record per request and keeps the earlier history as a prefix |
| Ledger.ReplayAppends | app.py:54-58 | a run of requests leaves the earlier history intact and appends exactly the records of the successful requests, in request order |
| Ledger.RecordedClassified | app.py:52-58 | every record a run of requests adds carries the classifier's labels for its own score |
| Ledger.ReplayKeepsHistory | app.py:54-58 | over a session the history never shrinks, keeps its prefix, stays classified, and once non-empty stays non-empty |
| Ledger.ThreePredictions | app.py:46-62 | three successful predictions scoring 85, 45 and 10 give a history of length 3 in that order, tiered Excellent, Fair, Critical, with the third shown as the last |
| Ledger.Session.constructor | app.py:25-26 | a session starts with an empty history and no status record |
| Ledger.Session.Predict | app.py:46-58 | returns the pipeline's result; on success the history grows by exactly that record and it becomes the last; on failure the history is unchanged; earlier entries never change; the classified invariant is kept |
| Report.ReportRow | app.py:126-130 | the row written for one record carries its time and a health cell ending in "%", and for a classified record its life, load and suitability cells are the classifier's labels for its score |
| Report.DataRowsAt | app.py:125-131 | one data row per record, and row k is the row of record k |
| Report.ReportTableAppend | app.py:125-131 | appending a record to the history adds exactly its row at the end of the report |
| Report.ReportShowsClassification | app.py:125-130 | in the report of a classified history, the life, load and suitability cells of each row are the classifier's labels for that record's score |
| Report.ExportTable | app.py:116-131 | the table is the header ("Time", "Health %", "Est. Life", "Rec. Load", "Suitability") followed by exactly one row per record in history order, with time, score + "%", remaining life, recommended load and suitability |

## Left out

- Streamlit page setup, sidebar widgets and the `st.session_state` mechanics (app.py:20-32, 64-70, 136-147) are user interface. The session is the explicit `Session` object instead.
- Loading the model and scaler with `joblib` (app.py:13-18), and what `scaler.transform` and `model.predict` compute (app.py:48-49). They are a foreign machine-learning library, so they are the opaque `predictor` parameter.
- Ledger.Evaluate: the source raises whatever exception the library throws; the model narrows this to two error kinds, `ModelUnavailable` and `FeatureMismatch`, and does not model how the exception is shown.
- The gauge, the 3-D scatter and the bar chart (app.py:74-104) are presentation only. The gauge's colour steps (0-30, 30-60, 60-100) do not follow the classifier's thresholds, and they are not modelled.
- PDF rendering (app.py:107-114, 133) is a foreign library and is not modelled. This covers the title and "Report Generated" lines, fonts, cell widths and the latin-1 byte encoding. Only the abstract row table is modelled.
- `datetime.now()` (app.py:55, 113) is not deterministic. The time is an opaque string parameter.
- Floating-point arithmetic and the behaviour of `round(_, 2)` (app.py:33, 50) are left out. Numbers are `real`, and rounding is the `round2` parameter.
- The f-string formatting of the score in the report (app.py:127) is left out. It is the `fmt` parameter.
