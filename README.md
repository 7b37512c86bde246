# HeartGuard AI scoring core, modelled in Dafny

HeartGuard AI serves a pre-trained heart-failure mortality classifier behind
a small Flask application, with some browser-side helpers. This project
models the logic that belongs to the application itself and proves
properties about it:

- **Risk levels** (`risk_level.dfy`, module `RiskLevels`). `get_risk_level`
  maps a death percentage to Low, Moderate, High or Critical. Each level has
  a fixed colour tag and a fixed description.
- **Scoring** (`scoring.dfy`, module `Scoring`):
  - the all-or-nothing artifact state produced at start-up;
  - the `POST /predict` handler, as a pipeline of results. It fetches and
    converts the twelve form fields in a fixed order, checks the
    feature-name list against the row, decides on scaling from the model's
    class name, calls the classifier, and builds the response;
  - the `GET /api/info` snapshot.

  The fitted classifier and scaler are opaque. They appear as function
  values inside the artifact record. Every exception they could raise is a
  `Failure` value, and the handler turns each one into a
  `{success: false, error}` response.
- **Client validation** (`validation.dfy`, module `ClientValidation`).
  `HeartGuardAI.validateInput` checks required, then min, then max.
- **Event history** (`event_history.dfy`, module `EventHistory`).
  `trackEvent` appends one event to the stored list and keeps the last 100.
  It is modelled as a class whose `history` field stands for the list kept
  in local storage.
- `wrappers.dfy` holds the `Option` and `Result` types used by the others.

Notes on the code's behaviour:

- The Critical bucket has no upper bound. Anything from 60 up is Critical,
  including values above 100.
- The scaler decision is made by matching the class name against "SVC" and
  "LogisticRegression". There is no capability flag stored with the
  artifact.

## Model

| member | source | states |
|---|---|---|
| RiskLevels.GetRiskLevel | app.py:102-111 | Total over all reals. Low iff p < 20, Moderate iff 20 <= p < 40, High iff 40 <= p < 60, Critical iff p >= 60. The colour and description are the level's fixed ones. |
| RiskLevels.RankCountsThresholds | app.py:104-111 | The bucket's rank equals the number of thresholds 20, 40, 60 that p has reached, so the if/elif chain agrees with the threshold table. |
| RiskLevels.ReachedMonotone | app.py:104-108 | For any list of thresholds, the count reached is monotone in p. |
| RiskLevels.RiskMonotone | app.py:104-111 | If p <= q, the bucket of p ranks no higher than the bucket of q. |
| RiskLevels.ColorTags | app.py:105-111 | The colour is success below 20, warning in [20, 40) and danger from 40 on. High and Critical share danger. |
| RiskLevels.Boundaries | app.py:104-110 | Because every comparison is a strict `<`, 20, 40 and 60 fall into the upper bucket. 0 is Low and 100 is Critical. |
| RiskLevels.TestedLevels | tests/test_app.py:130-156 | 15, 35, 55 and 75 give Low/success, Moderate/warning, High/danger and Critical/danger. |
| Scoring.Load | app.py:10-28 | The state is loaded iff all three artifacts loaded, and it then holds exactly those three. Otherwise nothing is loaded. |
| Scoring.ParseField | app.py:49-62 | A field converts iff it is present and its parser accepts the string. A missing field gives MissingField and a rejected string gives BadValue. |
| Scoring.ParseFeatures | app.py:49-62 | Succeeds iff every field converts, giving one entry per field in order. Otherwise it fails with the fault of the first failing field. |
| Scoring.FieldTable | app.py:49-62 | The twelve fields are the canonical feature names in order. Positions 1, 3, 5, 9 and 10 are exactly the integer fields. |
| Scoring.FeatureVectorLayout | app.py:49-65 | On success the vector has 12 entries. Entry i is field i's string read by `float()`, or by `int()` for the integer fields. |
| Scoring.Prepare | app.py:70-78 | Picks the row for the classifier: the scaler's output when the class name is a scaled family, the raw row otherwise. A scaler fault becomes a failure. |
| Scoring.ScaledFamilyNames | app.py:71-72 | Scaling is applied iff the class name is "SVC" or "LogisticRegression". The placeholder RandomForestClassifier is not scaled. |
| Scoring.ScalerIgnoredForUnscaledFamilies | app.py:71-78 | For a model outside the scaled families, replacing the scaler does not change the response. |
| Scoring.Score | app.py:45-91 | On success: every field parsed and the name list has 12 entries. The classifier receives the scaled row for a scaled family and the raw row otherwise. The label and probability row come from the classifier on the prepared row. Death = p[1]*100, survival = p[0]*100, and the risk level is that of the unrounded death value. A parse failure is propagated unchanged. |
| Scoring.Predict | app.py:36-100 | With nothing loaded, the response is exactly "Model not loaded properly". A loaded handler's failure always starts with "Prediction error: ". A success implies that all fields parsed, and its risk level is that of the unrounded death value. |
| Scoring.FaultText | app.py:50-98 | A rejected string yields Python's `float()` or `int()` ValueError text, chosen by the field's kind, ending with the quoted string. A library exception's message passes through unchanged. For the other faults the words are the model's own. |
| Scoring.MissingFieldFails | app.py:49-100 | Any missing field yields a failed response with the "Prediction error: " prefix. |
| Scoring.UnparseableFieldFails | app.py:50-100 | Any field whose string its parser rejects yields a failed response with the "Prediction error: " prefix. |
| Scoring.FirstFailingFieldReported | app.py:49-62 | The error text is that of the first field, in vector order, that fails. |
| Scoring.SuccessfulPrediction | app.py:71-91 | When every step succeeds, the response is the label, p[1]*100, p[0]*100 and the bucket of p[1]*100. |
| Scoring.ProbabilitiesArePercentages | app.py:81-82 | If the classifier's rows are two-class distributions, both reported values lie in [0, 100] and add up to 100. |
| Scoring.ApiInfo | app.py:114-124 | Reports an error iff nothing is loaded. Otherwise it reports the class name, the names, total_features = their count, and "ready". |
| Scoring.ReadinessAgrees | app.py:39-117 | `/api/info` reports ready iff `/predict` does not answer "Model not loaded properly". |
| Scoring.ScoredImpliesTwelveFeatures | app.py:68-122 | If any prediction succeeds, `/api/info` reports 12 features. |
| ClientValidation.ValidateInput | static/js/custom.js:160-177 | Valid iff none of the required, min and max checks fires, and the message is then empty. The required message takes precedence over min, and min over max. Each check gives its own message. |
| ClientValidation.RejectionsExplain | static/js/custom.js:164-176 | A result is invalid iff its message is non-empty. The required message appears iff the field is required and empty. |
| ClientValidation.NoRulesAcceptsAll | static/js/custom.js:162-176 | Without rules, every input is valid. |
| ClientValidation.EmptyOptionalFieldIsValid | static/js/custom.js:161-176 | An empty, non-required field is valid whatever its bounds. |
| ClientValidation.UnparseableValuePassesBounds | static/js/custom.js:161-176 | A non-empty value that parses to NaN is always valid. |
| ClientValidation.RaisingMinKeepsRejections | static/js/custom.js:164-174 | Raising the minimum never turns a rejected input into an accepted one. |
| EventHistory.KeepLast | static/js/custom.js:149 | For a positive n, `slice(-n)` returns the suffix of length min(|s|, n). |
| EventHistory.AppendThenKeep | static/js/custom.js:143-149 | After append-and-truncate there are at most n entries and the new event is last. The entries before it are the most recent of the old list, in order. Below n entries, nothing is dropped and the length grows by one. |
| EventHistory.FullLogDropsOldest | static/js/custom.js:143-149 | On a full log, tracking one event drops exactly the oldest entry. |
| EventHistory.EventLog.constructor | static/js/custom.js:143 | The log starts from the stored list, and from the empty list when nothing is stored. |
| EventHistory.EventLog.TrackEvent | static/js/custom.js:138-150 | The new history is the last 100 of old history plus the event. It holds at most 100 entries with the event last, and grows by exactly one below 100. |

## Left out

- Flask routing, template rendering, `jsonify`, the 404 and 500 handlers and `app.run` are framework I/O.
- The diagnostic `print` calls in app.py and `console.log` in custom.js are console output.
- Unpickling the three files is I/O. Each outcome enters `Scoring.Load` as an `Option`.
- Scoring.Load: each unpickled artifact is assumed to have its declared type. A pickled `None` model, which the source treats as not loaded (app.py:39, 116), is not modelled. A pickled `None` name list, which reports 0 features (app.py:122), is not modelled either.
- scikit-learn, NumPy and pandas are not modelled:
  - the classifier's `predict`/`predict_proba` and the scaler's `transform` are opaque function values, and their exceptions are `Failure` values carrying the library's message;
  - of `pd.DataFrame` (app.py:68), only the failure when the name list does not have one name per column is modelled;
  - `np.array(...).reshape(1, -1)` is the identity on the row.
- Python's `float()`/`int()` string grammar and JavaScript's `parseFloat` are parser parameters. For `parseFloat` only, NaN is `None`. `parseFloat` can also return ±Infinity (for "Infinity" or "1e999"); the parser parameter stands for that with a real beyond the bound, so the min and max outcomes are the same.
- Feature values and probabilities are reals. Python's `float()` also accepts "nan" and "inf"; these non-finite values are not modelled. So `get_risk_level` of NaN, which is Critical because every `<` is false, is not modelled. The float64 rounding at `np.array` is not modelled either.
- Scoring.Predict: the reported probabilities are not passed through `round(x, 2)`; floating-point rounding is not modelled. The risk level uses the unrounded value, as in the source. So the source can report a rounded death_probability that lies in a higher bucket than its risk_level: a classifier value of 0.19999 is reported as 20.0 with risk level Low. In the model the reported value and the bucketed value are the same, so this split does not appear.
- Scoring.FaultText: the words after "Prediction error: " for a missing field, a name-list mismatch and a probability index error are this model's own. The source shows werkzeug's, pandas' and NumPy's exception text there.
- Scoring.FaultText: a rejected string is quoted verbatim between single quotes. Python's message uses `repr`, so the text differs whenever `repr` changes the string: the choice of quote (for `6'5`: `could not convert string to float: "6'5"`), doubled backslashes, and escaped control and non-printable characters. `int()` also cuts the quoted value at 200 characters; the model never cuts it.
- Scoring.Score: the classifier's `predict` returns an `int` label, so a label that `int()` rejects (app.py:86) is reported before a `predict_proba` failure or a probability-index failure. The source converts the label last, after app.py:75/78 and 81-82.
- EventHistory.KeepLast: defined for a positive count only. `slice(-0)` would return the whole list; the source only uses 100.
- Scoring.Predict: a form is a map from name to one string. Flask's multi-valued form, which returns the first value, is not modelled.
- ClientValidation.ValidateInput: a bound is a number or absent. A `null` bound passes the `!== undefined` test and compares like 0; the source then answers "Value must be at least null". That case is not modelled.
- ClientValidation.ValidateInput: the template rendering of the bound is the parameter `show`; JavaScript number-to-string formatting is not modelled.
- create_models.py trains on random data and pickles the result. Only its feature-name list is used here, as `Scoring.FeatureNames`.
- custom.js browser code is DOM and browser work with no modellable logic:
  - the analytics wiring, keyboard shortcuts, accessibility setup and result export;
  - the MutationObserver, `resetForm` and `extractResultData`;
  - `generateTestData` (random), `formatNumber` (`toFixed` formatting) and the service-worker registration.
- EventHistory.Event: the event's `data` payload, an arbitrary object in the source, is reduced to a map of string properties. The JSON round trip through local storage, which would drop functions and undefined values and turn dates into strings, is not modelled.
- The JSON serialisation to and from local storage in `trackEvent` is replaced by the `history` field. The event timestamp, a clock reading, is a parameter.
