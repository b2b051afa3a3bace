# Health prediction form and `/predict` handler — a Dafny model

This project models the two pieces of logic in a small health-prediction web service:

- **The React form** (`web_service/frontend/src/App.jsx`). It renders twelve numeric inputs, one per entry of `topFeatures`. Each edit is validated with `validateInput`, and the value and its message are stored in the `form` and `errors` maps. On submit, a guard blocks the request when any stored message is non-empty. Otherwise the handler sets `loading`, posts `form` and stores either the server's answer or an error object in `result`, then clears `loading`.
- **The Flask handler** (`web_service/backend/app.py`). `predict` copies `default_values` and overwrites it with every key of the request body. It then projects the result onto the fixed, ordered column list `all_features` and answers with the classifier's prediction. When anything raises, it answers `{"error": message}` with status 500.

Modules:

- `Wrappers` and `Sequences` (`wrappers.dfy`): `Option`, and predicates for lists without duplicate names and for lists with no name in common.
- `HealthForm` (`health_form.dfy`): the App.jsx model. The component state is the class `App`, with the fields `form`, `errors`, `result` and `loading`. Each handler is a method that updates those fields.
- `PredictService` (`predict_service.dfy`): the app.py model. The overlay is a method with a loop over the body's keys, specified by the function `Overlaid`. The projection is the function `Project`.
- `FeatureAgreement` (`feature_agreement.dfy`): facts that need both files. The form's twelve fields are exactly the columns without a default, so a complete form leaves no column missing. A reply of the handler reaches `result` as the form's catch block promises.

Modelling choices:

- Numbers are `real`. Every comparison is against 0, 10, 50 or 100.
- `parseFloat` is not modelled. `HandleChange` receives its result as an `Option<real>`, where `None` stands for NaN. `parseFloat(value) || 0` then maps `None` to 0.
- React state setters are immediate field updates.
- The awaited POST splits `handleSubmit` into two methods:
  - `HandleSubmit`: the guard, `setLoading(true)`, and the request body it returns.
  - `ReceiveOutcome`: the `try`/`catch`/`finally` once the call settles. It takes the call's outcome as an argument.
- The submit button is disabled while loading. This becomes `requires !loading` on `HandleSubmit`.
- `default_values` is an immutable value, so the handler's copy cannot change it.
- The column list is written as three literals, split where the source's lines break (app.py lines 13-16, 17-21 and 22-24). Their concatenation is the source's list.
- The user-facing messages are App.jsx's own French strings, e.g. `"Erreur du serveur: "` (App.jsx lines 114-117).
- The `catch` block uses the status text in place of the server's `error` field when that field is missing and also when it is the empty string, as JavaScript's `||` does (App.jsx line 116).
- When `err.response.data` is null or undefined, reading `.error` throws inside the `catch` block (App.jsx line 116). `result` then keeps its old value, and the `finally` block still clears `loading` (lines 119-120).

## Model

| member | source | states |
|---|---|---|
| `HealthForm.TopFeatureNamesDistinct` | web_service/frontend/src/App.jsx:4-65 | there are twelve inputs, and no two share a name |
| `HealthForm.ValidateInput` | web_service/frontend/src/App.jsx:73-79 | the message is empty exactly when the value is non-negative, a BMI lies in [10, 50] and a percentage is at most 100; the only messages are "", the negative, the BMI and the percentage ones |
| `HealthForm.NegativeRejectedEverywhere` | web_service/frontend/src/App.jsx:74 | every field rejects every negative value with the negative-value message, BMI and percentages included |
| `HealthForm.BmiRule` | web_service/frontend/src/App.jsx:75 | a non-negative BMI is rejected exactly when it is below 10 or above 50, and only ever with the BMI message |
| `HealthForm.PercentRule` | web_service/frontend/src/App.jsx:76-77 | a non-negative Fat (%) or Carbohydrates (%) gets the percentage message exactly when it exceeds 100, and "" otherwise |
| `HealthForm.OtherFieldsAccept` | web_service/frontend/src/App.jsx:78 | any other field accepts every non-negative value |
| `HealthForm.NumericValue` | web_service/frontend/src/App.jsx:83 | a parsed number is stored as is; the stored value is 0 exactly when the text is unparsable or reads as 0 |
| `HealthForm.UnparsableReadsAsZero` | web_service/frontend/src/App.jsx:83-84 | unparsable text is stored as 0 and validated as 0, so an unparsable BMI gets the BMI range message |
| `HealthForm.HasErrors` | web_service/frontend/src/App.jsx:101 | the guard's test over the stored messages holds exactly when some field has a non-empty message |
| `HealthForm.AbsentFieldCountsAsValid` | web_service/frontend/src/App.jsx:101 | a field with no entry in `errors` counts as a field without error for the guard |
| `HealthForm.GuardMatchesRules` | web_service/frontend/src/App.jsx:84-101 | when `errors` holds each edited field's verdict, the guard passes exactly when every edited value satisfies the range rules |
| `HealthForm.FailureMessage` | web_service/frontend/src/App.jsx:114-118 | building the message fails exactly when the response has no data; without a response it is the connection message; with one it starts with "Erreur du serveur: " |
| `HealthForm.ConnectionFailureMessage` | web_service/frontend/src/App.jsx:117 | a failure without a response yields the fixed connection message |
| `HealthForm.ServerFailureMessage` | web_service/frontend/src/App.jsx:115-116 | a failure with a response yields "Erreur du serveur: " followed by the server's `error` field when non-empty, by the status text otherwise |
| `HealthForm.ServerErrorNotConnectionError` | web_service/frontend/src/App.jsx:114-118 | a server-error message never equals the connection message |
| `HealthForm.Settle` | web_service/frontend/src/App.jsx:111-118 | a fulfilled call stores its data; a rejection stores the error object built by `FailureMessage`, and keeps the old result when building that message throws |
| `HealthForm.SettleIdempotent` | web_service/frontend/src/App.jsx:107-121 | settling again with the same outcome leaves the result as settling once did, so a repeated attempt with the same answer shows the same result |
| `HealthForm.SettleIgnoresPrevious` | web_service/frontend/src/App.jsx:107-121 | every attempt overwrites `result` regardless of what it held, unless the rejection's response has no data |
| `HealthForm.SettleKeepsResultWithoutData` | web_service/frontend/src/App.jsx:114-116 | a rejection whose response has no data leaves `result` as it was, because building the message throws before `setResult` |
| `HealthForm.App.constructor` | web_service/frontend/src/App.jsx:68-71 | the state starts with two empty maps, no result and `loading` false, and satisfies the invariant |
| `HealthForm.App.HandleChange` | web_service/frontend/src/App.jsx:81-95 | only key `name` changes, in `form` (to the parsed value or 0) and in `errors` (to that value's verdict); every other key, `result` and `loading` are unchanged; the invariant "each error is the verdict on its stored value" is kept |
| `HealthForm.App.HandleSubmit` | web_service/frontend/src/App.jsx:97-109 | no request is issued exactly when some stored message is non-empty, and then nothing changes; otherwise `loading` becomes true and the request body is `form`; `form`, `errors` and `result` never change |
| `HealthForm.App.ReceiveOutcome` | web_service/frontend/src/App.jsx:110-121 | `result` becomes `Settle` of the old result and the outcome, `loading` ends false on every path, and `form` and `errors` are unchanged |
| `HealthForm.FatAboveLimitBlocksSubmit` | web_service/frontend/src/App.jsx:76-104 | after entering 150 for Fat (%), the field shows the percentage message and submit issues no request |
| `HealthForm.UnreachableServerScenario` | web_service/frontend/src/App.jsx:106-121 | a valid submission whose call gets no response shows the connection message and ends with `loading` false |
| `PredictService.ColumnGroupsDisjoint` | web_service/backend/app.py:12-25 | the three line groups of the column list share no name |
| `PredictService.AllFeaturesDistinct` | web_service/backend/app.py:12-25 | the column list has 50 entries and no duplicate names |
| `PredictService.DefaultsCoverLeadingColumns` | web_service/backend/app.py:12-67 | the keys of `default_values` are exactly the first 38 columns, and no form column has a default |
| `PredictService.Overlaid` | web_service/backend/app.py:79-83 | the overlay's keys are the default keys plus the body's keys; a body value wins over a default; a default the body does not name survives |
| `PredictService.OverlaidCharacterized` | web_service/backend/app.py:79-83 | those three properties determine the overlay uniquely |
| `PredictService.Overlay` | web_service/backend/app.py:79-83 | copying the defaults and assigning each body item in turn yields exactly `Overlaid(defaults, data)` |
| `PredictService.Cell` | web_service/backend/app.py:86 | a cell is present exactly when its column is a key of the overlaid map, and then holds that key's value |
| `PredictService.Project` | web_service/backend/app.py:86 | the row has one cell per column, in column order; a cell is present exactly when its column is a key, and then holds that key's value |
| `PredictService.ProjectOnlyReadsColumns` | web_service/backend/app.py:86 | two maps that agree on every column give the same row |
| `PredictService.ForeignKeyDropped` | web_service/backend/app.py:82-86 | a body key that is not a column does not change the row |
| `PredictService.Reply` | web_service/backend/app.py:90-100 | a classification gives status 200 with prediction and confidence; an exception gives status 500 with `{"error": message}` |
| `PredictService.Predict` | web_service/backend/app.py:73-100 | the status is 200 or 500, and 500 exactly when the body is an error; a body that is not an object gives 500 with the exception's text; otherwise the reply is the classifier's answer on the overlaid, projected row |
| `FeatureAgreement.FormColumnsAreTopFeatures` | web_service/backend/app.py:22-24 | the last twelve columns are the form's field names, in the form's order |
| `FeatureAgreement.FeatureSetsPartition` | web_service/backend/app.py:12-67 | the default keys and the twelve form names are disjoint, and their union is the column set |
| `FeatureAgreement.CompleteFormFillsEveryColumn` | web_service/backend/app.py:79-86 | a body holding all twelve form fields leaves no projected column missing |
| `FeatureAgreement.FormBodyRow` | web_service/backend/app.py:79-86 | for a body made of form fields, each sent value lands in its field's column, and the 38 leading columns keep their defaults |
| `FeatureAgreement.Deliver` | web_service/frontend/src/App.jsx:109-116 | a response resolves the call exactly when its status is 2xx, and then the call yields the body; any other status rejects the call with a response carrying the status, the status text and the body's `error` field (absent for a prediction body) |
| `FeatureAgreement.ClassificationShown` | web_service/frontend/src/App.jsx:109-111 | the handler's classification reaches `result` unchanged |
| `FeatureAgreement.ExceptionShown` | web_service/backend/app.py:98-100 | a handler exception is shown as "Erreur du serveur: " followed by its text, or by the status text when the text is empty |
| `FeatureAgreement.PositiveResultScenario` | web_service/frontend/src/App.jsx:97-121 | BMI 22 submitted and classified 1 with confidence 0.87: `result` holds that prediction and `loading` is false |
| `FeatureAgreement.ModelUnavailableScenario` | web_service/backend/app.py:98-100 | the classifier raises "model unavailable": the form shows "Erreur du serveur: model unavailable" and `loading` is false |

## Left out

- The rendering: JSX, CSS classes, SVGs, and the display of `errors`, `loading` and `result`. This is presentation with no logic to verify.
- `(confidence * 100).toFixed(1)` and `round(confidence, 4)`: floating-point formatting and rounding.
- `PredictService.Predict`: its confidence is the classifier's value, not rounded to four decimals.
- The grammar of `parseFloat`. It is foreign code; the model takes its result as an argument.
- The axios POST, Flask routing, CORS and `request.get_json()`. These are network plumbing.
  - The form's call outcome is an argument of `ReceiveOutcome`.
  - The handler's request body is an argument of `Predict`; `Unusable` stands for any body whose use raises.
  - `FeatureAgreement.Deliver` models only the client's 2xx / non-2xx split; the HTTP reason phrase is an argument.
- The request body's values are `real`. A JSON body carrying strings, booleans or nested values is not modelled.
- The pickled XGBoost model, `model.predict` and `predict_proba`. These are foreign calls; `Predict` takes the classifier as a function argument.
- `console.log`, `console.error` and `print`: logging only.
- React's asynchronous state batching. Each setter is an immediate update.
- Overlapping submissions are excluded by `requires !loading`, standing for the disabled button, rather than modelled as concurrency.
- Other edits arriving while the request is in flight are not prevented. The model allows `HandleChange` between `HandleSubmit` and `ReceiveOutcome`, as the source does.
- The browser's `required` check on the inputs, which runs before the submit handler. `HandleSubmit` admits a form with untouched fields, as the handler itself does.
- `preprocessing.py` is not part of this model. It is CSV input/output, library calls and plotting, with no self-contained logic.
