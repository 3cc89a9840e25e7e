# Diabetes detection: the diagnosis and risk decisions

The web application takes eight health measurements from a form and asks a
pre-trained classifier whether the subject is diabetic. A positive answer is
then refined by two ordered threshold rules into "Type 1" or "Type 2", with
"Type 2 (Uncertain)" as the fallback when neither rule matches. A negative
answer gives "Non-Diabetic". The label is kept in the client's session under
`diabetes_type`. A separate "future risk" page
reads a record from the session, averages glucose, BMI and age, and buckets the
mean into Low, Moderate or High. When there is no record it redirects home.

This project models those decisions in Dafny and proves their properties:

- `wrappers.dfy`: `Option` and `Result`, the explicit failure values that stand
  in for the handlers' exceptions.
- `classification.dfy` (`Classification`): the labels, their texts, and the
  ordered rules as a total function.
- `risk.dfy` (`Risk`): the mean and the bucketing at 100 and 150.
- `record.dfy` (`PatientRecord`): building the eight-field record from a form.
  Missing fields get their defaults and unparsable ones are errors.
- `app.dfy` (`App`): the `predict`, `dashboard` and `future_risk_dashboard`
  handlers. The session is a `Session` object holding a map that `Predict`
  updates in place. `Diagnose`, `StoreDiagnosis` and `RiskView` are the
  functions the handlers are proved against. The file also has lemmas about a
  client's session across a run of submissions.

Things passed in as parameters rather than modelled:

- The number parsers `int(...)` and `float(...)` are passed as partial
  functions (`Parsers`).
- The classifier is an opaque `Record -> Option<int>`. `None` means it raised.
- The loaded model is an `Option`. `None` means loading failed at start-up.

Numbers are `real`.

As the source stands, `predict` writes only `diabetes_type` and never stores
the record under `user_input`. The model keeps that behaviour.
`RiskViewUnaffectedByPredicts` and `PredictThenRisk` prove what follows from it:
no run of submissions changes what the risk dashboard answers, so a fresh
client is always redirected home.

Behaviour of the handlers that is easy to miss:

- The risk page redirects whenever the stored record is falsy in Python's
  sense. That covers a missing record and an empty one, but also an empty
  string or zero.
- A stored value that is not a dictionary, or a glucose/BMI/age entry that is
  not a number, raises inside the handler. The handler then renders "Error in
  future risk assessment" (`RiskFailure`). It does not redirect.
- A missing glucose, BMI or age inside the stored record counts as 0.

## Model

| member | source | states |
|---|---|---|
| Classification.TypeLabel | app.py:56-74 | "Non-Diabetic" exactly when the verdict is negative. A diabetic record gets one of the three diabetic labels. "Type 1" exactly when diabetic, Age < 30, BloodPressure >= 140 and BMI < 25. "Type 2" exactly when diabetic, Age >= 30 and BMI >= 25. "Type 2 (Uncertain)" exactly when diabetic and neither rule applies |
| Classification.CriteriaDisjoint | app.py:63-66 | the Type 1 and Type 2 conditions never hold together, so the rule order cannot hide a Type 2 record behind Type 1 |
| Classification.NegativeIgnoresMeasurements | app.py:71-74 | a negative verdict gives "Non-Diabetic" whatever age, BMI and blood pressure are |
| Classification.Type2IgnoresBloodPressure | app.py:65-66 | once Age >= 30 and BMI >= 25, any two blood pressures give the same label, "Type 2" |
| Classification.WorkedExamples | app.py:63-68 | three sample diabetic records: (Age 25, BMI 20, BP 150) is Type 1; (40, 30, any BP) is Type 2; (40, 20, any BP) is Type 2 (Uncertain) |
| Classification.Boundaries | app.py:63-66 | Age 30 is not young, BP 140 already counts as high, BMI 25 is not lean: the comparisons are strict or inclusive as written |
| Classification.LabelTextInjective | app.py:64-74 | different labels are rendered and stored as different strings |
| Risk.RiskScore | app.py:114 | the score is the mean of glucose, BMI and age: three times it is their sum, and it lies between the smallest and the largest of them |
| Risk.RiskLevel | app.py:115 | Low exactly when score < 100, Moderate exactly when 100 <= score < 150, High exactly when score >= 150 |
| Risk.RiskLevelMonotone | app.py:115 | a higher score never gives a lower level |
| Risk.LevelOfSum | app.py:114-115 | read on the sum of the three values, the cut-points are 300 and 450 |
| Risk.BoundaryExamples | app.py:114-115 | a mean of exactly 100 is Moderate, 99.9 is Low, exactly 150 is High |
| PatientRecord.IntField | app.py:35 | an absent pregnancy count is 0; a present one is what the integer parser gives, or an error naming the field |
| PatientRecord.FloatField | app.py:36-42 | an absent measurement is 0.0; a present one is what the float parser gives, or an error naming the field |
| PatientRecord.BuildRecord | app.py:34-43 | on success each of the eight fields holds its parsed value or its default; a failure names a field that is present and does not parse. BuildRecordSpec, EmptyFormGivesDefaults and BadFieldFails complete its contract |
| PatientRecord.BuildRecordSpec | app.py:34-43 | the record is built exactly when all eight fields parse, and each field then holds its parsed value or its default |
| PatientRecord.EmptyFormGivesDefaults | app.py:34-43 | a form with none of the eight fields gives the all-defaults record (0 and seven times 0.0) whatever the parsers do |
| PatientRecord.BadFieldFails | app.py:34-43 | one unparsable field makes the build fail, and the error names a present, unparsable field |
| App.Diagnose | app.py:32-74 | a parse failure, a missing model and a raising classifier are each an error of that kind; a success implies a model and a record; on success "diabetic" means the classifier answered 1, the label is the rule-based `TypeLabel` of that verdict and the record's age, BMI and blood pressure, and it is "Non-Diabetic" exactly when the verdict is negative |
| App.NonDiabeticExactlyOnNegativeVerdict | app.py:49-74 | a classifier answer other than 1 gives the diagnosis (not diabetic, "Non-Diabetic"); a "Non-Diabetic" diagnosis comes only from such an answer |
| App.DiagnoseFailsExactly | app.py:32-91 | the prediction fails exactly when a field does not parse, the model is missing or the classifier raises; on success "diabetic" means the classifier answered 1 |
| App.LabelDependsOnlyOnFourInputs | app.py:56-68 | two submissions with equal verdict, age, BMI and blood pressure get the same diagnosis, whatever their pregnancies, glucose, skin thickness, insulin and pedigree |
| App.PageFor | app.py:83-91 | the page says "Error in detection", with no verdict, exactly on failure; on success it shows the label text and the verdict |
| App.StoreDiagnosis | app.py:77 | a success sets `diabetes_type` to the label text, replacing any earlier value; a failure leaves the session as it was; no other key is added, removed or changed |
| App.Predict | app.py:30-91 | the handler renders `PageFor` of the diagnosis and updates the session object in place to `StoreDiagnosis` of its old contents |
| App.DashboardType | app.py:96 | the dashboard label is the `diabetes_type` query parameter, or "Type 2" when it is absent |
| App.RiskView | app.py:101-126 | redirect exactly when the stored record is falsy; a risk page exactly when that record is a dictionary with numeric glucose, BMI and age (0 when absent), at the level of their mean and with the record itself; otherwise the risk-failure page |
| App.FutureRiskDashboard | app.py:99-126 | the handler answers `RiskView` of the session and does not change it |
| App.EmptySessionRedirects | app.py:103-107 | a session with no `user_input`, or an empty one, redirects home and computes no level |
| App.AfterPredictsKeepsOtherKeys | app.py:77 | over any run of submissions, every key other than `diabetes_type` keeps its presence and value |
| App.LatestSuccessWins | app.py:77 | after any run of submissions, `diabetes_type` holds the label of the latest successful one; with none, it is unchanged |
| App.RiskViewUnaffectedByPredicts | app.py:77-107 | no run of submissions changes the risk dashboard's answer; a session without `user_input` keeps redirecting home |
| App.PredictThenRisk | app.py:30-115 | a fresh client that submits a form and then opens the risk dashboard gets the prediction page and then a redirect home |
| App.EndToEndNonDiabetic | app.py:34-91 | a sample submission: the fields 2, 85, 66, 29, 0, 26.6, 0.35, 31 through a classifier that always answers 0 give the page ("Non-Diabetic", not diabetic) and store "Non-Diabetic" |

## Left out

- Flask routing, template rendering, `redirect`/`url_for` and the session's storage mechanics. These are framework I/O. The session is an abstract map of JSON-like values (text, numbers, dictionaries). Lists, booleans and null are not modelled.
- The effect of a template that fails to render after the session write (line 77 runs before line 83 inside the same `try`). Templates are not part of this model.
- Loading the CSV dataset and unpickling the model at start-up (app.py:13-20). This is file I/O; its outcome is the `Option<Classifier>` parameter. The loaded dataset is never used in scoring.
- The random-forest classifier and train_model.py. They are calls into a machine-learning library; the classifier is an opaque parameter.
- static/js/script.js. It is browser UI code posting to a route that app.py does not define.
- The string grammar of Python's `int()` and `float()`. The parsers are partial-function parameters.
- RiskScore: uses exact real arithmetic, not IEEE-754 double rounding of the mean.
- RiskLevel: non-finite floats are not modelled. Python's `float()` accepts "nan", "inf" and "-inf", and a `real` cannot hold them. In the source a NaN age or BMI makes both threshold rules false, so a diabetic record gets "Type 2 (Uncertain)". A NaN risk mean fails both `<` tests and gives "High" although it is not >= 150. Infinite values compare as the largest or smallest numbers.
- PatientRecord.FloatField: yields only finite reals, so it does not cover the "nan"/"inf" texts that Python's `float()` accepts (see the previous line).
- Logging calls.
