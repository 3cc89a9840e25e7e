/** The request handlers of app.py as far as they decide anything: `predict`
    (build the record, ask the classifier, refine the label, store it in the
    session, or fall back to "Error in detection"), `dashboard` (a label from
    the query string) and `future_risk_dashboard` (a risk level from the
    session, or a redirect home). */
module App {
  import opened Wrappers
  import opened Classification
  import opened Risk
  import opened PatientRecord

  /** A value kept in the client's session: text, a number, or a dictionary. */
  datatype Value = Str(s: string) | Num(x: real) | Dict(fields: map<string, Value>)

  /** The session store: key to value. */
  type Entries = map<string, Value>

  /** Python truthiness of a session value: empty text, zero and the empty
      dictionary are false. */
  predicate Truthy(v: Value)
  {
    match v
    case Str(s) => s != ""
    case Num(x) => x != 0.0
    case Dict(m) => m != map[]
  }

  /** `m.get(key, default)`. */
  function Get(m: map<string, Value>, key: string, default: Value): (v: Value)
    ensures key in m ==> v == m[key]
    ensures key !in m ==> v == default
  {
    if key in m then m[key] else default
  }

  const DiabetesTypeKey := "diabetes_type"
  const UserInputKey := "user_input"
  const ErrorInDetection := "Error in detection"
  const DefaultDashboardType := "Type 2"

  /** The loaded classifier: it labels a record (1 meaning diabetic) or raises. */
  type Classifier = Record -> Option<int>

  /** What a successful prediction determines. */
  datatype Diagnosis = Diagnosis(isDiabetic: bool, diabetesType: Label)

  /** The ways `predict` can fail; all of them end in "Error in detection". */
  datatype Failure =
    | BadInput(cause: ParseError)  // a form field does not parse
    | ModelUnavailable             // the classifier did not load at start-up
    | ClassifierFailed             // the classifier raised on this record

  /** The decision `predict` makes for one submission. `model` is None when
      loading the classifier failed at start-up. */
  function Diagnose(form: Form, p: Parsers, model: Option<Classifier>): (r: Result<Diagnosis, Failure>)
    ensures BuildRecord(form, p).Err? ==> r == Err(BadInput(BuildRecord(form, p).error))
    ensures BuildRecord(form, p).Ok? && model.None? ==> r == Err(ModelUnavailable)
    ensures BuildRecord(form, p).Ok? && model.Some? && model.value(BuildRecord(form, p).value).None? ==>
              r == Err(ClassifierFailed)
    ensures r.Ok? ==> model.Some? && BuildRecord(form, p).Ok?
    ensures r.Ok? ==> (r.value.diabetesType == NonDiabetic <==> !r.value.isDiabetic)
    ensures r.Ok? ==> var rec := BuildRecord(form, p).value;
              r.value.isDiabetic == (model.value(rec).Some? && model.value(rec).value == 1) &&
              r.value.diabetesType == TypeLabel(r.value.isDiabetic, rec.age, rec.bmi, rec.bloodPressure)
  {
    match BuildRecord(form, p)
    case Err(e) => Err(BadInput(e))
    case Ok(userInput) =>
      match model
      case None => Err(ModelUnavailable)
      case Some(classify) =>
        match classify(userInput)
        case None => Err(ClassifierFailed)
        case Some(prediction) =>
          var isDiabetic := prediction == 1;
          Ok(Diagnosis(isDiabetic, TypeLabel(isDiabetic, userInput.age, userInput.bmi, userInput.bloodPressure)))
  }

  /** The classifier's raw answer on the record of a form, when both exist. */
  function Verdict(form: Form, p: Parsers, model: Option<Classifier>): Option<int>
  {
    if BuildRecord(form, p).Ok? && model.Some? then model.value(BuildRecord(form, p).value) else None
  }

  /** A verdict other than 1 gives "Non-Diabetic" whatever the record holds,
      and "Non-Diabetic" comes from no other verdict. */
  lemma NonDiabeticExactlyOnNegativeVerdict(form: Form, p: Parsers, model: Option<Classifier>)
    ensures Verdict(form, p, model).Some? && Verdict(form, p, model).value != 1 ==>
              Diagnose(form, p, model) == Ok(Diagnosis(false, NonDiabetic))
    ensures Diagnose(form, p, model).Ok? && Diagnose(form, p, model).value.diabetesType == NonDiabetic ==>
              Verdict(form, p, model).Some? && Verdict(form, p, model).value != 1
  {
  }

  /** Every failure, and only a failure, leaves no diagnosis: parsing, a
      missing model and a raising classifier are the three ways. */
  lemma DiagnoseFailsExactly(form: Form, p: Parsers, model: Option<Classifier>)
    ensures Diagnose(form, p, model).Err? <==>
              BuildRecord(form, p).Err? || model.None? || Verdict(form, p, model).None?
    ensures Diagnose(form, p, model).Ok? ==>
              Diagnose(form, p, model).value.isDiabetic == (Verdict(form, p, model).value == 1)
  {
  }

  /** Only the verdict, the age, the BMI and the blood pressure decide the
      label: two submissions that agree on those get the same diagnosis, even
      if pregnancies, glucose, skin thickness, insulin or the pedigree differ. */
  lemma LabelDependsOnlyOnFourInputs(f1: Form, f2: Form, p: Parsers, model: Option<Classifier>)
    requires BuildRecord(f1, p).Ok? && BuildRecord(f2, p).Ok?
    requires var r1, r2 := BuildRecord(f1, p).value, BuildRecord(f2, p).value;
             r1.age == r2.age && r1.bmi == r2.bmi && r1.bloodPressure == r2.bloodPressure
    requires Verdict(f1, p, model) == Verdict(f2, p, model)
    ensures Diagnose(f1, p, model) == Diagnose(f2, p, model)
  {
  }

  /** The page `predict` renders. */
  datatype ResultPage = ResultPage(diabetesType: string, isDiabetic: Option<bool>)

  /** A failure shows "Error in detection" and no verdict; a success shows
      the label's text and the verdict. */
  function PageFor(d: Result<Diagnosis, Failure>): (page: ResultPage)
    ensures page.diabetesType == ErrorInDetection <==> d.Err?
    ensures page.isDiabetic.Some? <==> d.Ok?
    ensures d.Ok? ==> page.isDiabetic.value == d.value.isDiabetic
    ensures d.Ok? ==> page.diabetesType == LabelText(d.value.diabetesType)
  {
    match d
    case Err(_) => ResultPage(ErrorInDetection, None)
    case Ok(diagnosis) => ResultPage(LabelText(diagnosis.diabetesType), Some(diagnosis.isDiabetic))
  }

  /** The session after a prediction: a success overwrites `diabetes_type`
      with the label's text; a failure writes nothing. No other key changes. */
  function StoreDiagnosis(entries: Entries, d: Result<Diagnosis, Failure>): (e: Entries)
    ensures d.Ok? ==> DiabetesTypeKey in e && e[DiabetesTypeKey] == Str(LabelText(d.value.diabetesType))
    ensures d.Err? ==> e == entries
    ensures e.Keys == if d.Ok? then entries.Keys + {DiabetesTypeKey} else entries.Keys
    ensures forall k :: k in e && k != DiabetesTypeKey ==> e[k] == entries[k]
  {
    if d.Ok? then entries[DiabetesTypeKey := Str(LabelText(d.value.diabetesType))] else entries
  }

  /** The client's session, which the handlers read and update in place. */
  class Session {
    var entries: Entries

    constructor ()
      ensures entries == map[]
    {
      entries := map[];
    }
  }

  /** The `predict` handler: a failure anywhere, whether parsing a field,
      a missing model or the classifier raising, renders "Error in
      detection" and leaves the session alone; a success stores the label. */
  method Predict(session: Session, form: Form, p: Parsers, model: Option<Classifier>)
    returns (page: ResultPage)
    modifies session
    ensures page == PageFor(Diagnose(form, p, model))
    ensures session.entries == StoreDiagnosis(old(session.entries), Diagnose(form, p, model))
  {
    var built := BuildRecord(form, p);
    if built.Err? {
      return ResultPage(ErrorInDetection, None);
    }
    var userInput := built.value;
    if model.None? {
      return ResultPage(ErrorInDetection, None);
    }
    var prediction := model.value(userInput);
    if prediction.None? {
      return ResultPage(ErrorInDetection, None);
    }
    var isDiabetic := prediction.value == 1;
    var diabetesType := TypeLabel(isDiabetic, userInput.age, userInput.bmi, userInput.bloodPressure);
    session.entries := session.entries[DiabetesTypeKey := Str(LabelText(diabetesType))];
    page := ResultPage(LabelText(diabetesType), Some(isDiabetic));
  }

  /** The `dashboard` handler's label: the `diabetes_type` query parameter,
      or "Type 2" when it is absent. */
  function DashboardType(query: map<string, string>): (t: string)
    ensures DiabetesTypeKey in query ==> t == query[DiabetesTypeKey]
    ensures DiabetesTypeKey !in query ==> t == DefaultDashboardType == LabelText(Type2)
  {
    if DiabetesTypeKey in query then query[DiabetesTypeKey] else DefaultDashboardType
  }

  /** What `future_risk_dashboard` answers. */
  datatype RiskResponse =
    | RedirectHome                                          // no record in the session
    | RiskPage(level: Level, userInput: map<string, Value>)
    | RiskFailure                                           // "Error in future risk assessment"

  /** The stored record, `{}` when the session has none. */
  function StoredInput(entries: Entries): Value
  {
    Get(entries, UserInputKey, Dict(map[]))
  }

  /** One measurement of the stored record, 0 when absent. */
  function Measurement(fields: map<string, Value>, name: string): Value
  {
    Get(fields, name, Num(0.0))
  }

  /** The risk dashboard's decision on a session. It redirects exactly when
      the stored record is absent or empty (falsy); it shows a level exactly
      when the record is a dictionary whose glucose, BMI and age are numbers,
      and the level is then that of their mean; anything else raises and is
      reported as a failure. */
  function RiskView(entries: Entries): (r: RiskResponse)
    ensures r.RedirectHome? <==> !Truthy(StoredInput(entries))
    ensures r.RiskPage? <==>
              Truthy(StoredInput(entries)) && StoredInput(entries).Dict? &&
              var fields := StoredInput(entries).fields;
              Measurement(fields, GlucoseField).Num? && Measurement(fields, BmiField).Num? &&
              Measurement(fields, AgeField).Num?
    ensures r.RiskPage? ==>
              var fields := StoredInput(entries).fields;
              r.userInput == fields &&
              r.level == RiskLevel(RiskScore(Measurement(fields, GlucoseField).x,
                                             Measurement(fields, BmiField).x,
                                             Measurement(fields, AgeField).x))
  {
    var userInput := StoredInput(entries);
    if !Truthy(userInput) then RedirectHome
    else if !userInput.Dict? then RiskFailure
    else
      var glucose := Measurement(userInput.fields, GlucoseField);
      var bmi := Measurement(userInput.fields, BmiField);
      var age := Measurement(userInput.fields, AgeField);
      if glucose.Num? && bmi.Num? && age.Num? then
        RiskPage(RiskLevel(RiskScore(glucose.x, bmi.x, age.x)), userInput.fields)
      else
        RiskFailure
  }

  /** The `future_risk_dashboard` handler; it only reads the session. */
  method FutureRiskDashboard(session: Session) returns (r: RiskResponse)
    ensures r == RiskView(session.entries)
  {
    var userInput := Get(session.entries, UserInputKey, Dict(map[]));
    if !Truthy(userInput) {
      return RedirectHome;
    }
    if !userInput.Dict? {
      return RiskFailure;
    }
    var glucose := Get(userInput.fields, GlucoseField, Num(0.0));
    var bmi := Get(userInput.fields, BmiField, Num(0.0));
    var age := Get(userInput.fields, AgeField, Num(0.0));
    if !(glucose.Num? && bmi.Num? && age.Num?) {
      return RiskFailure;
    }
    var score := RiskScore(glucose.x, bmi.x, age.x);
    r := RiskPage(RiskLevel(score), userInput.fields);
  }

  /** A session with no stored record, or an empty one, redirects home and
      computes no level. */
  lemma EmptySessionRedirects(entries: Entries)
    requires UserInputKey !in entries || entries[UserInputKey] == Dict(map[])
    ensures RiskView(entries) == RedirectHome
  {
  }

  // A client's session across a run of `predict` submissions.

  /** The session after the submissions `forms`, in order. */
  function AfterPredicts(entries: Entries, forms: seq<Form>, p: Parsers, model: Option<Classifier>): Entries
    decreases |forms|
  {
    if forms == [] then entries
    else AfterPredicts(StoreDiagnosis(entries, Diagnose(forms[0], p, model)), forms[1..], p, model)
  }

  /** The label of the most recent successful submission in `forms`, if any. */
  function LastLabel(forms: seq<Form>, p: Parsers, model: Option<Classifier>): Option<Label>
    decreases |forms|
  {
    if forms == [] then None
    else match Diagnose(forms[|forms| - 1], p, model)
      case Ok(d) => Some(d.diabetesType)
      case Err(_) => LastLabel(forms[..|forms| - 1], p, model)
  }

  /** Submissions never touch a key other than `diabetes_type`. */
  lemma {:induction false} AfterPredictsKeepsOtherKeys(entries: Entries, forms: seq<Form>, p: Parsers,
                                                       model: Option<Classifier>, k: string)
    requires k != DiabetesTypeKey
    ensures k in AfterPredicts(entries, forms, p, model) <==> k in entries
    ensures k in entries ==> AfterPredicts(entries, forms, p, model)[k] == entries[k]
    decreases |forms|
  {
    if forms != [] {
      AfterPredictsKeepsOtherKeys(StoreDiagnosis(entries, Diagnose(forms[0], p, model)), forms[1..], p, model, k);
    }
  }

  /** One more submission at the end of a run is one more store. */
  lemma {:induction false} AfterPredictsSnoc(entries: Entries, forms: seq<Form>, f: Form, p: Parsers,
                                             model: Option<Classifier>)
    ensures AfterPredicts(entries, forms + [f], p, model) ==
            StoreDiagnosis(AfterPredicts(entries, forms, p, model), Diagnose(f, p, model))
    decreases |forms|
  {
    if forms == [] {
      assert forms + [f] == [f];
      assert [f][1..] == [];
    } else {
      assert (forms + [f])[0] == forms[0];
      assert (forms + [f])[1..] == forms[1..] + [f];
      AfterPredictsSnoc(StoreDiagnosis(entries, Diagnose(forms[0], p, model)), forms[1..], f, p, model);
    }
  }

  /** The session's `diabetes_type` always holds the label of the latest
      successful submission; with none, it is what it was before the run. */
  lemma {:induction false} LatestSuccessWins(entries: Entries, forms: seq<Form>, p: Parsers,
                                             model: Option<Classifier>)
    ensures var after := AfterPredicts(entries, forms, p, model);
            match LastLabel(forms, p, model)
            case Some(l) => DiabetesTypeKey in after && after[DiabetesTypeKey] == Str(LabelText(l))
            case None =>
              (DiabetesTypeKey in after <==> DiabetesTypeKey in entries) &&
              (DiabetesTypeKey in entries ==> after[DiabetesTypeKey] == entries[DiabetesTypeKey])
    decreases |forms|
  {
    if forms != [] {
      var init, f := forms[..|forms| - 1], forms[|forms| - 1];
      assert forms == init + [f];
      AfterPredictsSnoc(entries, init, f, p, model);
      LatestSuccessWins(entries, init, p, model);
    }
  }

  /** Since `predict` never stores the record, no run of submissions changes
      what the risk dashboard answers; in particular a session that starts
      without a record keeps redirecting home. */
  lemma RiskViewUnaffectedByPredicts(entries: Entries, forms: seq<Form>, p: Parsers, model: Option<Classifier>)
    ensures RiskView(AfterPredicts(entries, forms, p, model)) == RiskView(entries)
    ensures UserInputKey !in entries ==> RiskView(AfterPredicts(entries, forms, p, model)) == RedirectHome
  {
    AfterPredictsKeepsOtherKeys(entries, forms, p, model, UserInputKey);
    assert StoredInput(AfterPredicts(entries, forms, p, model)) == StoredInput(entries);
  }

  /** A fresh client submits a form and then opens the risk dashboard: it
      gets the prediction page and then a redirect home. */
  method PredictThenRisk(form: Form, p: Parsers, model: Option<Classifier>)
    returns (page: ResultPage, risk: RiskResponse)
    ensures page == PageFor(Diagnose(form, p, model))
    ensures risk == RedirectHome
  {
    var session := new Session();
    page := Predict(session, form, p, model);
    risk := FutureRiskDashboard(session);
  }

  /** A sample submission: the fields 2, 85, 66, 29, 0, 26.6, 0.35 and 31 through a classifier that always answers 0 give
      "Non-Diabetic" and a negative verdict, and store that label. */
  lemma EndToEndNonDiabetic(p: Parsers, entries: Entries)
    requires p.parseInt("2") == Some(2)
    requires p.parseFloat("85") == Some(85.0) && p.parseFloat("66") == Some(66.0)
    requires p.parseFloat("29") == Some(29.0) && p.parseFloat("0") == Some(0.0)
    requires p.parseFloat("26.6") == Some(26.6) && p.parseFloat("0.35") == Some(0.35)
    requires p.parseFloat("31") == Some(31.0)
    ensures var form := map[PregnanciesField := "2", GlucoseField := "85", BloodPressureField := "66",
                            SkinThicknessField := "29", InsulinField := "0", BmiField := "26.6",
                            PedigreeField := "0.35", AgeField := "31"];
            var model: Option<Classifier> := Some((r: Record) => Some(0));
            PageFor(Diagnose(form, p, model)) == ResultPage("Non-Diabetic", Some(false)) &&
            StoreDiagnosis(entries, Diagnose(form, p, model))[DiabetesTypeKey] == Str("Non-Diabetic")
  {
  }
}
