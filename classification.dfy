/** The rule-based refinement of a positive diagnosis into a diabetes type
    (app.py, the if/elif/else inside `predict`). */
module Classification {

  /** The four labels the refinement can produce. */
  datatype Label = Type1 | Type2 | Type2Uncertain | NonDiabetic

  /** The exact text the handler renders and stores for each label. */
  function LabelText(l: Label): (t: string)
  {
    match l
    case Type1 => "Type 1"
    case Type2 => "Type 2"
    case Type2Uncertain => "Type 2 (Uncertain)"
    case NonDiabetic => "Non-Diabetic"
  }

  /** The first rule: young, hypertensive and lean. */
  predicate Type1Criteria(age: real, bmi: real, bloodPressure: real)
  {
    age < 30.0 && bloodPressure >= 140.0 && bmi < 25.0
  }

  /** The second rule: no younger than 30 and no leaner than BMI 25. */
  predicate Type2Criteria(age: real, bmi: real)
  {
    age >= 30.0 && bmi >= 25.0
  }

  /** The labels a positive diagnosis can receive. */
  predicate IsDiabeticLabel(l: Label)
  {
    l == Type1 || l == Type2 || l == Type2Uncertain
  }

  /** The label of a record, given the classifier's verdict. The rules are
      tried in order; the last one catches every diabetic record left over. */
  function TypeLabel(isDiabetic: bool, age: real, bmi: real, bloodPressure: real): (l: Label)
    ensures l == NonDiabetic <==> !isDiabetic
    ensures isDiabetic ==> IsDiabeticLabel(l)
    ensures l == Type1 <==> isDiabetic && Type1Criteria(age, bmi, bloodPressure)
    ensures l == Type2 <==> isDiabetic && Type2Criteria(age, bmi)
    ensures l == Type2Uncertain <==>
              isDiabetic && !Type1Criteria(age, bmi, bloodPressure) && !Type2Criteria(age, bmi)
  {
    if !isDiabetic then
      NonDiabetic
    else if age < 30.0 && bloodPressure >= 140.0 && bmi < 25.0 then
      Type1
    else if age >= 30.0 && bmi >= 25.0 then
      Type2
    else
      Type2Uncertain
  }

  /** Distinct labels are rendered as distinct strings. */
  lemma LabelTextInjective(l1: Label, l2: Label)
    ensures LabelText(l1) == LabelText(l2) ==> l1 == l2
  {
  }

  /** The two rules never both apply: a record matching Type 1 is younger
      than 30, one matching Type 2 is not. */
  lemma CriteriaDisjoint(age: real, bmi: real, bloodPressure: real)
    ensures !(Type1Criteria(age, bmi, bloodPressure) && Type2Criteria(age, bmi))
  {
  }

  /** A negative verdict gives "Non-Diabetic", whatever the measurements are. */
  lemma NegativeIgnoresMeasurements(age1: real, bmi1: real, bp1: real, age2: real, bmi2: real, bp2: real)
    ensures TypeLabel(false, age1, bmi1, bp1) == TypeLabel(false, age2, bmi2, bp2) == NonDiabetic
  {
  }

  /** Once age and BMI place a diabetic record in the Type 2 rule, blood
      pressure has no effect on the label. */
  lemma Type2IgnoresBloodPressure(age: real, bmi: real, bp1: real, bp2: real)
    requires Type2Criteria(age, bmi)
    ensures TypeLabel(true, age, bmi, bp1) == TypeLabel(true, age, bmi, bp2) == Type2
  {
  }

  /** Three sample diabetic records, as (age, BMI, blood pressure): (25, 20, 150),
      (40, 30, any) and (40, 20, any). */
  lemma WorkedExamples(bloodPressure: real)
    ensures TypeLabel(true, 25.0, 20.0, 150.0) == Type1
    ensures TypeLabel(true, 40.0, 30.0, bloodPressure) == Type2
    ensures TypeLabel(true, 40.0, 20.0, bloodPressure) == Type2Uncertain
  {
  }

  /** The boundaries themselves: age 30 is no longer young, blood pressure 140
      is already high and BMI 25 is no longer lean. */
  lemma Boundaries()
    ensures TypeLabel(true, 30.0, 20.0, 150.0) == Type2Uncertain
    ensures TypeLabel(true, 29.0, 20.0, 140.0) == Type1
    ensures TypeLabel(true, 29.0, 25.0, 150.0) == Type2Uncertain
    ensures TypeLabel(true, 30.0, 25.0, 0.0) == Type2
  {
  }
}
