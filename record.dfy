/** The eight-field patient record that `predict` builds from the submitted
    form (app.py, the `user_input` dictionary). */
module PatientRecord {
  import opened Wrappers

  /** The submitted form: field name to raw text; any field may be missing. */
  type Form = map<string, string>

  /** The record handed to the classifier. The pregnancy count is an integer,
      the other seven measurements are floating point (modelled as reals). */
  datatype Record = Record(
    pregnancies: int,
    glucose: real,
    bloodPressure: real,
    skinThickness: real,
    insulin: real,
    bmi: real,
    diabetesPedigreeFunction: real,
    age: real)

  /** The number parsers `int(...)` and `float(...)` applied to form text:
      each either yields a number or fails. */
  datatype Parsers = Parsers(parseInt: string -> Option<int>, parseFloat: string -> Option<real>)

  /** A field whose text does not parse; it makes the whole request fail. */
  datatype ParseError = Unparsable(field: string)

  const PregnanciesField := "Pregnancies"
  const GlucoseField := "Glucose"
  const BloodPressureField := "BloodPressure"
  const SkinThicknessField := "SkinThickness"
  const InsulinField := "Insulin"
  const BmiField := "BMI"
  const PedigreeField := "DiabetesPedigreeFunction"
  const AgeField := "Age"

  /** The names of the eight fields, in the order the record is built. */
  const FieldNames: seq<string> :=
    [PregnanciesField, GlucoseField, BloodPressureField, SkinThicknessField,
     InsulinField, BmiField, PedigreeField, AgeField]

  /** An integer field: 0 when absent, otherwise what the parser makes of the text. */
  function IntField(form: Form, name: string, p: Parsers): (r: Result<int, ParseError>)
    ensures name !in form ==> r == Ok(0)
    ensures name in form ==>
              (r.Ok? <==> p.parseInt(form[name]).Some?) &&
              (r.Ok? ==> r.value == p.parseInt(form[name]).value) &&
              (r.Err? ==> r.error == Unparsable(name))
  {
    if name !in form then Ok(0)
    else match p.parseInt(form[name])
      case Some(n) => Ok(n)
      case None => Err(Unparsable(name))
  }

  /** A floating-point field: 0.0 when absent, otherwise what the parser makes of the text. */
  function FloatField(form: Form, name: string, p: Parsers): (r: Result<real, ParseError>)
    ensures name !in form ==> r == Ok(0.0)
    ensures name in form ==>
              (r.Ok? <==> p.parseFloat(form[name]).Some?) &&
              (r.Ok? ==> r.value == p.parseFloat(form[name]).value) &&
              (r.Err? ==> r.error == Unparsable(name))
  {
    if name !in form then Ok(0.0)
    else match p.parseFloat(form[name])
      case Some(x) => Ok(x)
      case None => Err(Unparsable(name))
  }

  /** True when the text of field `name`, if present, parses. */
  predicate FieldParses(form: Form, name: string, p: Parsers)
  {
    if name == PregnanciesField then IntField(form, name, p).Ok?
    else FloatField(form, name, p).Ok?
  }

  /** The record built from a form, field by field in declaration order; the
      first field that does not parse aborts the construction. */
  function BuildRecord(form: Form, p: Parsers): (r: Result<Record, ParseError>)
    ensures r.Ok? ==>
              IntField(form, PregnanciesField, p).Ok? &&
              r.value.pregnancies == IntField(form, PregnanciesField, p).value &&
              FloatField(form, GlucoseField, p).Ok? &&
              r.value.glucose == FloatField(form, GlucoseField, p).value &&
              FloatField(form, BloodPressureField, p).Ok? &&
              r.value.bloodPressure == FloatField(form, BloodPressureField, p).value &&
              FloatField(form, SkinThicknessField, p).Ok? &&
              r.value.skinThickness == FloatField(form, SkinThicknessField, p).value &&
              FloatField(form, InsulinField, p).Ok? &&
              r.value.insulin == FloatField(form, InsulinField, p).value &&
              FloatField(form, BmiField, p).Ok? &&
              r.value.bmi == FloatField(form, BmiField, p).value &&
              FloatField(form, PedigreeField, p).Ok? &&
              r.value.diabetesPedigreeFunction == FloatField(form, PedigreeField, p).value &&
              FloatField(form, AgeField, p).Ok? &&
              r.value.age == FloatField(form, AgeField, p).value
    ensures r.Err? ==> r.error.field in form && !FieldParses(form, r.error.field, p)
  {
    var pregnancies :- IntField(form, PregnanciesField, p);
    var glucose :- FloatField(form, GlucoseField, p);
    var bloodPressure :- FloatField(form, BloodPressureField, p);
    var skinThickness :- FloatField(form, SkinThicknessField, p);
    var insulin :- FloatField(form, InsulinField, p);
    var bmi :- FloatField(form, BmiField, p);
    var pedigree :- FloatField(form, PedigreeField, p);
    var age :- FloatField(form, AgeField, p);
    Ok(Record(pregnancies, glucose, bloodPressure, skinThickness, insulin, bmi, pedigree, age))
  }

  /** The record all defaults give. */
  const DefaultRecord := Record(0, 0.0, 0.0, 0.0, 0.0, 0.0, 0.0, 0.0)

  /** Building succeeds exactly when every field parses, and it then holds,
      field by field, the parsed value or the default. */
  lemma BuildRecordSpec(form: Form, p: Parsers)
    ensures BuildRecord(form, p).Ok? <==> forall i :: 0 <= i < |FieldNames| ==> FieldParses(form, FieldNames[i], p)
    ensures BuildRecord(form, p).Ok? ==>
              var r := BuildRecord(form, p).value;
              r.pregnancies == IntField(form, PregnanciesField, p).value &&
              r.glucose == FloatField(form, GlucoseField, p).value &&
              r.bloodPressure == FloatField(form, BloodPressureField, p).value &&
              r.skinThickness == FloatField(form, SkinThicknessField, p).value &&
              r.insulin == FloatField(form, InsulinField, p).value &&
              r.bmi == FloatField(form, BmiField, p).value &&
              r.diabetesPedigreeFunction == FloatField(form, PedigreeField, p).value &&
              r.age == FloatField(form, AgeField, p).value
  {
    NamesInOrder();
    assert FieldParses(form, FieldNames[0], p) == IntField(form, PregnanciesField, p).Ok?;
    assert FieldParses(form, FieldNames[1], p) == FloatField(form, GlucoseField, p).Ok?;
    assert FieldParses(form, FieldNames[2], p) == FloatField(form, BloodPressureField, p).Ok?;
    assert FieldParses(form, FieldNames[3], p) == FloatField(form, SkinThicknessField, p).Ok?;
    assert FieldParses(form, FieldNames[4], p) == FloatField(form, InsulinField, p).Ok?;
    assert FieldParses(form, FieldNames[5], p) == FloatField(form, BmiField, p).Ok?;
    assert FieldParses(form, FieldNames[6], p) == FloatField(form, PedigreeField, p).Ok?;
    assert FieldParses(form, FieldNames[7], p) == FloatField(form, AgeField, p).Ok?;
  }

  /** The eight names, position by position. */
  lemma NamesInOrder()
    ensures |FieldNames| == 8
    ensures FieldNames[0] == PregnanciesField && FieldNames[1] == GlucoseField
    ensures FieldNames[2] == BloodPressureField && FieldNames[3] == SkinThicknessField
    ensures FieldNames[4] == InsulinField && FieldNames[5] == BmiField
    ensures FieldNames[6] == PedigreeField && FieldNames[7] == AgeField
  {
  }

  /** A form that carries none of the eight fields gives the all-defaults
      record, whatever the parsers do. */
  lemma EmptyFormGivesDefaults(form: Form, p: Parsers)
    requires forall i :: 0 <= i < |FieldNames| ==> FieldNames[i] !in form
    ensures BuildRecord(form, p) == Ok(DefaultRecord)
  {
    NamesInOrder();
    assert PregnanciesField !in form && GlucoseField !in form && BloodPressureField !in form;
    assert SkinThicknessField !in form && InsulinField !in form && BmiField !in form;
    assert PedigreeField !in form && AgeField !in form;
  }

  /** A field whose text does not parse makes the build fail, naming a field
      that is present and unparsable. */
  lemma BadFieldFails(form: Form, p: Parsers, i: nat)
    requires i < |FieldNames| && !FieldParses(form, FieldNames[i], p)
    ensures BuildRecord(form, p).Err?
    ensures var bad := BuildRecord(form, p).error.field;
            bad in form && !FieldParses(form, bad, p)
  {
  }
}
