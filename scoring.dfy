/** The server side: the artifacts loaded once at start-up, the `/predict`
    handler and the `/api/info` snapshot. The fitted classifier and scaler
    are opaque; they appear here as function values whose failures (the
    exceptions the libraries raise) are `Failure` results. */
module Scoring {
  import opened Wrappers
  import opened RiskLevels

  type Vector = seq<real>

  /** The fitted classifier: its class name, the label it predicts for one
      row, and the per-class probabilities it gives for that row. */
  datatype Model = Model(
    typeName: string,
    predict: Vector -> Result<int, string>,
    predictProba: Vector -> Result<Vector, string>)

  /** The fitted feature scaler. */
  datatype Scaler = Scaler(transform: Vector -> Result<Vector, string>)

  datatype Artifacts = Artifacts(model: Model, scaler: Scaler, featureNames: seq<string>)

  /** The process-wide state: all three artifacts, or none of them. */
  datatype LoadedState = NotLoaded | Loaded(artifacts: Artifacts)

  /** Start-up: each argument is the outcome of unpickling one file. If any
      of them failed, the handler falls back to no artifacts at all. */
  function Load(model: Option<Model>, scaler: Option<Scaler>, featureNames: Option<seq<string>>): (s: LoadedState)
    ensures s.Loaded? <==> model.Some? && scaler.Some? && featureNames.Some?
    ensures s.Loaded? ==> s.artifacts == Artifacts(model.value, scaler.value, featureNames.value)
  {
    if model.Some? && scaler.Some? && featureNames.Some? then
      Loaded(Artifacts(model.value, scaler.value, featureNames.value))
    else
      NotLoaded
  }

  // ---------------------------------------------------------------------
  // Form fields

  datatype FieldKind = FloatField | IntField

  datatype Field = Field(name: string, kind: FieldKind)

  /** The twelve form fields, in the order of the feature vector. */
  const Fields: seq<Field> := [
    Field("age", FloatField),
    Field("anaemia", IntField),
    Field("creatinine_phosphokinase", FloatField),
    Field("diabetes", IntField),
    Field("ejection_fraction", FloatField),
    Field("high_blood_pressure", IntField),
    Field("platelets", FloatField),
    Field("serum_creatinine", FloatField),
    Field("serum_sodium", FloatField),
    Field("sex", IntField),
    Field("smoking", IntField),
    Field("time", FloatField)
  ]

  /** The canonical feature-name list written by the placeholder generator. */
  const FeatureNames: seq<string> := [
    "age", "anaemia", "creatinine_phosphokinase", "diabetes",
    "ejection_fraction", "high_blood_pressure", "platelets",
    "serum_creatinine", "serum_sodium", "sex", "smoking", "time"
  ]

  /** The posted form: field name to raw string. */
  type Form = map<string, string>

  /** Python's `float()` and `int()` on a string; `None` when they raise. */
  datatype Parsers = Parsers(toFloat: string -> Option<real>, toInt: string -> Option<int>)

  /** Why a scoring request failed after the artifacts were found loaded. */
  datatype Fault =
    | MissingField(name: string)
    | BadValue(field: Field, raw: string)
    | ColumnMismatch(columns: nat)
    | LibraryFault(message: string)
    | ProbabilityIndex(size: nat)

  /** Python's `float()` and `int()` messages for a string they reject. */
  const FloatRejected: string := "could not convert string to float: "
  const IntRejected: string := "invalid literal for int() with base 10: "

  /** The text after "Prediction error: ". A rejected string is reported with
      the converting function's own message, which quotes the string; a
      library fault passes its message through unchanged. */
  function FaultText(f: Fault): (t: string)
    ensures f.BadValue? && f.field.kind == FloatField ==> FloatRejected <= t
    ensures f.BadValue? && f.field.kind == IntField ==> IntRejected <= t
    ensures f.BadValue? ==> |t| >= |f.raw| + 2 && t[|t| - |f.raw| - 2..] == "'" + f.raw + "'"
    ensures f.LibraryFault? ==> t == f.message
  {
    match f
    case MissingField(name) => "missing form field '" + name + "'"
    case BadValue(Field(_, FloatField), raw) => FloatRejected + "'" + raw + "'"
    case BadValue(Field(_, IntField), raw) => IntRejected + "'" + raw + "'"
    case ColumnMismatch(_) => "feature name list does not match the 12 input columns"
    case LibraryFault(message) => message
    case ProbabilityIndex(_) => "index 1 is out of bounds for the probability row"
  }

  /** The numeric value a raw string converts to under the field's kind; an
      integer field is read with `int()` and stored as a float. */
  function Convert(ps: Parsers, kind: FieldKind, raw: string): Option<real> {
    match kind
    case FloatField => ps.toFloat(raw)
    case IntField =>
      match ps.toInt(raw)
      case None => None
      case Some(i) => Some(i as real)
  }

  /** Fetch one field and convert it. */
  function ParseField(form: Form, f: Field, ps: Parsers): (r: Result<real, Fault>)
    ensures r.Success? <==> f.name in form && Convert(ps, f.kind, form[f.name]).Some?
    ensures r.Success? ==> r.value == Convert(ps, f.kind, form[f.name]).value
    ensures f.name !in form ==> r == Failure(MissingField(f.name))
    ensures f.name in form && r.Failure? ==> r == Failure(BadValue(f, form[f.name]))
  {
    if f.name !in form then Failure(MissingField(f.name))
    else
      match Convert(ps, f.kind, form[f.name])
      case None => Failure(BadValue(f, form[f.name]))
      case Some(x) => Success(x)
  }

  /** Fetch and convert the fields in order, stopping at the first one that
      fails: the vector is built only when every field converts, and
      otherwise the fault is that of the first failing field. */
  function ParseFeatures(form: Form, fields: seq<Field>, ps: Parsers): (r: Result<Vector, Fault>)
    ensures r.Success? <==> forall i :: 0 <= i < |fields| ==> ParseField(form, fields[i], ps).Success?
    ensures r.Success? ==> |r.value| == |fields|
    ensures r.Success? ==> forall i :: 0 <= i < |fields| ==> r.value[i] == ParseField(form, fields[i], ps).value
    ensures r.Failure? ==>
      exists i :: 0 <= i < |fields| && ParseField(form, fields[i], ps) == Failure(r.error)
        && forall j :: 0 <= j < i ==> ParseField(form, fields[j], ps).Success?
  {
    if fields == [] then Success([])
    else
      var x :- ParseField(form, fields[0], ps);
      var rest :- ParseFeatures(form, fields[1..], ps);
      Success([x] + rest)
  }

  // ---------------------------------------------------------------------
  // Scaling and inference

  /** The model families that were trained on scaled features. */
  const ScaledFamilies: seq<string> := ["SVC", "LogisticRegression"]

  predicate NeedsScaling(typeName: string) {
    typeName in ScaledFamilies
  }

  /** A library call's exception message becomes a LibraryFault. */
  function Lift<T>(r: Result<T, string>): Result<T, Fault> {
    match r
    case Success(v) => Success(v)
    case Failure(m) => Failure(LibraryFault(m))
  }

  /** The row handed to the classifier: the scaled row exactly when the
      model's family needs scaling, the raw row otherwise. */
  function Prepare(a: Artifacts, v: Vector): (r: Result<Vector, Fault>)
    ensures NeedsScaling(a.model.typeName) ==> r == Lift(a.scaler.transform(v))
    ensures !NeedsScaling(a.model.typeName) ==> r == Success(v)
  {
    if NeedsScaling(a.model.typeName) then Lift(a.scaler.transform(v)) else Success(v)
  }

  /** The success payload of `/predict`. */
  datatype Assessment = Assessment(
    prediction: int,
    deathProbability: real,
    survivalProbability: real,
    riskLevel: RiskLevel)

  /** The JSON body of `/predict`: `success` is `Scored?`. */
  datatype Response = Scored(assessment: Assessment) | Failed(error: string)

  const NotLoadedError: string := "Model not loaded properly"
  const ErrorPrefix: string := "Prediction error: "

  /** The body of the handler's `try` once the model is known to be loaded. */
  function Score(a: Artifacts, form: Form, ps: Parsers): (r: Result<Assessment, Fault>)
    ensures r.Success? ==> ParseFeatures(form, Fields, ps).Success?
    ensures r.Success? ==> |a.featureNames| == |Fields|
    ensures r.Success? ==>
      var x := Prepare(a, ParseFeatures(form, Fields, ps).value);
      && x.Success?
      && a.model.predict(x.value) == Success(r.value.prediction)
      && a.model.predictProba(x.value).Success?
      && |a.model.predictProba(x.value).value| >= 2
      && r.value.deathProbability == a.model.predictProba(x.value).value[1] * 100.0
      && r.value.survivalProbability == a.model.predictProba(x.value).value[0] * 100.0
    ensures r.Success? ==> r.value.riskLevel == GetRiskLevel(r.value.deathProbability)
    ensures ParseFeatures(form, Fields, ps).Failure? ==> r == Failure(ParseFeatures(form, Fields, ps).error)
  {
    var v :- ParseFeatures(form, Fields, ps);
    // the DataFrame labelled with the feature names needs one name per column
    var _ :- if |a.featureNames| == |v| then Success(()) else Failure(ColumnMismatch(|a.featureNames|));
    var x :- Prepare(a, v);
    var predicted :- Lift(a.model.predict(x));
    var proba :- Lift(a.model.predictProba(x));
    if |proba| < 2 then Failure(ProbabilityIndex(|proba|))
    else
      var death := proba[1] * 100.0;
      var survival := proba[0] * 100.0;
      Success(Assessment(predicted, death, survival, GetRiskLevel(death)))
  }

  /** POST /predict. Never faults: a missing model and every failure inside
      the handler become a `Failed` response. */
  function Predict(state: LoadedState, form: Form, ps: Parsers): (r: Response)
    ensures state.NotLoaded? ==> r == Failed(NotLoadedError)
    ensures state.Loaded? && r.Failed? ==> ErrorPrefix <= r.error
    ensures r.Scored? ==> state.Loaded? && ParseFeatures(form, Fields, ps).Success?
    ensures r.Scored? ==> r.assessment.riskLevel == GetRiskLevel(r.assessment.deathProbability)
  {
    match state
    case NotLoaded => Failed(NotLoadedError)
    case Loaded(a) =>
      match Score(a, form, ps)
      case Success(assessment) => Scored(assessment)
      case Failure(f) => Failed(ErrorPrefix + FaultText(f))
  }

  // ---------------------------------------------------------------------
  // GET /api/info

  datatype Info =
    | InfoUnavailable(error: string)
    | InfoReady(modelType: string, features: seq<string>, totalFeatures: nat, status: string)

  function ApiInfo(state: LoadedState): (r: Info)
    ensures state.NotLoaded? <==> r.InfoUnavailable?
    ensures r.InfoUnavailable? ==> r.error == "Model not loaded"
    ensures state.Loaded? ==>
      r == InfoReady(state.artifacts.model.typeName, state.artifacts.featureNames,
                     |state.artifacts.featureNames|, "ready")
  {
    match state
    case NotLoaded => InfoUnavailable("Model not loaded")
    case Loaded(a) =>
      // the source reports 0 for a falsy name list; for a list that is its length
      var total := if |a.featureNames| > 0 then |a.featureNames| else 0;
      InfoReady(a.model.typeName, a.featureNames, total, "ready")
  }

  // ---------------------------------------------------------------------
  // Properties

  /** The form fields are exactly the canonical feature names, in order;
      anaemia, diabetes, high_blood_pressure, sex and smoking (positions 1,
      3, 5, 9, 10) are integer fields, the rest float fields. */
  lemma FieldTable()
    ensures |Fields| == |FeatureNames| == 12
    ensures forall i :: 0 <= i < 12 ==> Fields[i].name == FeatureNames[i]
    ensures forall i :: 0 <= i < 12 ==>
      (Fields[i].kind == IntField <==> i == 1 || i == 3 || i == 5 || i == 9 || i == 10)
  {
  }

  /** A successful parse yields twelve entries, the i-th being the i-th
      field's string converted by its declared parser. */
  lemma FeatureVectorLayout(form: Form, ps: Parsers)
    requires ParseFeatures(form, Fields, ps).Success?
    ensures |ParseFeatures(form, Fields, ps).value| == 12
    ensures forall i :: 0 <= i < 12 ==>
      Fields[i].name in form
      && (Fields[i].kind == FloatField ==>
            ps.toFloat(form[Fields[i].name]) == Some(ParseFeatures(form, Fields, ps).value[i]))
      && (Fields[i].kind == IntField ==>
            ps.toInt(form[Fields[i].name]).Some?
            && ParseFeatures(form, Fields, ps).value[i] == ps.toInt(form[Fields[i].name]).value as real)
  {
  }

  /** A field missing from the form fails the request with a prediction
      error, never a fault. */
  lemma MissingFieldFails(a: Artifacts, form: Form, ps: Parsers, i: nat)
    requires i < |Fields| && Fields[i].name !in form
    ensures Predict(Loaded(a), form, ps).Failed?
    ensures ErrorPrefix <= Predict(Loaded(a), form, ps).error
  {
  }

  /** So does a present field whose string its parser rejects. */
  lemma UnparseableFieldFails(a: Artifacts, form: Form, ps: Parsers, i: nat)
    requires i < |Fields| && Fields[i].name in form
    requires Convert(ps, Fields[i].kind, form[Fields[i].name]).None?
    ensures Predict(Loaded(a), form, ps).Failed?
    ensures ErrorPrefix <= Predict(Loaded(a), form, ps).error
  {
  }

  /** The error names the first field, in vector order, that fails. */
  lemma FirstFailingFieldReported(a: Artifacts, form: Form, ps: Parsers, i: nat)
    requires i < |Fields| && ParseField(form, Fields[i], ps).Failure?
    requires forall j :: 0 <= j < i ==> ParseField(form, Fields[j], ps).Success?
    ensures Predict(Loaded(a), form, ps)
         == Failed(ErrorPrefix + FaultText(ParseField(form, Fields[i], ps).error))
  {
  }

  /** The scaler is consulted only for the scaled families: for any other
      model, swapping the scaler changes nothing. */
  lemma ScalerIgnoredForUnscaledFamilies(m: Model, s1: Scaler, s2: Scaler, names: seq<string>, form: Form, ps: Parsers)
    requires !NeedsScaling(m.typeName)
    ensures Predict(Loaded(Artifacts(m, s1, names)), form, ps)
         == Predict(Loaded(Artifacts(m, s2, names)), form, ps)
  {
  }

  /** Exactly "SVC" and "LogisticRegression" are scaled; the placeholder
      random forest is fed raw features. */
  lemma ScaledFamilyNames(typeName: string)
    ensures NeedsScaling(typeName) <==> typeName == "SVC" || typeName == "LogisticRegression"
    ensures !NeedsScaling("RandomForestClassifier")
  {
  }

  /** The full success path: every step succeeded, and the response reports
      the label, both probabilities as percentages and the bucket of the
      death percentage. */
  lemma SuccessfulPrediction(a: Artifacts, form: Form, ps: Parsers, v: Vector, x: Vector, predicted: int, proba: Vector)
    requires ParseFeatures(form, Fields, ps) == Success(v)
    requires |a.featureNames| == 12
    requires Prepare(a, v) == Success(x)
    requires a.model.predict(x) == Success(predicted)
    requires a.model.predictProba(x) == Success(proba) && |proba| >= 2
    ensures Predict(Loaded(a), form, ps)
         == Scored(Assessment(predicted, proba[1] * 100.0, proba[0] * 100.0, GetRiskLevel(proba[1] * 100.0)))
  {
  }

  /** A classifier whose probability rows are distributions over two classes. */
  ghost predicate Calibrated(m: Model) {
    forall x :: m.predictProba(x).Success? ==>
      && |m.predictProba(x).value| == 2
      && 0.0 <= m.predictProba(x).value[0] <= 1.0
      && 0.0 <= m.predictProba(x).value[1] <= 1.0
      && m.predictProba(x).value[0] + m.predictProba(x).value[1] == 1.0
  }

  /** With such a classifier both reported probabilities are percentages and
      they add up to 100. */
  lemma ProbabilitiesArePercentages(a: Artifacts, form: Form, ps: Parsers)
    requires Calibrated(a.model)
    requires Predict(Loaded(a), form, ps).Scored?
    ensures 0.0 <= Predict(Loaded(a), form, ps).assessment.deathProbability <= 100.0
    ensures 0.0 <= Predict(Loaded(a), form, ps).assessment.survivalProbability <= 100.0
    ensures Predict(Loaded(a), form, ps).assessment.deathProbability
          + Predict(Loaded(a), form, ps).assessment.survivalProbability == 100.0
  {
  }

  /** The two endpoints agree on readiness: `/api/info` reports ready exactly
      when `/predict` does not answer "Model not loaded properly". */
  lemma ReadinessAgrees(state: LoadedState, form: Form, ps: Parsers)
    ensures ApiInfo(state).InfoReady? <==> Predict(state, form, ps) != Failed(NotLoadedError)
  {
    if state.Loaded? && Predict(state, form, ps).Failed? {
      var e := Predict(state, form, ps).error;
      assert e[0] == 'P';
      assert NotLoadedError[0] == 'M';
    }
  }

  /** Any scored request implies `/api/info` reports twelve features. */
  lemma ScoredImpliesTwelveFeatures(state: LoadedState, form: Form, ps: Parsers)
    requires Predict(state, form, ps).Scored?
    ensures ApiInfo(state).InfoReady? && ApiInfo(state).totalFeatures == 12
  {
  }
}
