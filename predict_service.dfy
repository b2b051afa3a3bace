/**
 * The `/predict` handler of the Flask back end: the classifier's column list,
 * the default values for the columns the form does not send, the overlay of
 * the request body on a copy of those defaults, the projection onto the
 * column order, and the shape of the reply.
 */
module PredictService {
  import opened Wrappers
  import opened Sequences

  /*
   * The column list is written as three literals, split where the source's
   * own lines break (app.py lines 13-16, 17-21 and 22-24); their
   * concatenation is the source's list, element for element.
   */
  const ColumnsA: seq<string> := [
    "Weight", "Type of Diet_5", "Gender", "Iron (mg)", "Type of Diet_4",
    "Vitamin B7 (µg)", "omega 3", "Protein (%)", "Height", "wit. B1 - Tiamina",
    "BMI_Category", "Vitamin B3 (mg)", "Vitamin E (mg)", "Cholesterol (mg/day)",
    "Omega 6 (g)", "Age", "Number of Meals per Day", "Type of Diet_1"
  ]
  const ColumnsB: seq<string> := [
    "Age_Category", "Sodium (mg)", "Type of Diet_3", "Cholesterol LDL_y",
    "Dietary Fiber (g)", "Type of Diet_6", "Vitamin B12 (µg)", "Potassium (mg)",
    "Physical Activity", "Vitamin K (µg)", "Vitamin C (mg)", "Iodine (µg)",
    "Vitamin A (µg)", "Carbohydrate_Fat_Ratio", "Calcium (mg)", "Phosphorus (mg)",
    "Magnesium (mg)", "Height_m", "Vitamin B6 (mg)", "Type of Diet_2"
  ]
  /** The last twelve columns: the fields the web form collects. */
  const FormColumns: seq<string> := [
    "Cholesterol LDL_x", "Fat (%)", "Carbohydrates (%)", "wit. B2 - Riboflavin",
    "Vitamin B5 (mg)", "Copper (mg)", "Zinc (mg)", "Vitamin D (µg)", "BMI",
    "Protein_Fat_Ratio", "Selenium (µg)", "Manganese (mg)"
  ]

  /** The columns the classifier expects, in the exact order it expects them. */
  const AllFeatures: seq<string> := ColumnsA + ColumnsB + FormColumns

  /** Values used for every column the request body does not supply. */
  const DefaultValues: map<string, real> := map[
    "Weight" := 70.0,
    "Type of Diet_5" := 0.0,
    "Gender" := 1.0,
    "Iron (mg)" := 15.0,
    "Type of Diet_4" := 0.0,
    "Vitamin B7 (µg)" := 30.0,
    "omega 3" := 1.6,
    "Protein (%)" := 20.0,
    "Height" := 170.0,
    "wit. B1 - Tiamina" := 1.2,
    "BMI_Category" := 2.0,
    "Vitamin B3 (mg)" := 16.0,
    "Vitamin E (mg)" := 15.0,
    "Cholesterol (mg/day)" := 300.0,
    "Omega 6 (g)" := 17.0,
    "Age" := 35.0,
    "Number of Meals per Day" := 3.0,
    "Type of Diet_1" := 0.0,
    "Age_Category" := 2.0,
    "Sodium (mg)" := 2300.0,
    "Type of Diet_3" := 0.0,
    "Cholesterol LDL_y" := 100.0,
    "Dietary Fiber (g)" := 25.0,
    "Type of Diet_6" := 0.0,
    "Vitamin B12 (µg)" := 2.4,
    "Potassium (mg)" := 3500.0,
    "Physical Activity" := 2.0,
    "Vitamin K (µg)" := 120.0,
    "Vitamin C (mg)" := 90.0,
    "Iodine (µg)" := 150.0,
    "Vitamin A (µg)" := 900.0,
    "Carbohydrate_Fat_Ratio" := 1.5,
    "Calcium (mg)" := 1000.0,
    "Phosphorus (mg)" := 700.0,
    "Magnesium (mg)" := 400.0,
    "Height_m" := 1.7,
    "Vitamin B6 (mg)" := 1.7,
    "Type of Diet_2" := 0.0
  ]

  /** The three groups of columns have no name in common. */
  lemma ColumnGroupsDisjoint()
    ensures Disjoint(ColumnsA, ColumnsB)
    ensures Disjoint(ColumnsA, FormColumns)
    ensures Disjoint(ColumnsB, FormColumns)
  {
  }

  /** The column list names every column once. */
  lemma AllFeaturesDistinct()
    ensures |AllFeatures| == 50
    ensures Distinct(AllFeatures)
  {
    assert Distinct(ColumnsA);
    assert Distinct(ColumnsB);
    assert Distinct(FormColumns);
    ColumnGroupsDisjoint();
    DistinctConcat(ColumnsA, ColumnsB);
    DistinctConcat(ColumnsA + ColumnsB, FormColumns);
  }

  /** The defaults name exactly the first 38 columns, so no form column has a default. */
  lemma DefaultsCoverLeadingColumns()
    ensures |ColumnsA + ColumnsB| == 38 && AllFeatures[..38] == ColumnsA + ColumnsB
    ensures forall c :: c in DefaultValues <==> c in AllFeatures[..38]
    ensures forall c :: c in FormColumns ==> c !in DefaultValues
  {
    assert AllFeatures[..38] == ColumnsA + ColumnsB;
    assert forall c :: c in ColumnsA ==> c in DefaultValues;
    assert forall c :: c in ColumnsB ==> c in DefaultValues;
    assert forall c :: c in DefaultValues ==> c in ColumnsA || c in ColumnsB;
    ColumnGroupsDisjoint();
  }

  /**
   * The map the handler feeds to the projection: a copy of `defaults` in which
   * every key of the request body `data` is set to the body's value.
   */
  function Overlaid(defaults: map<string, real>, data: map<string, real>): (input: map<string, real>)
    ensures input.Keys == defaults.Keys + data.Keys
    ensures forall k :: k in data ==> input[k] == data[k]
    ensures forall k :: k in defaults && k !in data ==> input[k] == defaults[k]
  {
    defaults + data
  }

  /** The three properties of `Overlaid` determine its value. */
  lemma OverlaidCharacterized(defaults: map<string, real>, data: map<string, real>, input: map<string, real>)
    requires input.Keys == defaults.Keys + data.Keys
    requires forall k :: k in data ==> input[k] == data[k]
    requires forall k :: k in defaults && k !in data ==> input[k] == defaults[k]
    ensures input == Overlaid(defaults, data)
  {
  }

  /**
   * `input_data = default_values.copy()` followed by `input_data[key] = value`
   * for each item of the body. The body's keys are visited in some order;
   * since they are distinct, the order does not change the outcome.
   */
  method Overlay(defaults: map<string, real>, data: map<string, real>) returns (input: map<string, real>)
    ensures input == Overlaid(defaults, data)
  {
    input := defaults;
    var pending := data.Keys;
    while pending != {}
      invariant pending <= data.Keys
      invariant input.Keys == defaults.Keys + (data.Keys - pending)
      invariant forall k :: k in data && k !in pending ==> input[k] == data[k]
      invariant forall k :: k in defaults && (k !in data || k in pending) ==> input[k] == defaults[k]
      decreases pending
    {
      var key :| key in pending;
      input := input[key := data[key]];
      pending := pending - {key};
    }
  }

  /** One cell of the projected row: the value at `column`, or a missing value. */
  function Cell(input: map<string, real>, column: string): (cell: Option<real>)
    ensures cell.Some? <==> column in input
    ensures cell.Some? ==> cell.value == input[column]
  {
    if column in input then Some(input[column]) else None
  }

  /**
   * `pd.DataFrame([input_data], columns=all_features)`: the single row of the
   * frame, one cell per column, in column order. Keys of `input` that are not
   * columns do not appear; columns that are not keys of `input` are missing.
   */
  function Project(input: map<string, real>, columns: seq<string>): (row: seq<Option<real>>)
    ensures |row| == |columns|
    ensures forall i :: 0 <= i < |columns| ==> (row[i].Some? <==> columns[i] in input)
    ensures forall i :: 0 <= i < |columns| && columns[i] in input ==> row[i] == Some(input[columns[i]])
  {
    if columns == [] then [] else [Cell(input, columns[0])] + Project(input, columns[1..])
  }

  /** The row depends only on the values stored under column names. */
  lemma ProjectOnlyReadsColumns(a: map<string, real>, b: map<string, real>, columns: seq<string>)
    requires forall c :: c in columns ==> Cell(a, c) == Cell(b, c)
    ensures Project(a, columns) == Project(b, columns)
  {
  }

  /** A key of the body that is not a column is dropped by the projection. */
  lemma ForeignKeyDropped(input: map<string, real>, key: string, value: real)
    requires key !in AllFeatures
    ensures Project(input[key := value], AllFeatures) == Project(input, AllFeatures)
  {
  }

  /** What `request.get_json()` yields: a JSON object, or a body whose use raises. */
  datatype RequestBody =
    | JsonObject(fields: map<string, real>)
      /** Not a JSON object (or not JSON): `data.items()` or the parser raises with `reason`. */
    | Unusable(reason: string)

  /** The classifier's answer for a row, or the exception it raised. */
  datatype ModelAnswer = Classified(prediction: int, confidence: real) | Raised(reason: string)

  datatype ReplyBody = PredictionBody(prediction: int, confidence: real) | ErrorBody(error: string)
  datatype Response = Response(status: int, body: ReplyBody)

  /** The reply for the classifier's answer; any exception becomes `{"error": str(e)}` with 500. */
  function Reply(answer: ModelAnswer): (response: Response)
    ensures response.status == 200 <==> answer.Classified?
    ensures answer.Raised? ==> response == Response(500, ErrorBody(answer.reason))
    ensures answer.Classified? ==> response.body == PredictionBody(answer.prediction, answer.confidence)
  {
    match answer
    case Classified(p, c) => Response(200, PredictionBody(p, c))
    case Raised(reason) => Response(500, ErrorBody(reason))
  }

  /**
   * The `/predict` handler. `classify` stands for the pickled classifier:
   * `model.predict` and `model.predict_proba` applied to the projected row.
   */
  method Predict(request: RequestBody, classify: seq<Option<real>> -> ModelAnswer) returns (response: Response)
    ensures response.status in {200, 500}
    ensures response.status == 500 <==> response.body.ErrorBody?
    ensures request.Unusable? ==> response == Response(500, ErrorBody(request.reason))
    ensures request.JsonObject? ==>
      response == Reply(classify(Project(Overlaid(DefaultValues, request.fields), AllFeatures)))
  {
    match request
    case Unusable(reason) =>
      response := Response(500, ErrorBody(reason));
    case JsonObject(data) =>
      var input := Overlay(DefaultValues, data);
      var row := Project(input, AllFeatures);
      response := Reply(classify(row));
  }
}
