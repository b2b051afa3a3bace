/**
 * The React health form: the twelve fields it renders, the per-field
 * validator, and the component state (`form`, `errors`, `result`, `loading`)
 * that the change and submit handlers update.
 */
module HealthForm {
  import opened Wrappers
  import opened Sequences

  /** A field of the form: its payload key, its help text and its unit. */
  datatype Feature = Feature(name: string, description: string, unit: string)

  const TopFeatures: seq<Feature> := [
    Feature("Cholesterol LDL_x", "Niveau de cholestérol LDL en mg/dL", "mg/dL"),
    Feature("Fat (%)", "Pourcentage de graisses dans l'alimentation", "%"),
    Feature("Carbohydrates (%)", "Pourcentage de glucides dans l'alimentation", "%"),
    Feature("wit. B2 - Riboflavin", "Niveau de vitamine B2 (Riboflavine)", "mg"),
    Feature("Vitamin B5 (mg)", "Niveau de vitamine B5", "mg"),
    Feature("Copper (mg)", "Niveau de cuivre", "mg"),
    Feature("Zinc (mg)", "Niveau de zinc", "mg"),
    Feature("Vitamin D (µg)", "Niveau de vitamine D", "µg"),
    Feature("BMI", "Indice de masse corporelle", "kg/m²"),
    Feature("Protein_Fat_Ratio", "Ratio protéines/graisses", ""),
    Feature("Selenium (µg)", "Niveau de sélénium", "µg"),
    Feature("Manganese (mg)", "Niveau de manganèse", "mg")
  ]

  /** The names of the rendered inputs, in rendering order. */
  const TopFeatureNames: seq<string> := seq(|TopFeatures|, i requires 0 <= i < |TopFeatures| => TopFeatures[i].name)

  /** Every input has its own name. */
  lemma TopFeatureNamesDistinct()
    ensures |TopFeatureNames| == 12
    ensures Distinct(TopFeatureNames)
  {
  }

  const NegativeMessage: string := "La valeur ne peut pas être négative"
  const BmiRangeMessage: string := "BMI doit être entre 10 et 50"
  const PercentMessage: string := "Le pourcentage ne peut pas dépasser 100%"
  const ServerErrorPrefix: string := "Erreur du serveur: "
  /** Written as its two sentences so that the verifier can index into the first one (a long literal defeats it). */
  const ConnectionMessage: string :=
    "Erreur de connexion au serveur. " + "Vérifiez que le serveur Flask est en cours d'exécution."

  /** The fields whose value is a percentage. */
  predicate IsPercentField(name: string)
  {
    name == "Fat (%)" || name == "Carbohydrates (%)"
  }

  /**
   * The range rules, stated as constraints rather than as a chain of checks:
   * no value is negative, BMI lies in [10, 50], percentages do not exceed 100.
   */
  predicate Acceptable(name: string, value: real)
  {
    && 0.0 <= value
    && (name == "BMI" ==> 10.0 <= value <= 50.0)
    && (IsPercentField(name) ==> value <= 100.0)
  }

  /** `validateInput`: the first broken rule's message, or "" when none is broken. */
  function ValidateInput(name: string, value: real): (message: string)
    ensures message == "" <==> Acceptable(name, value)
    ensures message in {"", NegativeMessage, BmiRangeMessage, PercentMessage}
  {
    if value < 0.0 then NegativeMessage
    else if name == "BMI" && (value < 10.0 || value > 50.0) then BmiRangeMessage
    else if name == "Fat (%)" && value > 100.0 then PercentMessage
    else if name == "Carbohydrates (%)" && value > 100.0 then PercentMessage
    else ""
  }

  /** The negative-value rule comes first, so it decides for every field. */
  lemma NegativeRejectedEverywhere(name: string, value: real)
    requires value < 0.0
    ensures ValidateInput(name, value) == NegativeMessage
  {
  }

  /** A non-negative BMI is rejected exactly outside [10, 50], with the BMI message. */
  lemma BmiRule(value: real)
    requires 0.0 <= value
    ensures ValidateInput("BMI", value) != "" <==> value < 10.0 || value > 50.0
    ensures ValidateInput("BMI", value) in {"", BmiRangeMessage}
  {
  }

  /** A non-negative percentage gets the percentage message exactly above 100, and "" otherwise. */
  lemma PercentRule(name: string, value: real)
    requires IsPercentField(name) && 0.0 <= value
    ensures ValidateInput(name, value) == PercentMessage <==> value > 100.0
    ensures value <= 100.0 ==> ValidateInput(name, value) == ""
  {
  }

  /** Every other field accepts every non-negative value. */
  lemma OtherFieldsAccept(name: string, value: real)
    requires name != "BMI" && !IsPercentField(name) && 0.0 <= value
    ensures ValidateInput(name, value) == ""
  {
  }

  /** `parseFloat(value) || 0`: `parsed` is what `parseFloat` returned, NaN being `None`. */
  function NumericValue(parsed: Option<real>): (value: real)
    ensures parsed.Some? ==> value == parsed.value
    ensures value == 0.0 <==> parsed.None? || parsed.value == 0.0
  {
    match parsed
    case Some(v) => v
    case None => 0.0
  }

  /** Unparsable text is stored as 0, so it is validated as 0; for BMI that is out of range. */
  lemma UnparsableReadsAsZero()
    ensures NumericValue(None) == 0.0
    ensures ValidateInput("BMI", NumericValue(None)) == BmiRangeMessage
  {
  }

  /** `Object.values(errors).some(error => error !== "")`. */
  predicate HasErrors(errors: map<string, string>)
    ensures HasErrors(errors) <==> exists k :: k in errors && errors[k] != ""
  {
    assert forall k :: k in errors ==> errors[k] in errors.Values;
    exists message :: message in errors.Values && message != ""
  }

  /** A field with no entry in `errors` counts as a field without error. */
  lemma AbsentFieldCountsAsValid(errors: map<string, string>, name: string)
    requires name !in errors
    ensures HasErrors(errors[name := ""]) <==> HasErrors(errors)
  {
    var updated := errors[name := ""];
    if HasErrors(errors) {
      var message :| message in errors.Values && message != "";
      var k :| k in errors && errors[k] == message;
      assert updated[k] == message;
      assert message in updated.Values;
    }
    if HasErrors(updated) {
      var message :| message in updated.Values && message != "";
      var k :| k in updated && updated[k] == message;
      assert k != name && errors[k] == message;
      assert message in errors.Values;
    }
  }

  /** `errors` holds, for each edited field, the validator's verdict on its stored value. */
  ghost predicate Tracks(form: map<string, real>, errors: map<string, string>)
  {
    errors.Keys == form.Keys && forall k :: k in form ==> errors[k] == ValidateInput(k, form[k])
  }

  /** When `errors` tracks `form`, the submit guard lets through exactly the forms whose every edited value is acceptable. */
  lemma GuardMatchesRules(form: map<string, real>, errors: map<string, string>)
    requires Tracks(form, errors)
    ensures !HasErrors(errors) <==> forall k :: k in form ==> Acceptable(k, form[k])
  {
    if !HasErrors(errors) {
      forall k | k in form
        ensures Acceptable(k, form[k])
      {
        assert errors[k] in errors.Values;
      }
    }
  }

  /** The object `result` holds once a submission settles: the server's answer or an error. */
  datatype ResultObject = Prediction(prediction: int, confidence: real) | ErrorObject(error: string)

  /** `err.response.data`: null/undefined, or an object whose `error` field may be absent. */
  datatype ErrorData = NoData | ErrorFields(error: Option<string>)

  /** `err.response` of a rejected request. */
  datatype ErrorResponse = ErrorResponse(status: int, statusText: string, data: ErrorData)

  /** How the awaited POST ends: it resolves with `res.data`, or rejects with or without a response. */
  datatype CallOutcome = Fulfilled(data: ResultObject) | Rejected(response: Option<ErrorResponse>)

  /**
   * The message the catch block builds, or `None` when building it throws
   * (`err.response.data` is null or undefined, so reading `.error` raises).
   */
  function FailureMessage(response: Option<ErrorResponse>): (message: Option<string>)
    ensures message.None? <==> response.Some? && response.value.data.NoData?
    ensures response.None? ==> message == Some(ConnectionMessage)
    ensures response.Some? && message.Some? ==>
      |ServerErrorPrefix| <= |message.value| && message.value[..|ServerErrorPrefix|] == ServerErrorPrefix
  {
    match response
    case None => Some(ConnectionMessage)
    case Some(r) =>
      match r.data
      case NoData => None
      case ErrorFields(error) =>
        Some(ServerErrorPrefix + if error.Some? && error.value != "" then error.value else r.statusText)
  }

  /** A failure without a response shows the fixed connection message. */
  lemma ConnectionFailureMessage()
    ensures FailureMessage(None) == Some(ConnectionMessage)
  {
  }

  /** A server error shows the prefix and the server's `error` field when it is non-empty, the status text otherwise. */
  lemma ServerFailureMessage(r: ErrorResponse)
    requires r.data.ErrorFields?
    ensures FailureMessage(Some(r)).Some?
    ensures r.data.error.Some? && r.data.error.value != "" ==>
      FailureMessage(Some(r)).value == ServerErrorPrefix + r.data.error.value
    ensures r.data.error.None? || r.data.error.value == "" ==>
      FailureMessage(Some(r)).value == ServerErrorPrefix + r.statusText
  {
  }

  /** Whatever the server answers, its error is never shown as the connection failure. */
  lemma ServerErrorNotConnectionError(r: ErrorResponse)
    ensures FailureMessage(Some(r)) != Some(ConnectionMessage)
  {
    if r.data.ErrorFields? {
      var m := FailureMessage(Some(r)).value;
      assert m[8] == ServerErrorPrefix[8] == 'u';
      assert ConnectionMessage[8] == 'e';
    }
  }

  /** The value `result` takes when the awaited call ends with `outcome`. */
  function Settle(previous: Option<ResultObject>, outcome: CallOutcome): (next: Option<ResultObject>)
    ensures outcome.Fulfilled? ==> next == Some(outcome.data)
    ensures outcome.Rejected? && FailureMessage(outcome.response).Some? ==>
      next == Some(ErrorObject(FailureMessage(outcome.response).value))
    ensures outcome.Rejected? && FailureMessage(outcome.response).None? ==> next == previous
  {
    match outcome
    case Fulfilled(data) => Some(data)
    case Rejected(response) =>
      match FailureMessage(response)
      case Some(message) => Some(ErrorObject(message))
      case None => previous
  }

  /** Settling twice with the same outcome shows what settling once shows: a repeated attempt with the same answer changes nothing. */
  lemma SettleIdempotent(previous: Option<ResultObject>, outcome: CallOutcome)
    ensures Settle(Settle(previous, outcome), outcome) == Settle(previous, outcome)
  {
  }

  /** Every attempt overwrites `result`, except a rejection whose response has no data. */
  lemma SettleIgnoresPrevious(p: Option<ResultObject>, q: Option<ResultObject>, outcome: CallOutcome)
    requires !(outcome.Rejected? && outcome.response.Some? && outcome.response.value.data.NoData?)
    ensures Settle(p, outcome) == Settle(q, outcome)
  {
  }

  /** A rejection whose response has no data leaves `result` as it was. */
  lemma SettleKeepsResultWithoutData(previous: Option<ResultObject>, r: ErrorResponse)
    requires r.data.NoData?
    ensures Settle(previous, Rejected(Some(r))) == previous
  {
  }

  /** The `App` component's state. */
  class App {
    var form: map<string, real>
    var errors: map<string, string>
    var result: Option<ResultObject>
    var loading: bool

    /** Every edited field is a rendered input, and its error is the validator's verdict on its value. */
    ghost predicate Valid()
      reads this
    {
      && Tracks(form, errors)
      && forall k :: k in form ==> k in TopFeatureNames
    }

    /** The initial state: `useState({})`, `useState(null)`, `useState(false)`, `useState({})`. */
    constructor ()
      ensures Valid()
      ensures form == map[] && errors == map[] && result == None && !loading
    {
      form, errors, result, loading := map[], map[], None, false;
    }

    /**
     * `handleChange` for the input named `name`, whose text `parseFloat`
     * read as `parsed`. Only the key `name` changes, in both maps.
     */
    method HandleChange(name: string, parsed: Option<real>)
      requires Valid() && name in TopFeatureNames
      modifies this
      ensures Valid()
      ensures form == old(form)[name := NumericValue(parsed)]
      ensures errors == old(errors)[name := ValidateInput(name, NumericValue(parsed))]
      ensures result == old(result) && loading == old(loading)
    {
      var numValue := NumericValue(parsed);
      var error := ValidateInput(name, numValue);
      errors := errors[name := error];
      form := form[name := numValue];
    }

    /**
     * `handleSubmit` up to the awaited POST. When some stored message is
     * non-empty nothing happens and no request is issued; otherwise `loading`
     * is set and the request carries `form` as its body. The submit button is
     * disabled while loading, hence `requires !loading`.
     */
    method HandleSubmit() returns (request: Option<map<string, real>>)
      requires Valid() && !loading
      modifies this
      ensures Valid()
      ensures request.None? <==> HasErrors(old(errors))
      ensures form == old(form) && errors == old(errors) && result == old(result)
      ensures request.None? ==> !loading
      ensures request.Some? ==> loading && request.value == form
    {
      if HasErrors(errors) {
        return None;
      }
      loading := true;
      request := Some(form);
    }

    /** The rest of `handleSubmit` once the POST settles: `setResult` in `try` or `catch`, then `setLoading(false)` in `finally`. */
    method ReceiveOutcome(outcome: CallOutcome)
      requires Valid() && loading
      modifies this
      ensures Valid()
      ensures form == old(form) && errors == old(errors)
      ensures result == Settle(old(result), outcome)
      ensures !loading
    {
      match outcome {
        case Fulfilled(data) =>
          result := Some(data);
        case Rejected(response) =>
          var message := FailureMessage(response);
          if message.Some? {
            result := Some(ErrorObject(message.value));
          }
      }
      loading := false;
    }
  }

  /** A Fat (%) of 150 shows the percentage message at once and blocks the submission. */
  method FatAboveLimitBlocksSubmit() returns (shown: string, request: Option<map<string, real>>)
    ensures shown == PercentMessage && request == None
  {
    var app := new App();
    assert TopFeatureNames[1] == "Fat (%)";
    app.HandleChange("Fat (%)", Some(150.0));
    shown := app.errors["Fat (%)"];
    assert shown in app.errors.Values;
    request := app.HandleSubmit();
  }

  /** With the server unreachable, the connection message is shown and `loading` is back to false. */
  method UnreachableServerScenario() returns (shown: Option<ResultObject>, busy: bool)
    ensures shown == Some(ErrorObject(ConnectionMessage)) && !busy
  {
    var app := new App();
    assert TopFeatureNames[8] == "BMI";
    app.HandleChange("BMI", Some(22.0));
    assert app.form == map["BMI" := 22.0];
    GuardMatchesRules(app.form, app.errors);
    var request := app.HandleSubmit();
    app.ReceiveOutcome(Rejected(None));
    shown, busy := app.result, app.loading;
  }
}
