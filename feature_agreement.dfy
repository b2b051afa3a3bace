/**
 * Facts that need both the form and the back end: the form's twelve fields
 * are exactly the columns without a default, and a reply of the back end
 * reaches the form's `result` as the form's handlers promise.
 */
module FeatureAgreement {
  import opened Wrappers
  import opened HealthForm
  import opened PredictService

  /** The last twelve model columns are the form's fields, in the form's order. */
  lemma FormColumnsAreTopFeatures()
    ensures |AllFeatures| == 50
    ensures AllFeatures[38..] == FormColumns == TopFeatureNames
  {
  }

  /** The default keys and the form's field names are disjoint, and together they are the column set. */
  lemma FeatureSetsPartition()
    ensures forall n :: n in TopFeatureNames ==> n !in DefaultValues
    ensures forall c :: c in AllFeatures <==> c in DefaultValues || c in TopFeatureNames
  {
    FormColumnsAreTopFeatures();
    DefaultsCoverLeadingColumns();
    assert AllFeatures == AllFeatures[..38] + AllFeatures[38..];
    forall c
      ensures c in AllFeatures <==> c in AllFeatures[..38] || c in AllFeatures[38..]
    {
      if c in AllFeatures {
        var i :| 0 <= i < |AllFeatures| && AllFeatures[i] == c;
        if i < 38 { assert AllFeatures[..38][i] == c; } else { assert AllFeatures[38..][i - 38] == c; }
      }
    }
  }

  /** A body holding every form field leaves no column of the projected row missing. */
  lemma CompleteFormFillsEveryColumn(fields: map<string, real>)
    requires forall n :: n in TopFeatureNames ==> n in fields
    ensures forall i :: 0 <= i < |AllFeatures| ==> Project(Overlaid(DefaultValues, fields), AllFeatures)[i].Some?
  {
    FeatureSetsPartition();
    var input := Overlaid(DefaultValues, fields);
    forall i | 0 <= i < |AllFeatures|
      ensures AllFeatures[i] in input
    {
      assert AllFeatures[i] in AllFeatures;
    }
  }

  /**
   * For a body whose keys are form fields (all the form ever sends), each sent
   * value lands in its field's column and the 38 leading columns keep
   * their defaults.
   */
  lemma FormBodyRow(fields: map<string, real>)
    requires forall k :: k in fields ==> k in TopFeatureNames
    ensures var row := Project(Overlaid(DefaultValues, fields), AllFeatures);
      && |row| == 50
      && (forall j :: 0 <= j < 12 && TopFeatureNames[j] in fields ==>
            row[38 + j] == Some(fields[TopFeatureNames[j]]))
      && (forall i :: 0 <= i < 38 ==> AllFeatures[i] in DefaultValues && row[i] == Some(DefaultValues[AllFeatures[i]]))
  {
    FormColumnsAreTopFeatures();
    FeatureSetsPartition();
    DefaultsCoverLeadingColumns();
    var row := Project(Overlaid(DefaultValues, fields), AllFeatures);
    forall j | 0 <= j < 12 && TopFeatureNames[j] in fields
      ensures row[38 + j] == Some(fields[TopFeatureNames[j]])
    {
      assert AllFeatures[38 + j] == AllFeatures[38..][j];
    }
    forall i | 0 <= i < 38
      ensures AllFeatures[i] in DefaultValues && row[i] == Some(DefaultValues[AllFeatures[i]])
    {
      assert AllFeatures[i] == AllFeatures[..38][i];
      assert AllFeatures[i] in AllFeatures[..38];
      assert AllFeatures[i] !in fields;
    }
  }

  /**
   * What the HTTP client makes of a back-end reply: a 2xx status resolves with
   * the body, any other status rejects with a response whose data is the body.
   */
  function Deliver(response: Response, statusText: string): (outcome: CallOutcome)
    ensures outcome.Fulfilled? <==> 200 <= response.status < 300
    ensures 200 <= response.status < 300 ==>
      outcome.data == match response.body
        case PredictionBody(p, c) => Prediction(p, c)
        case ErrorBody(e) => ErrorObject(e)
    ensures !(200 <= response.status < 300) ==>
      outcome == Rejected(Some(ErrorResponse(response.status, statusText,
        ErrorFields(if response.body.ErrorBody? then Some(response.body.error) else None))))
  {
    if 200 <= response.status < 300 then
      match response.body
      case PredictionBody(p, c) => Fulfilled(Prediction(p, c))
      case ErrorBody(e) => Fulfilled(ErrorObject(e))
    else
      var error := match response.body
        case PredictionBody(_, _) => None
        case ErrorBody(e) => Some(e);
      Rejected(Some(ErrorResponse(response.status, statusText, ErrorFields(error))))
  }

  /** A classification reaches `result` unchanged. */
  lemma ClassificationShown(previous: Option<ResultObject>, prediction: int, confidence: real, statusText: string)
    ensures Settle(previous, Deliver(Reply(Classified(prediction, confidence)), statusText))
         == Some(Prediction(prediction, confidence))
  {
  }

  /**
   * An exception in the handler is shown as the server-error prefix and the
   * exception's text, or the status text when that text is empty.
   */
  lemma ExceptionShown(previous: Option<ResultObject>, reason: string, statusText: string)
    ensures var shown := Settle(previous, Deliver(Reply(Raised(reason)), statusText));
      && (reason != "" ==> shown == Some(ErrorObject(ServerErrorPrefix + reason)))
      && (reason == "" ==> shown == Some(ErrorObject(ServerErrorPrefix + statusText)))
  {
  }

  /** BMI 22 submitted, the classifier answers 1 with confidence 0.87: the positive result is shown. */
  method PositiveResultScenario() returns (shown: Option<ResultObject>, busy: bool)
    ensures shown == Some(Prediction(1, 0.87)) && !busy
  {
    var app := new App();
    assert TopFeatureNames[8] == "BMI";
    app.HandleChange("BMI", Some(22.0));
    assert app.form == map["BMI" := 22.0];
    GuardMatchesRules(app.form, app.errors);
    var request := app.HandleSubmit();
    var response := Predict(JsonObject(request.value), _ => Classified(1, 0.87));
    app.ReceiveOutcome(Deliver(response, "OK"));
    shown, busy := app.result, app.loading;
  }

  /** The classifier raises "model unavailable": the form shows "Erreur du serveur: model unavailable". */
  method ModelUnavailableScenario() returns (shown: Option<ResultObject>, busy: bool)
    ensures shown == Some(ErrorObject(ServerErrorPrefix + "model unavailable")) && !busy
  {
    var app := new App();
    assert TopFeatureNames[8] == "BMI";
    app.HandleChange("BMI", Some(22.0));
    assert app.form == map["BMI" := 22.0];
    GuardMatchesRules(app.form, app.errors);
    var request := app.HandleSubmit();
    var response := Predict(JsonObject(request.value), _ => Raised("model unavailable"));
    assert response == Reply(Raised("model unavailable"));
    ExceptionShown(app.result, "model unavailable", "INTERNAL SERVER ERROR");
    app.ReceiveOutcome(Deliver(response, "INTERNAL SERVER ERROR"));
    shown, busy := app.result, app.loading;
  }
}
