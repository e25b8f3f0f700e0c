/** The report download (`DownloadReportView.post`): the guard on the request
    body, then the report and its attachment name. */
module Download {
  import opened Records
  import PyText
  import Report

  const MissingFieldsMessage := "Champs requis manquants ou invalides."

  /** The guard: the prediction text and the advice are truthy and the
      inputs are a JSON object. */
  predicate Accepts(prediction: Json, advice: Json, inputs: Json)
    ensures Accepts(prediction, advice, inputs) ==> prediction != JNull && advice != JNull
    ensures Accepts(prediction, advice, inputs)
        <==> !Falsy(prediction) && !Falsy(advice) && inputs.JObject?
  {
    Truthy(prediction) && Truthy(advice) && inputs.JObject?
  }

  /** For the string fields a client normally sends, the guard asks for a
      non-empty prediction text, a non-empty advice and an object of inputs;
      a missing field (`None`) is always rejected. */
  lemma AcceptsStrings(prediction: string, advice: string, inputs: Json)
    ensures Accepts(JString(prediction), JString(advice), inputs)
        <==> prediction != "" && advice != "" && inputs.JObject?
    ensures !Accepts(JNull, JString(advice), inputs)
    ensures !Accepts(JString(prediction), JNull, inputs)
    ensures !Accepts(JString(prediction), JString(advice), JNull)
  {
  }

  /** `f"rapport_pred_{request.user.id}.pdf"`. */
  function AttachmentName(user: User): (name: string)
    ensures |name| == 17 + |PyText.NatString(user.id)|
    ensures name[..13] == "rapport_pred_" && name[|name| - 4..] == ".pdf"
    ensures name[13..|name| - 4] == PyText.NatString(user.id)
  {
    "rapport_pred_" + PyText.NatString(user.id) + ".pdf"
  }

  /** What the view answers. `Unhandled` is an exception escaping the view:
      `.get` on a body that is not an object, or a prediction or advice that
      the guard lets through but that is not a string, which the renderer
      cannot draw or split. */
  datatype DownloadResponse =
    | BadRequest(error: string)
    | Attachment(filename: string, draws: seq<Report.Draw>, pages: nat)
    | Unhandled

  /** `DownloadReportView.post` for the authenticated `user`. The formatted
      current date is `date` and Python's `str()` of numbers and containers
      is `show`. A rejected request draws nothing; an accepted one with
      string fields is answered with the whole report. */
  method Post(user: User, body: Json, date: string, show: Json -> string)
    returns (response: DownloadResponse)
    ensures !body.JObject? ==> response == Unhandled
    ensures body.JObject? ==>
      var prediction := Get(body.fields, "prediction");
      var advice := Get(body.fields, "advice");
      var inputs := Get(body.fields, "inputs");
      && (!Accepts(prediction, advice, inputs) <==> response == BadRequest(MissingFieldsMessage))
      && (Accepts(prediction, advice, inputs) && prediction.JString? && advice.JString? ==>
            response == Attachment(AttachmentName(user),
                                   Report.ReportDraws(user, date, prediction.s, advice.s, inputs.fields, show),
                                   Report.PageCount(advice.s)))
      && (Accepts(prediction, advice, inputs) && !(prediction.JString? && advice.JString?) ==>
            response == Unhandled)
  {
    if !body.JObject? {
      return Unhandled;
    }
    var predictionText := Get(body.fields, "prediction");
    var advice := Get(body.fields, "advice");
    var inputs := Get(body.fields, "inputs");
    if !Truthy(predictionText) || !Truthy(advice) || !inputs.JObject? {
      return BadRequest(MissingFieldsMessage);
    }
    if !predictionText.JString? || !advice.JString? {
      return Unhandled;
    }
    var pdf := Report.GeneratePredictionPdf(user, predictionText.s, advice.s, inputs.fields, date, show);
    response := Attachment(AttachmentName(user), pdf.draws, pdf.page);
  }
}
