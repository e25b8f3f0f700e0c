/** The prediction view (`PredictView.post`): feature vector, classifier
    call, result string, one persisted row, and the advisory. */
module Predict {
  import opened Records
  import Advice
  import PyText

  datatype Option<T> = None | Some(value: T)

  /** `int(b)` of a boolean, as a feature. */
  function BoolFeature(b: bool): real
  {
    if b then 1.0 else 0.0
  }

  /** The classifier's input row, in the order the trained model expects:
      study, social media, Netflix, sleep, mental health, attendance, part-time
      job as 0/1, extracurricular participation as 0/1. */
  function FeatureVector(data: InputRecord): (v: seq<real>)
    ensures |v| == 8
    ensures v[0] == data.studyHours && v[1] == data.socialMediaHours
    ensures v[2] == data.netflixHours && v[3] == data.sleepHours
    ensures v[4] == data.mentalHealthRating as real && v[5] == data.attendancePercentage
    ensures v[6] == BoolFeature(data.partTimeJob) && v[7] == BoolFeature(data.extracurricular)
  {
    [ data.studyHours,
      data.socialMediaHours,
      data.netflixHours,
      data.sleepHours,
      data.mentalHealthRating as real,
      data.attendancePercentage,
      BoolFeature(data.partTimeJob),
      BoolFeature(data.extracurricular) ]
  }

  /** Reads a feature row back into metrics: the reference decoding of the
      layout above. It fails on a row of the wrong length, a non-integral
      rating or a flag other than 0 or 1. */
  function FromFeatures(v: seq<real>): Option<InputRecord>
  {
    if |v| == 8 && v[4] == v[4].Floor as real
       && (v[6] == 0.0 || v[6] == 1.0) && (v[7] == 0.0 || v[7] == 1.0)
    then Some(InputRecord(v[0], v[1], v[2], v[3], v[4].Floor, v[5], v[6] == 1.0, v[7] == 1.0))
    else None
  }

  /** The vector loses nothing: decoding it gives back the submission. */
  lemma FeatureVectorRoundTrip(data: InputRecord)
    ensures FromFeatures(FeatureVector(data)) == Some(data)
  {
    var v := FeatureVector(data);
    assert v[4].Floor == data.mentalHealthRating;
  }

  /** Decoding accepts exactly the rows the vectoriser can produce. */
  lemma FromFeaturesInverse(v: seq<real>)
    ensures FromFeatures(v).Some? ==> FeatureVector(FromFeatures(v).value) == v
  {
    if FromFeatures(v).Some? {
      var w := FeatureVector(FromFeatures(v).value);
      assert w[4] == v[4];
      assert w[6] == v[6] && w[7] == v[7];
      assert forall i :: 0 <= i < 8 ==> w[i] == v[i];
    }
  }

  const AtRiskResult := "Vous risquez d'être en difficulté"
  const NotAtRiskResult := "Vous n'êtes pas en difficulté"
  const InvalidDataMessage := "Les données envoyées sont invalides."

  /** The display string: the "risquez" text exactly for label 1. */
  function ResultText(prediction: int): (r: string)
    ensures r == AtRiskResult <==> prediction == 1
    ensures r == NotAtRiskResult <==> prediction != 1
  {
    if prediction == 1 then AtRiskResult else NotAtRiskResult
  }

  /** The display string and the advisory's first line give the same
      verdict, for every label. */
  lemma ResultMatchesOpening(data: InputRecord, prediction: int)
    ensures ResultText(prediction) == AtRiskResult
        <==> Advice.AdviceLines(data, prediction)[0] == Advice.Text(Advice.AtRiskOpening)
  {
    var first := Advice.Text(Advice.AtRiskOpening);
    var other := Advice.Text(Advice.NotAtRiskOpening);
    assert first[5] != other[5];
  }

  /** What the serializer made of the request body: the validated metrics,
      or its per-field error messages. */
  datatype Validation =
    | Valid(data: InputRecord)
    | Invalid(errors: map<string, seq<string>>)

  /** The view's JSON answer. */
  datatype PredictResponse =
    | Predicted(prediction: string, raw: int, advice: string)
    | Rejected(error: string, details: map<string, seq<string>>)

  /** The `Prediction` table, as the sequence of its rows in insertion order. */
  class PredictionStore {
    var records: seq<PredictionRecord>

    constructor ()
      ensures records == []
    {
      records := [];
    }

    /** `Prediction.objects.create(...)`: appends exactly one row. */
    method Create(student: UserId, input: InputRecord, result: int, createdAt: Timestamp)
      returns (row: PredictionRecord)
      modifies this
      ensures row == PredictionRecord(student, input, result, createdAt)
      ensures records == old(records) + [row]
    {
      row := PredictionRecord(student, input, result, createdAt);
      records := records + [row];
    }
  }

  /** `PredictView.post`. The classifier is `classify`, the clock reading the
      row's timestamp is `now`. A rejected body adds no row; an accepted one
      adds exactly one, whose result is the label the response reports. */
  method Post(store: PredictionStore, user: UserId, request: Validation,
              classify: seq<real> -> Label, now: Timestamp)
    returns (response: PredictResponse)
    modifies store
    ensures request.Invalid? ==>
      && response == Rejected(InvalidDataMessage, request.errors)
      && store.records == old(store.records)
    ensures request.Valid? ==>
      (var verdict := classify(FeatureVector(request.data));
       && response == Predicted(ResultText(verdict), verdict,
                                PyText.JoinLines(Advice.AdviceLines(request.data, verdict)))
       && store.records == old(store.records) + [PredictionRecord(user, request.data, verdict, now)])
  {
    match request
    case Invalid(errors) =>
      response := Rejected(InvalidDataMessage, errors);
    case Valid(data) =>
      var inputData := FeatureVector(data);
      var prediction := classify(inputData);
      var result := ResultText(prediction);
      var _ := store.Create(user, data, prediction, now);
      var advice := Advice.GetAdvice(data, prediction);
      response := Predicted(result, prediction, advice);
  }
}
