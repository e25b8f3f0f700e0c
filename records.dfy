/** The values the prediction core works on: the submitted metrics, the
    classifier's label, the persisted prediction row, the authenticated
    student and the JSON values of a request body. */
module Records {

  /** The eight validated metrics of one submission, in the order of the
      `Prediction` model's fields. Hours and percentages are exact reals. */
  datatype InputRecord = InputRecord(
    studyHours: real,
    socialMediaHours: real,
    netflixHours: real,
    sleepHours: real,
    mentalHealthRating: int,
    attendancePercentage: real,
    partTimeJob: bool,
    extracurricular: bool)

  /** What the trained classifier answers: 1 is "at risk", 0 is not. */
  type Label = l: int | l == 0 || l == 1

  /** The primary key of a student, standing for the student in queries. */
  type UserId = nat

  /** A creation time; only its order matters to the core. */
  type Timestamp = int

  /** The authenticated student as the views see it. */
  datatype User = User(id: UserId, fullName: string, email: string)

  /** One persisted `Prediction` row. */
  datatype PredictionRecord = PredictionRecord(
    student: UserId,
    input: InputRecord,
    result: int,
    createdAt: Timestamp)

  /** A value decoded from a JSON request body. The parser keeps a number
      written without fraction or exponent as an `int` and any other number
      as a `float`, which `str()` prints differently ("7" against "7.0"). */
  datatype Json =
    | JNull
    | JBool(b: bool)
    | JInt(i: int)
    | JFloat(r: real)
    | JString(s: string)
    | JArray(items: seq<Json>)
    | JObject(fields: map<string, Json>)

  /** The values Python counts as false that JSON can carry: `None`,
      `False`, integer or float zero, the empty string, the empty list and
      the empty dict. */
  predicate Falsy(v: Json)
  {
    v == JNull || v == JBool(false) || v == JInt(0) || v == JFloat(0.0)
    || v == JString("") || v == JArray([]) || v == JObject(map[])
  }

  /** Python's truth value of a decoded JSON value: false exactly for the
      falsy values. */
  predicate Truthy(v: Json)
    ensures Truthy(v) <==> !Falsy(v)
  {
    match v
    case JNull => false
    case JBool(b) => b
    case JInt(i) => i != 0
    case JFloat(r) => r != 0.0
    case JString(s) => s != ""
    case JArray(items) => items != []
    case JObject(fields) => fields != map[]
  }

  /** Python's `d.get(key)`: the value under `key`, or `None` when absent. */
  function Get(d: map<string, Json>, key: string): (v: Json)
    ensures key !in d ==> v == JNull
    ensures key in d ==> v == d[key]
  {
    if key in d then d[key] else JNull
  }
}
