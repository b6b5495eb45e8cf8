/** Already-parsed JSON documents (what `json.loads` / `response.json()` hand
    to the models) and the per-field checks that pydantic applies to them for
    the field types the models use: `int`, `float`, `str`, `Union[int, float]`,
    `Optional[...] = None`, `List[...]` and nested models. */
module JsonValue {
  import opened Wrappers

  /** A JSON value as Python sees it after parsing: integers and decimals are
      distinct, an object is a dict (a later duplicate key replaces an earlier one). */
  datatype Json =
    | JNull
    | JBool(b: bool)
    | JInt(i: int)
    | JFloat(r: real)
    | JString(s: string)
    | JArray(items: seq<Json>)
    | JObject(fields: map<string, Json>)

  type Fields = map<string, Json>

  /** Outcome of validating one value; the error is a human-readable reason. */
  type Check<T> = Result<T, string>

  /** Python's `Union[int, float]` under pydantic's smart union: an integer
      stays an integer, a decimal stays a float. */
  datatype Number = IntNumber(i: int) | FloatNumber(r: real)

  /** A model is validated from a dict only. */
  function AsObject(j: Json): (r: Check<Fields>)
    ensures r.Success? <==> j.JObject?
    ensures r.Success? ==> r.value == j.fields
  {
    if j.JObject? then Success(j.fields) else Failure("Input should be a valid dictionary")
  }

  function Required(f: Fields, key: string): (r: Check<Json>)
    ensures r.Success? <==> key in f
    ensures r.Success? ==> r.value == f[key]
  {
    if key in f then Success(f[key]) else Failure(key + ": Field required")
  }

  /** An `int` field: a JSON integer. */
  function IntValue(key: string, j: Json): (r: Check<int>)
    ensures r.Success? <==> j.JInt?
    ensures r.Success? ==> r.value == j.i
  {
    if j.JInt? then Success(j.i) else Failure(key + ": Input should be a valid integer")
  }

  /** A `float` field: a JSON decimal, or a JSON integer widened to the equal float. */
  function FloatValue(key: string, j: Json): (r: Check<real>)
    ensures r.Success? <==> (j.JInt? || j.JFloat?)
    ensures j.JInt? ==> r == Success(j.i as real)
    ensures j.JFloat? ==> r == Success(j.r)
  {
    match j
    case JInt(i) => Success(i as real)
    case JFloat(x) => Success(x)
    case _ => Failure(key + ": Input should be a valid number")
  }

  /** A `str` field: a JSON string (numbers are not turned into text). */
  function StrValue(key: string, j: Json): (r: Check<string>)
    ensures r.Success? <==> j.JString?
    ensures r.Success? ==> r.value == j.s
  {
    if j.JString? then Success(j.s) else Failure(key + ": Input should be a valid string")
  }

  /** A `Union[int, float]` field. */
  function NumberValue(key: string, j: Json): (r: Check<Number>)
    ensures r.Success? <==> (j.JInt? || j.JFloat?)
    ensures j.JInt? ==> r == Success(IntNumber(j.i))
    ensures j.JFloat? ==> r == Success(FloatNumber(j.r))
  {
    match j
    case JInt(i) => Success(IntNumber(i))
    case JFloat(x) => Success(FloatNumber(x))
    case _ => Failure(key + ": Input should be a valid number")
  }

  // What a dict holds at a key, as the field contracts of the models state it.

  predicate IntAt(f: Fields, key: string) {
    key in f && f[key].JInt?
  }

  predicate StrAt(f: Fields, key: string) {
    key in f && f[key].JString?
  }

  /** `key` holds a JSON number: an integer or a decimal. */
  predicate NumAt(f: Fields, key: string) {
    key in f && (f[key].JInt? || f[key].JFloat?)
  }

  /** The float a JSON number stands for. */
  function RealOf(j: Json): real
    requires j.JInt? || j.JFloat?
  {
    if j.JInt? then j.i as real else j.r
  }

  /** The `Union[int, float]` a JSON number stands for. */
  function NumberOf(j: Json): Number
    requires j.JInt? || j.JFloat?
  {
    if j.JInt? then IntNumber(j.i) else FloatNumber(j.r)
  }

  function IntField(f: Fields, key: string): Check<int> {
    var j :- Required(f, key);
    IntValue(key, j)
  }

  function FloatField(f: Fields, key: string): Check<real> {
    var j :- Required(f, key);
    FloatValue(key, j)
  }

  function StrField(f: Fields, key: string): Check<string> {
    var j :- Required(f, key);
    StrValue(key, j)
  }

  function NumberField(f: Fields, key: string): Check<Number> {
    var j :- Required(f, key);
    NumberValue(key, j)
  }

  /** A field declared `Optional[X] = None`: absent or `null` gives `None`,
      anything else must validate as `X`. */
  function OptionalField<T>(f: Fields, key: string, check: Json -> Check<T>): (r: Check<Option<T>>)
    ensures (key !in f || f[key] == JNull) ==> r == Success(None)
    ensures key in f && f[key] != JNull ==>
      match check(f[key])
      case Success(x) => r == Success(Some(x))
      case Failure(e) => r == Failure(e)
  {
    if key !in f || f[key] == JNull then Success(None)
    else
      var x :- check(f[key]);
      Success(Some(x))
  }

  /** A `List[X]` value: a JSON array whose every item validates as `X`,
      in order. */
  function ListOf<T>(items: seq<Json>, check: Json -> Check<T>): (r: Check<seq<T>>)
    ensures r.Success? <==> forall i :: 0 <= i < |items| ==> check(items[i]).Success?
    ensures r.Success? ==>
      |r.value| == |items| && forall i :: 0 <= i < |items| ==> check(items[i]) == Success(r.value[i])
  {
    if items == [] then Success([])
    else
      var head :- check(items[0]);
      var tail :- ListOf(items[1..], check);
      Success([head] + tail)
  }

  function ListValue<T>(key: string, j: Json, check: Json -> Check<T>): Check<seq<T>> {
    if j.JArray? then ListOf(j.items, check) else Failure(key + ": Input should be a valid list")
  }

  function ListField<T>(f: Fields, key: string, check: Json -> Check<T>): Check<seq<T>> {
    var j :- Required(f, key);
    ListValue(key, j, check)
  }

  /** A nested model field. */
  function ModelField<T>(f: Fields, key: string, check: Json -> Check<T>): Check<T> {
    var j :- Required(f, key);
    check(j)
  }

  // Encoders: the JSON a value of each field type is written as.

  function EncodeStr(s: string): Json {
    JString(s)
  }

  function EncodeOptional<T>(x: Option<T>, enc: T -> Json): Json {
    match x
    case None => JNull
    case Some(v) => enc(v)
  }

  function EncodeNumber(n: Number): Json {
    match n
    case IntNumber(i) => JInt(i)
    case FloatNumber(x) => JFloat(x)
  }

  function EncodeList<T>(xs: seq<T>, enc: T -> Json): (r: seq<Json>)
    ensures |r| == |xs| && forall i :: 0 <= i < |xs| ==> r[i] == enc(xs[i])
  {
    seq(|xs|, i requires 0 <= i < |xs| => enc(xs[i]))
  }

  /** Validating the encoding of a list gives the list back whenever each
      item's encoding validates back to that item. */
  lemma ListRoundTrip<T>(xs: seq<T>, enc: T -> Json, check: Json -> Check<T>)
    requires forall i :: 0 <= i < |xs| ==> check(enc(xs[i])) == Success(xs[i])
    ensures ListOf(EncodeList(xs, enc), check) == Success(xs)
  {
    var r := ListOf(EncodeList(xs, enc), check);
    assert r.Success?;
    assert r.value == xs;
  }

  lemma ListFieldRoundTrip<T>(f: Fields, key: string, xs: seq<T>, enc: T -> Json, check: Json -> Check<T>)
    requires key in f && f[key] == JArray(EncodeList(xs, enc))
    requires forall i :: 0 <= i < |xs| ==> check(enc(xs[i])) == Success(xs[i])
    ensures ListField(f, key, check) == Success(xs)
  {
    ListRoundTrip(xs, enc, check);
  }

  lemma OptionalRoundTrip<T>(f: Fields, key: string, x: Option<T>, enc: T -> Json, check: Json -> Check<T>)
    requires key in f && f[key] == EncodeOptional(x, enc)
    requires x.Some? ==> enc(x.value) != JNull && check(enc(x.value)) == Success(x.value)
    ensures OptionalField(f, key, check) == Success(x)
  {
  }
}
