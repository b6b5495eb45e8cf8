/** The response envelope: `UltrahumanData` (metric entries grouped by
    metric name, plus the latest time zone), `UltrahumanResponse` (an HTTP
    status that must lie in 100..599, an optional error text and the data)
    and `from_json`, which accepts either JSON text or an already decoded
    value. */
module Responses {
  import opened Wrappers
  import opened JsonValue
  import opened MetricEntries

  datatype UltrahumanData = UltrahumanData(
    metrics: map<string, seq<MetricEntry>>,
    latestTimeZone: string)

  datatype UltrahumanResponse = UltrahumanResponse(
    status: int,
    error: Option<string>,
    data: UltrahumanData)

  predicate IsHttpStatus(v: int) {
    100 <= v <= 599
  }

  /** `validate_status`: a status outside 100..599 is refused. */
  function ValidateStatus(v: int): (r: Check<int>)
    ensures r.Success? <==> IsHttpStatus(v)
    ensures r.Success? ==> r.value == v
  {
    if v < 100 || v > 599 then
      Failure("status: Value error, Status must be a valid HTTP status code")
    else Success(v)
  }

  /** The list of entries under one metric name. */
  function EntriesValue(j: Json): Check<seq<MetricEntry>> {
    ListValue("metrics", j, ValidateEntry)
  }

  /** `Dict[str, List[MetricEntry]]`: every value must be a list of valid
      entries; the keys are kept as they are. */
  function ValidateMetrics(j: Json): (r: Check<map<string, seq<MetricEntry>>>)
    ensures r.Success? <==>
      j.JObject? && forall k :: k in j.fields ==> EntriesValue(j.fields[k]).Success?
    ensures r.Success? ==>
      r.value.Keys == j.fields.Keys &&
      forall k :: k in r.value ==> EntriesValue(j.fields[k]) == Success(r.value[k])
  {
    var f :- AsObject(j);
    if forall k | k in f :: EntriesValue(f[k]).Success? then
      Success(map k | k in f :: EntriesValue(f[k]).value)
    else
      Failure("metrics: Input should be a valid list of metric entries")
  }

  /** `UltrahumanData.model_validate`: the metrics map and the time zone
      string are both required; other keys are ignored. */
  function ValidateData(j: Json): (r: Check<UltrahumanData>)
    ensures r.Success? ==>
      j.JObject? && "metrics" in j.fields && ValidateMetrics(j.fields["metrics"]) == Success(r.value.metrics) &&
      "latest_time_zone" in j.fields && j.fields["latest_time_zone"] == JString(r.value.latestTimeZone)
    ensures (j.JObject? && "metrics" in j.fields && ValidateMetrics(j.fields["metrics"]).Success? &&
             "latest_time_zone" in j.fields && j.fields["latest_time_zone"].JString?) ==>
      r == Success(UltrahumanData(ValidateMetrics(j.fields["metrics"]).value, j.fields["latest_time_zone"].s))
  {
    var f :- AsObject(j);
    var metrics :- ModelField(f, "metrics", ValidateMetrics);
    var zone :- StrField(f, "latest_time_zone");
    Success(UltrahumanData(metrics, zone))
  }

  /** `UltrahumanResponse.model_validate`: the status is a valid HTTP
      status, the error is absent exactly when the key is missing or `null`,
      and the data is validated. */
  function ValidateResponse(j: Json): (r: Check<UltrahumanResponse>)
    ensures r.Success? ==>
      j.JObject? && "status" in j.fields && j.fields["status"] == JInt(r.value.status) &&
      IsHttpStatus(r.value.status)
    ensures (j.JObject? && "status" in j.fields && j.fields["status"].JInt? &&
             !IsHttpStatus(j.fields["status"].i)) ==> r.Failure?
    ensures r.Success? ==>
      (r.value.error.None? <==> "error" !in j.fields || j.fields["error"] == JNull)
    ensures r.Success? ==> "data" in j.fields && ValidateData(j.fields["data"]) == Success(r.value.data)
    ensures r.Success? && r.value.error.Some? ==> j.fields["error"] == JString(r.value.error.value)
    ensures (j.JObject? && "error" in j.fields && j.fields["error"] != JNull &&
             !j.fields["error"].JString?) ==> r.Failure?
    ensures (j.JObject? && "status" in j.fields && j.fields["status"].JInt? &&
             IsHttpStatus(j.fields["status"].i) &&
             ("error" !in j.fields || j.fields["error"] == JNull || j.fields["error"].JString?) &&
             "data" in j.fields && ValidateData(j.fields["data"]).Success?) ==>
      r == Success(UltrahumanResponse(
        j.fields["status"].i,
        if "error" in j.fields && j.fields["error"].JString? then Some(j.fields["error"].s) else None,
        ValidateData(j.fields["data"]).value))
  {
    var f :- AsObject(j);
    var raw :- IntField(f, "status");
    var status :- ValidateStatus(raw);
    var error :- OptionalField(f, "error", j => StrValue("error", j));
    var data :- ModelField(f, "data", ValidateData);
    Success(UltrahumanResponse(status, error, data))
  }

  /** What `from_json` is given: text, together with the outcome of decoding
      it as JSON (decoding itself is not modelled), or a decoded value. */
  datatype JsonInput = Text(parsed: Result<Json, string>) | Value(json: Json)

  /** `UltrahumanResponse.from_json`: text that is not JSON and data that
      does not validate are both reported as a `ValueError` message. */
  function FromJson(input: JsonInput): (r: Result<UltrahumanResponse, string>)
    ensures input.Text? && input.parsed.Failure? ==>
      r == Failure("Invalid JSON string: " + input.parsed.error)
    ensures var j := if input.Value? then Success(input.json) else input.parsed;
      j.Success? ==>
        (r.Success? <==> ValidateResponse(j.value).Success?) &&
        (r.Success? ==> r == ValidateResponse(j.value)) &&
        (r.Failure? ==> r.error == "Failed to parse UltrahumanResponse: " + ValidateResponse(j.value).error)
  {
    var j :- match input
      case Value(v) => Success(v)
      case Text(parsed) =>
        if parsed.Failure? then Failure("Invalid JSON string: " + parsed.error) else Success(parsed.value);
    match ValidateResponse(j)
    case Success(resp) => Success(resp)
    case Failure(e) => Failure("Failed to parse UltrahumanResponse: " + e)
  }

  // Encoding

  function EncodeEntries(es: seq<MetricEntry>): Json {
    JArray(EncodeList(es, EncodeEntry))
  }

  function EncodeMetrics(m: map<string, seq<MetricEntry>>): Json {
    JObject(map k | k in m :: EncodeEntries(m[k]))
  }

  function EncodeData(d: UltrahumanData): Json {
    JObject(map["metrics" := EncodeMetrics(d.metrics), "latest_time_zone" := JString(d.latestTimeZone)])
  }

  function EncodeResponse(r: UltrahumanResponse): Json {
    JObject(map[
      "status" := JInt(r.status),
      "error" := EncodeOptional(r.error, EncodeStr),
      "data" := EncodeData(r.data)])
  }

  // Properties

  /** Every entry of the data reads back from its own JSON. */
  predicate StableData(d: UltrahumanData) {
    forall k, i :: k in d.metrics && 0 <= i < |d.metrics[k]| ==> Stable(d.metrics[k][i])
  }

  /** A response the model can produce: its status is a valid HTTP status
      and its entries are stable. */
  predicate WellFormedResponse(r: UltrahumanResponse) {
    IsHttpStatus(r.status) && StableData(r.data)
  }

  lemma EntriesRoundTrip(es: seq<MetricEntry>)
    requires forall i :: 0 <= i < |es| ==> Stable(es[i])
    ensures EntriesValue(EncodeEntries(es)) == Success(es)
  {
    forall i | 0 <= i < |es| ensures ValidateEntry(EncodeEntry(es[i])) == Success(es[i]) {
      EntryRoundTrip(es[i]);
    }
    ListRoundTrip(es, EncodeEntry, ValidateEntry);
  }

  lemma MetricsRoundTrip(m: map<string, seq<MetricEntry>>)
    requires forall k, i :: k in m && 0 <= i < |m[k]| ==> Stable(m[k][i])
    ensures ValidateMetrics(EncodeMetrics(m)) == Success(m)
  {
    var j := EncodeMetrics(m);
    assert j.fields.Keys == m.Keys;
    forall k | k in j.fields ensures EntriesValue(j.fields[k]) == Success(m[k]) {
      assert j.fields[k] == EncodeEntries(m[k]);
      EntriesRoundTrip(m[k]);
    }
    var r := ValidateMetrics(j);
    assert r.Success?;
    assert forall k :: k in m ==> r.value[k] == m[k];
    assert r.value == m;
  }

  /** A well-formed response validates back from the JSON it is written
      as. */
  lemma ResponseRoundTrip(r: UltrahumanResponse)
    requires WellFormedResponse(r)
    ensures ValidateResponse(EncodeResponse(r)) == Success(r)
  {
    MetricsRoundTrip(r.data.metrics);
    var d := EncodeData(r.data);
    assert ValidateData(d) == Success(r.data);
    var f := EncodeResponse(r).fields;
    OptionalRoundTrip(f, "error", r.error, EncodeStr, j => StrValue("error", j));
  }

  /** Every response the validator accepts is well formed. */
  lemma ValidatedWellFormed(j: Json)
    requires ValidateResponse(j).Success?
    ensures WellFormedResponse(ValidateResponse(j).value)
  {
    var d := ValidateResponse(j).value.data;
    var fields := j.fields["data"].fields["metrics"].fields;
    forall k, i | k in d.metrics && 0 <= i < |d.metrics[k]| ensures Stable(d.metrics[k][i]) {
      var items := fields[k].items;
      assert ValidateEntry(items[i]) == Success(d.metrics[k][i]);
      ValidatedEntryStable(items[i]);
    }
  }

  /** Validating, writing the result out and validating again gives the same
      response: the dispatch of the entries does not drift. */
  lemma ValidateEncodeValidate(j: Json)
    requires ValidateResponse(j).Success?
    ensures ValidateResponse(EncodeResponse(ValidateResponse(j).value)) == ValidateResponse(j)
  {
    ValidatedWellFormed(j);
    ResponseRoundTrip(ValidateResponse(j).value);
  }
}
