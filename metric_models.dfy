/** The metric records of the response model: `MetricValue`, the series
    objects (`BaseMetricObject` and its trend variant), the steps object, the
    simple value object and the index object, each with the check pydantic
    performs when validating one from JSON and the JSON it is written as. */
module MetricModels {
  import opened Wrappers
  import opened JsonValue

  /** `Literal["positive", "negative"]`. */
  datatype TrendDirection = Positive | Negative

  /** One reading of a series; the timestamp is never negative. */
  datatype MetricValue = MetricValue(value: real, timestamp: nat)

  /** `BaseMetricObject`: the fields shared by the heart-rate, temperature and
      SpO2 objects. */
  datatype BaseMetric = BaseMetric(
    dayStartTimestamp: int,
    title: string,
    unit: string,
    lastReading: real,
    values: seq<MetricValue>)

  /** `BaseMetricObjectWithTrend`: a `BaseMetricObject` plus trend information. */
  datatype TrendMetric = TrendMetric(
    base: BaseMetric,
    avg: real,
    subtitle: string,
    trendTitle: string,
    trendDirection: TrendDirection)

  /** `BaseMetricObjectSteps`: no title, unit or last reading. */
  datatype StepsMetric = StepsMetric(
    dayStartTimestamp: int,
    values: seq<MetricValue>,
    subtitle: string,
    total: real,
    avg: real,
    trendTitle: string,
    trendDirection: TrendDirection)

  /** `SimpleValueObject`. */
  datatype SimpleValue = SimpleValue(value: real, dayStartTimestamp: int)

  /** `IndexObject`. */
  datatype IndexValue = IndexValue(value: real, title: string, dayStartTimestamp: int)

  // Validation from JSON

  function ValidateTrendDirection(j: Json): (r: Check<TrendDirection>)
    ensures r.Success? <==> (j == JString("positive") || j == JString("negative"))
    ensures r == Success(Positive) <==> j == JString("positive")
  {
    if j == JString("positive") then Success(Positive)
    else if j == JString("negative") then Success(Negative)
    else Failure("trend_direction: Input should be 'positive' or 'negative'")
  }

  /** `MetricValue`: `value` is widened to a float, and `validate_timestamp`
      rejects a negative timestamp. */
  function ValidateMetricValue(j: Json): (r: Check<MetricValue>)
    ensures r.Success? <==>
      j.JObject? && NumAt(j.fields, "value") && IntAt(j.fields, "timestamp") && j.fields["timestamp"].i >= 0
    ensures r.Success? ==> r.value == MetricValue(RealOf(j.fields["value"]), j.fields["timestamp"].i)
  {
    var f :- AsObject(j);
    var value :- FloatField(f, "value");
    var timestamp :- IntField(f, "timestamp");
    if timestamp < 0 then Failure("timestamp: Value error, Timestamp must be non-negative")
    else Success(MetricValue(value, timestamp))
  }

  function ValidateBaseMetric(j: Json): (r: Check<BaseMetric>)
    ensures r.Success? <==>
      j.JObject? &&
      IntAt(j.fields, "day_start_timestamp") &&
      StrAt(j.fields, "title") &&
      StrAt(j.fields, "unit") &&
      NumAt(j.fields, "last_reading") &&
      "values" in j.fields && ListValue("values", j.fields["values"], ValidateMetricValue).Success?
    ensures r.Success? ==> r.value == BaseMetric(
      j.fields["day_start_timestamp"].i,
      j.fields["title"].s,
      j.fields["unit"].s,
      RealOf(j.fields["last_reading"]),
      ListValue("values", j.fields["values"], ValidateMetricValue).value)
  {
    var f :- AsObject(j);
    var dayStart :- IntField(f, "day_start_timestamp");
    var title :- StrField(f, "title");
    var unit :- StrField(f, "unit");
    var lastReading :- FloatField(f, "last_reading");
    var values :- ListField(f, "values", ValidateMetricValue);
    Success(BaseMetric(dayStart, title, unit, lastReading, values))
  }

  /** The subclass validates the inherited fields first, then its own. */
  function ValidateTrendMetric(j: Json): (r: Check<TrendMetric>)
    ensures r.Success? <==>
      ValidateBaseMetric(j).Success? &&
      NumAt(j.fields, "avg") &&
      StrAt(j.fields, "subtitle") &&
      StrAt(j.fields, "trend_title") &&
      "trend_direction" in j.fields && ValidateTrendDirection(j.fields["trend_direction"]).Success?
    ensures r.Success? ==> r.value == TrendMetric(
      ValidateBaseMetric(j).value,
      RealOf(j.fields["avg"]),
      j.fields["subtitle"].s,
      j.fields["trend_title"].s,
      ValidateTrendDirection(j.fields["trend_direction"]).value)
  {
    var f :- AsObject(j);
    var base :- ValidateBaseMetric(j);
    var avg :- FloatField(f, "avg");
    var subtitle :- StrField(f, "subtitle");
    var trendTitle :- StrField(f, "trend_title");
    var direction :- ModelField(f, "trend_direction", ValidateTrendDirection);
    Success(TrendMetric(base, avg, subtitle, trendTitle, direction))
  }

  function ValidateStepsMetric(j: Json): (r: Check<StepsMetric>)
    ensures r.Success? <==>
      j.JObject? &&
      IntAt(j.fields, "day_start_timestamp") &&
      "values" in j.fields && ListValue("values", j.fields["values"], ValidateMetricValue).Success? &&
      StrAt(j.fields, "subtitle") &&
      NumAt(j.fields, "total") &&
      NumAt(j.fields, "avg") &&
      StrAt(j.fields, "trend_title") &&
      "trend_direction" in j.fields && ValidateTrendDirection(j.fields["trend_direction"]).Success?
    ensures r.Success? ==> r.value == StepsMetric(
      j.fields["day_start_timestamp"].i,
      ListValue("values", j.fields["values"], ValidateMetricValue).value,
      j.fields["subtitle"].s,
      RealOf(j.fields["total"]),
      RealOf(j.fields["avg"]),
      j.fields["trend_title"].s,
      ValidateTrendDirection(j.fields["trend_direction"]).value)
  {
    var f :- AsObject(j);
    var dayStart :- IntField(f, "day_start_timestamp");
    var values :- ListField(f, "values", ValidateMetricValue);
    var subtitle :- StrField(f, "subtitle");
    var total :- FloatField(f, "total");
    var avg :- FloatField(f, "avg");
    var trendTitle :- StrField(f, "trend_title");
    var direction :- ModelField(f, "trend_direction", ValidateTrendDirection);
    Success(StepsMetric(dayStart, values, subtitle, total, avg, trendTitle, direction))
  }

  function ValidateSimpleValue(j: Json): (r: Check<SimpleValue>)
    ensures r.Success? <==>
      j.JObject? &&
      NumAt(j.fields, "value") &&
      IntAt(j.fields, "day_start_timestamp")
    ensures r.Success? ==> r.value == SimpleValue(
      RealOf(j.fields["value"]),
      j.fields["day_start_timestamp"].i)
  {
    var f :- AsObject(j);
    var value :- FloatField(f, "value");
    var dayStart :- IntField(f, "day_start_timestamp");
    Success(SimpleValue(value, dayStart))
  }

  function ValidateIndexValue(j: Json): (r: Check<IndexValue>)
    ensures r.Success? <==>
      j.JObject? &&
      NumAt(j.fields, "value") &&
      StrAt(j.fields, "title") &&
      IntAt(j.fields, "day_start_timestamp")
    ensures r.Success? ==> r.value == IndexValue(
      RealOf(j.fields["value"]),
      j.fields["title"].s,
      j.fields["day_start_timestamp"].i)
  {
    var f :- AsObject(j);
    var value :- FloatField(f, "value");
    var title :- StrField(f, "title");
    var dayStart :- IntField(f, "day_start_timestamp");
    Success(IndexValue(value, title, dayStart))
  }

  // Encoding to JSON (the dict a validated record dumps to)

  function EncodeTrendDirection(d: TrendDirection): Json {
    match d
    case Positive => JString("positive")
    case Negative => JString("negative")
  }

  function EncodeMetricValue(m: MetricValue): Json {
    JObject(map["value" := JFloat(m.value), "timestamp" := JInt(m.timestamp)])
  }

  function BaseMetricFields(b: BaseMetric): Fields {
    map[
      "day_start_timestamp" := JInt(b.dayStartTimestamp),
      "title" := JString(b.title),
      "unit" := JString(b.unit),
      "last_reading" := JFloat(b.lastReading),
      "values" := JArray(EncodeList(b.values, EncodeMetricValue))]
  }

  function EncodeBaseMetric(b: BaseMetric): Json {
    JObject(BaseMetricFields(b))
  }

  /** The dict of a trend object, from the JSON of each of its fields. */
  function TrendFields(
    dayStart: Json, title: Json, unit: Json, lastReading: Json, values: Json,
    avg: Json, subtitle: Json, trendTitle: Json, direction: Json): (r: Fields)
    ensures "day_start_timestamp" in r && r["day_start_timestamp"] == dayStart
    ensures "title" in r && r["title"] == title
    ensures "unit" in r && r["unit"] == unit
    ensures "last_reading" in r && r["last_reading"] == lastReading
    ensures "values" in r && r["values"] == values
    ensures "avg" in r && r["avg"] == avg
    ensures "subtitle" in r && r["subtitle"] == subtitle
    ensures "trend_title" in r && r["trend_title"] == trendTitle
    ensures "trend_direction" in r && r["trend_direction"] == direction
  {
    map[
      "day_start_timestamp" := dayStart,
      "title" := title,
      "unit" := unit,
      "last_reading" := lastReading,
      "values" := values,
      "avg" := avg,
      "subtitle" := subtitle,
      "trend_title" := trendTitle,
      "trend_direction" := direction]
  }

  function EncodeTrendMetric(t: TrendMetric): Json {
    JObject(TrendFields(
      JInt(t.base.dayStartTimestamp),
      JString(t.base.title),
      JString(t.base.unit),
      JFloat(t.base.lastReading),
      JArray(EncodeList(t.base.values, EncodeMetricValue)),
      JFloat(t.avg),
      JString(t.subtitle),
      JString(t.trendTitle),
      EncodeTrendDirection(t.trendDirection)))
  }

  /** The dict of a steps object, from the JSON of each of its fields. */
  function StepsFields(
    dayStart: Json, values: Json, subtitle: Json, total: Json, avg: Json,
    trendTitle: Json, direction: Json): (r: Fields)
    ensures "day_start_timestamp" in r && r["day_start_timestamp"] == dayStart
    ensures "values" in r && r["values"] == values
    ensures "subtitle" in r && r["subtitle"] == subtitle
    ensures "total" in r && r["total"] == total
    ensures "avg" in r && r["avg"] == avg
    ensures "trend_title" in r && r["trend_title"] == trendTitle
    ensures "trend_direction" in r && r["trend_direction"] == direction
  {
    map[
      "day_start_timestamp" := dayStart,
      "values" := values,
      "subtitle" := subtitle,
      "total" := total,
      "avg" := avg,
      "trend_title" := trendTitle,
      "trend_direction" := direction]
  }

  function EncodeStepsMetric(s: StepsMetric): Json {
    JObject(StepsFields(
      JInt(s.dayStartTimestamp),
      JArray(EncodeList(s.values, EncodeMetricValue)),
      JString(s.subtitle),
      JFloat(s.total),
      JFloat(s.avg),
      JString(s.trendTitle),
      EncodeTrendDirection(s.trendDirection)))
  }

  function EncodeSimpleValue(v: SimpleValue): Json {
    JObject(map["value" := JFloat(v.value), "day_start_timestamp" := JInt(v.dayStartTimestamp)])
  }

  function EncodeIndexValue(v: IndexValue): Json {
    JObject(map[
      "value" := JFloat(v.value),
      "title" := JString(v.title),
      "day_start_timestamp" := JInt(v.dayStartTimestamp)])
  }

  // Properties

  /** `validate_timestamp`: a reading with a negative timestamp is rejected,
      whatever else the object holds. */
  lemma NegativeTimestampRejected(f: Fields)
    requires "timestamp" in f && f["timestamp"].JInt? && f["timestamp"].i < 0
    ensures ValidateMetricValue(JObject(f)).Failure?
  {
  }

  /** A reading with a numeric value and a timestamp t >= 0 is accepted with
      that timestamp unchanged and the value as the equal float: 72 becomes
      72.0. Extra keys are ignored. */
  lemma ReadingAccepted(f: Fields, t: int)
    requires "value" in f && (f["value"].JInt? || f["value"].JFloat?)
    requires "timestamp" in f && f["timestamp"] == JInt(t) && t >= 0
    ensures ValidateMetricValue(JObject(f)) ==
      Success(MetricValue(if f["value"].JInt? then f["value"].i as real else f["value"].r, t))
  {
  }

  lemma MetricValueRoundTrip(m: MetricValue)
    ensures ValidateMetricValue(EncodeMetricValue(m)) == Success(m)
  {
  }

  lemma MetricValuesRoundTrip(vs: seq<MetricValue>)
    ensures ListOf(EncodeList(vs, EncodeMetricValue), ValidateMetricValue) == Success(vs)
  {
    forall i | 0 <= i < |vs| ensures ValidateMetricValue(EncodeMetricValue(vs[i])) == Success(vs[i]) {
      MetricValueRoundTrip(vs[i]);
    }
    ListRoundTrip(vs, EncodeMetricValue, ValidateMetricValue);
  }

  /** Every field a `BaseMetricObject` validates from is one it was written as. */
  lemma BaseMetricRoundTrip(b: BaseMetric)
    ensures ValidateBaseMetric(EncodeBaseMetric(b)) == Success(b)
  {
    MetricValuesRoundTrip(b.values);
  }

  /** The inherited fields of a trend object validate on their own, whatever
      other keys the object holds. */
  lemma BaseMetricFromFields(g: Fields, b: BaseMetric)
    requires "day_start_timestamp" in g && g["day_start_timestamp"] == JInt(b.dayStartTimestamp)
    requires "title" in g && g["title"] == JString(b.title)
    requires "unit" in g && g["unit"] == JString(b.unit)
    requires "last_reading" in g && g["last_reading"] == JFloat(b.lastReading)
    requires "values" in g && g["values"] == JArray(EncodeList(b.values, EncodeMetricValue))
    ensures ValidateBaseMetric(JObject(g)) == Success(b)
  {
    MetricValuesRoundTrip(b.values);
  }

  /** A trend object whose other fields are as `t` writes them validates
      exactly when its `trend_direction` does, and then to `t` with that
      direction. */
  lemma TrendMetricFromFields(g: Fields, t: TrendMetric)
    requires "day_start_timestamp" in g && g["day_start_timestamp"] == JInt(t.base.dayStartTimestamp)
    requires "title" in g && g["title"] == JString(t.base.title)
    requires "unit" in g && g["unit"] == JString(t.base.unit)
    requires "last_reading" in g && g["last_reading"] == JFloat(t.base.lastReading)
    requires "values" in g && g["values"] == JArray(EncodeList(t.base.values, EncodeMetricValue))
    requires "avg" in g && g["avg"] == JFloat(t.avg)
    requires "subtitle" in g && g["subtitle"] == JString(t.subtitle)
    requires "trend_title" in g && g["trend_title"] == JString(t.trendTitle)
    requires "trend_direction" in g
    ensures var d := ValidateTrendDirection(g["trend_direction"]);
      ValidateTrendMetric(JObject(g)) ==
        if d.Success? then Success(t.(trendDirection := d.value)) else Failure(d.error)
  {
    BaseMetricFromFields(g, t.base);
  }

  lemma TrendMetricRoundTrip(t: TrendMetric)
    ensures ValidateTrendMetric(EncodeTrendMetric(t)) == Success(t)
  {
    var g := EncodeTrendMetric(t).fields;
    assert ValidateTrendDirection(g["trend_direction"]) == Success(t.trendDirection);
    TrendMetricFromFields(g, t);
  }

  /** A steps object whose other fields are as `s` writes them validates
      exactly when its `trend_direction` does, and then to `s` with that
      direction. */
  lemma StepsMetricFromFields(g: Fields, s: StepsMetric)
    requires "day_start_timestamp" in g && g["day_start_timestamp"] == JInt(s.dayStartTimestamp)
    requires "values" in g && g["values"] == JArray(EncodeList(s.values, EncodeMetricValue))
    requires "subtitle" in g && g["subtitle"] == JString(s.subtitle)
    requires "total" in g && g["total"] == JFloat(s.total)
    requires "avg" in g && g["avg"] == JFloat(s.avg)
    requires "trend_title" in g && g["trend_title"] == JString(s.trendTitle)
    requires "trend_direction" in g
    ensures var d := ValidateTrendDirection(g["trend_direction"]);
      ValidateStepsMetric(JObject(g)) ==
        if d.Success? then Success(s.(trendDirection := d.value)) else Failure(d.error)
  {
    MetricValuesRoundTrip(s.values);
  }

  lemma StepsMetricRoundTrip(s: StepsMetric)
    ensures ValidateStepsMetric(EncodeStepsMetric(s)) == Success(s)
  {
    var g := EncodeStepsMetric(s).fields;
    assert ValidateTrendDirection(g["trend_direction"]) == Success(s.trendDirection);
    StepsMetricFromFields(g, s);
  }

  lemma SimpleValueRoundTrip(v: SimpleValue)
    ensures ValidateSimpleValue(EncodeSimpleValue(v)) == Success(v)
  {
  }

  lemma IndexValueRoundTrip(v: IndexValue)
    ensures ValidateIndexValue(EncodeIndexValue(v)) == Success(v)
  {
  }

  /** `trend_direction` decides the trend object: with every other field as a
      valid object writes it, the object validates exactly when the direction
      is "positive" or "negative". */
  lemma TrendDirectionDecides(t: TrendMetric, direction: Json)
    ensures ValidateTrendMetric(JObject(EncodeTrendMetric(t).fields["trend_direction" := direction])).Success?
        <==> (direction == JString("positive") || direction == JString("negative"))
  {
    TrendMetricFromFields(EncodeTrendMetric(t).fields["trend_direction" := direction], t);
  }

  /** The same rule for the steps object. */
  lemma StepsTrendDirectionDecides(s: StepsMetric, direction: Json)
    ensures ValidateStepsMetric(JObject(EncodeStepsMetric(s).fields["trend_direction" := direction])).Success?
        <==> (direction == JString("positive") || direction == JString("negative"))
  {
    StepsMetricFromFields(EncodeStepsMetric(s).fields["trend_direction" := direction], s);
  }
}
