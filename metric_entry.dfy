/** `MetricEntry` and its after-validator `validate_metric_data`: a fixed
    table maps each known type tag to one metric model; an entry whose tag is
    known and whose payload validates against that model gets the typed
    record, and every other entry keeps its payload exactly as given. */
module MetricEntries {
  import opened Wrappers
  import opened JsonValue
  import opened MetricModels
  import opened SleepModels
  import SleepRoundTrip

  /** The nine model classes of the `MetricObject` union. */
  datatype ModelClass =
    | HeartRateClass | TemperatureClass | SPO2Class | HRVClass | StepsClass
    | NightRHRClass | SimpleValueClass | IndexClass | SleepClass

  /** An instance of one of the nine model classes. */
  datatype MetricObject =
    | HeartRate(heartRate: BaseMetric)
    | Temperature(temperature: BaseMetric)
    | SPO2(spo2: BaseMetric)
    | HRV(hrv: TrendMetric)
    | Steps(steps: StepsMetric)
    | NightRHR(nightRhr: TrendMetric)
    | Simple(simple: SimpleValue)
    | Index(index: IndexValue)
    | Sleep(sleep: SleepObject)

  /** `metric_data`: a typed record, or the payload as it came (any JSON,
      `null` included). */
  datatype Payload = Typed(obj: MetricObject) | Raw(json: Json)

  datatype MetricEntry = MetricEntry(tag: string, metricData: Payload)

  /** `type(metric_data)` for a typed record. */
  function ClassOf(o: MetricObject): ModelClass {
    match o
    case HeartRate(_) => HeartRateClass
    case Temperature(_) => TemperatureClass
    case SPO2(_) => SPO2Class
    case HRV(_) => HRVClass
    case Steps(_) => StepsClass
    case NightRHR(_) => NightRHRClass
    case Simple(_) => SimpleValueClass
    case Index(_) => IndexClass
    case Sleep(_) => SleepClass
  }

  /** The tag-to-model table of `validate_metric_data`. */
  const TypeMapping: map<string, ModelClass> := map[
    "hr" := HeartRateClass,
    "temp" := TemperatureClass,
    "spo2" := SPO2Class,
    "hrv" := HRVClass,
    "steps" := StepsClass,
    "night_rhr" := NightRHRClass,
    "avg_sleep_hrv" := SimpleValueClass,
    "sleep_rhr" := SimpleValueClass,
    "recovery_index" := IndexClass,
    "movement_index" := IndexClass,
    "active_minutes" := IndexClass,
    "vo2_max" := IndexClass,
    "sleep" := SleepClass]

  /** `model_class.model_validate(data)` for data that came as JSON: the
      validator of the class, applied to the data. */
  function ValidateAs(c: ModelClass, j: Json): (r: Check<MetricObject>)
    ensures r.Success? ==> ClassOf(r.value) == c
  {
    ValidatorKeepsClass(c, j);
    Validator(c)(j)
  }

  /** Each model class's own validator (`model_class.model_validate`);
      `ValidatorKeepsClass` and `ValidatorCases` state what it is. */
  function Validator(c: ModelClass): Json -> Check<MetricObject> {
    match c
    case HeartRateClass => AsHeartRate
    case TemperatureClass => AsTemperature
    case SPO2Class => AsSPO2
    case HRVClass => AsHRV
    case StepsClass => AsSteps
    case NightRHRClass => AsNightRHR
    case SimpleValueClass => AsSimple
    case IndexClass => AsIndex
    case SleepClass => AsSleep
  }

  /** Whatever a class's validator accepts is a record of that class. */
  lemma ValidatorKeepsClass(c: ModelClass, j: Json)
    ensures Validator(c)(j).Success? ==> ClassOf(Validator(c)(j).value) == c
  {
    var r := Validator(c)(j);
    ValidatorCases(c, j);
    match c
    case HeartRateClass => assert r.Success? ==> r.value.HeartRate?;
    case TemperatureClass => assert r.Success? ==> r.value.Temperature?;
    case SPO2Class => assert r.Success? ==> r.value.SPO2?;
    case HRVClass => assert r.Success? ==> r.value.HRV?;
    case StepsClass => assert r.Success? ==> r.value.Steps?;
    case NightRHRClass => assert r.Success? ==> r.value.NightRHR?;
    case SimpleValueClass => assert r.Success? ==> r.value.Simple?;
    case IndexClass => assert r.Success? ==> r.value.Index?;
    case SleepClass => assert r.Success? ==> r.value.Sleep?;
  }

  /** The validator each class stands for. */
  lemma ValidatorCases(c: ModelClass, j: Json)
    ensures match c
      case HeartRateClass => Validator(c)(j) == AsHeartRate(j)
      case TemperatureClass => Validator(c)(j) == AsTemperature(j)
      case SPO2Class => Validator(c)(j) == AsSPO2(j)
      case HRVClass => Validator(c)(j) == AsHRV(j)
      case StepsClass => Validator(c)(j) == AsSteps(j)
      case NightRHRClass => Validator(c)(j) == AsNightRHR(j)
      case SimpleValueClass => Validator(c)(j) == AsSimple(j)
      case IndexClass => Validator(c)(j) == AsIndex(j)
      case SleepClass => Validator(c)(j) == AsSleep(j)
  {
  }

  function AsHeartRate(j: Json): (r: Check<MetricObject>)
    ensures r.Success? ==> r.value.HeartRate?
  {
    var b :- ValidateBaseMetric(j);
    Success(HeartRate(b))
  }

  function AsTemperature(j: Json): (r: Check<MetricObject>)
    ensures r.Success? ==> r.value.Temperature?
  {
    var b :- ValidateBaseMetric(j);
    Success(Temperature(b))
  }

  function AsSPO2(j: Json): (r: Check<MetricObject>)
    ensures r.Success? ==> r.value.SPO2?
  {
    var b :- ValidateBaseMetric(j);
    Success(SPO2(b))
  }

  function AsHRV(j: Json): (r: Check<MetricObject>)
    ensures r.Success? ==> r.value.HRV?
  {
    var t :- ValidateTrendMetric(j);
    Success(HRV(t))
  }

  function AsNightRHR(j: Json): (r: Check<MetricObject>)
    ensures r.Success? ==> r.value.NightRHR?
  {
    var t :- ValidateTrendMetric(j);
    Success(NightRHR(t))
  }

  function AsSteps(j: Json): (r: Check<MetricObject>)
    ensures r.Success? ==> r.value.Steps?
  {
    var s :- ValidateStepsMetric(j);
    Success(Steps(s))
  }

  function AsSimple(j: Json): (r: Check<MetricObject>)
    ensures r.Success? ==> r.value.Simple?
  {
    var v :- ValidateSimpleValue(j);
    Success(Simple(v))
  }

  function AsIndex(j: Json): (r: Check<MetricObject>)
    ensures r.Success? ==> r.value.Index?
  {
    var v :- ValidateIndexValue(j);
    Success(Index(v))
  }

  function AsSleep(j: Json): (r: Check<MetricObject>)
    ensures r.Success? ==> r.value.Sleep?
  {
    var s :- ValidateSleepObject(j);
    Success(Sleep(s))
  }

  /** Validation of a payload against a model class: an instance of the class
      is taken as it is (the `isinstance` check), an instance of another model
      class is rejected, and JSON is validated field by field. */
  function ValidatePayload(c: ModelClass, p: Payload): (r: Check<MetricObject>)
    ensures r.Success? ==> ClassOf(r.value) == c
    ensures p.Typed? ==> (r.Success? <==> ClassOf(p.obj) == c)
    ensures p.Typed? && r.Success? ==> r.value == p.obj
  {
    match p
    case Typed(o) =>
      if ClassOf(o) == c then Success(o)
      else Failure("Input should be a valid dictionary or instance of the model")
    case Raw(j) => ValidateAs(c, j)
  }

  /** `validate_metric_data`: the new `metric_data` for an entry with this
      tag. A typed record is always one of the tag's model class; anything
      else is the payload unchanged. */
  function Dispatch(tag: string, p: Payload): (r: Payload)
    ensures r != p ==> p.Raw? && r.Typed? && tag in TypeMapping && ClassOf(r.obj) == TypeMapping[tag]
    ensures p.Typed? || tag !in TypeMapping || p == Raw(JNull) ==> r == p
  {
    if tag in TypeMapping && p != Raw(JNull) then
      match ValidatePayload(TypeMapping[tag], p)
      case Success(o) => Typed(o)
      case Failure(_) => p  // validation failed: the original payload is kept
    else p
  }

  /** A `MetricEntry` validated from JSON: `type` must be a string and
      `object` must be present (any value, `null` included); the payload then
      goes through `Dispatch`. */
  function ValidateEntry(j: Json): (r: Check<MetricEntry>)
    ensures r.Success? <==>
      j.JObject? && "type" in j.fields && j.fields["type"].JString? && "object" in j.fields
    ensures r.Success? ==> r.value.tag == j.fields["type"].s
    ensures r.Success? ==> r.value.metricData == Dispatch(r.value.tag, Raw(j.fields["object"]))
  {
    var f :- AsObject(j);
    var tag :- StrField(f, "type");
    var payload :- Required(f, "object");
    Success(MetricEntry(tag, Dispatch(tag, Raw(payload))))
  }

  // Encoding

  function EncodeObject(o: MetricObject): (j: Json)
    ensures j.JObject?
  {
    match o
    case HeartRate(b) => EncodeBaseMetric(b)
    case Temperature(b) => EncodeBaseMetric(b)
    case SPO2(b) => EncodeBaseMetric(b)
    case HRV(t) => EncodeTrendMetric(t)
    case Steps(s) => EncodeStepsMetric(s)
    case NightRHR(t) => EncodeTrendMetric(t)
    case Simple(v) => EncodeSimpleValue(v)
    case Index(v) => EncodeIndexValue(v)
    case Sleep(s) => EncodeSleepObject(s)
  }

  function EncodePayload(p: Payload): Json {
    match p
    case Typed(o) => EncodeObject(o)
    case Raw(j) => j
  }

  function EncodeEntry(e: MetricEntry): Json {
    JObject(map["type" := JString(e.tag), "object" := EncodePayload(e.metricData)])
  }

  // Properties

  /** Every typed record validates back from the JSON it is written as, under
      its own model class. */
  lemma ObjectRoundTrip(o: MetricObject)
    ensures ValidateAs(ClassOf(o), EncodeObject(o)) == Success(o)
  {
    match o
    case HeartRate(b) => HeartRateClassRoundTrip(b);
    case Temperature(b) => TemperatureClassRoundTrip(b);
    case SPO2(b) => SPO2ClassRoundTrip(b);
    case HRV(t) => HRVClassRoundTrip(t);
    case Steps(s) => StepsClassRoundTrip(s);
    case NightRHR(t) => NightRHRClassRoundTrip(t);
    case Simple(v) => SimpleClassRoundTrip(v);
    case Index(v) => IndexClassRoundTrip(v);
    case Sleep(s) => SleepClassRoundTrip(s);
  }

  /** The class and the JSON of each kind of record. */
  lemma ObjectCases(o: MetricObject)
    ensures match o
      case HeartRate(b) => ClassOf(o) == HeartRateClass && EncodeObject(o) == EncodeBaseMetric(b)
      case Temperature(b) => ClassOf(o) == TemperatureClass && EncodeObject(o) == EncodeBaseMetric(b)
      case SPO2(b) => ClassOf(o) == SPO2Class && EncodeObject(o) == EncodeBaseMetric(b)
      case HRV(t) => ClassOf(o) == HRVClass && EncodeObject(o) == EncodeTrendMetric(t)
      case Steps(s) => ClassOf(o) == StepsClass && EncodeObject(o) == EncodeStepsMetric(s)
      case NightRHR(t) => ClassOf(o) == NightRHRClass && EncodeObject(o) == EncodeTrendMetric(t)
      case Simple(v) => ClassOf(o) == SimpleValueClass && EncodeObject(o) == EncodeSimpleValue(v)
      case Index(v) => ClassOf(o) == IndexClass && EncodeObject(o) == EncodeIndexValue(v)
      case Sleep(s) => ClassOf(o) == SleepClass && EncodeObject(o) == EncodeSleepObject(s)
  {
  }

  // One lemma per model class keeps each proof to that class's validator.

  lemma HeartRateClassRoundTrip(b: BaseMetric)
    ensures ValidateAs(ClassOf(HeartRate(b)), EncodeObject(HeartRate(b))) == Success(HeartRate(b))
  {
    BaseMetricRoundTrip(b);
    ValidatorCases(HeartRateClass, EncodeBaseMetric(b));
    ObjectCases(HeartRate(b));
  }

  lemma TemperatureClassRoundTrip(b: BaseMetric)
    ensures ValidateAs(ClassOf(Temperature(b)), EncodeObject(Temperature(b))) == Success(Temperature(b))
  {
    BaseMetricRoundTrip(b);
    ValidatorCases(TemperatureClass, EncodeBaseMetric(b));
    ObjectCases(Temperature(b));
  }

  lemma SPO2ClassRoundTrip(b: BaseMetric)
    ensures ValidateAs(ClassOf(SPO2(b)), EncodeObject(SPO2(b))) == Success(SPO2(b))
  {
    BaseMetricRoundTrip(b);
    ValidatorCases(SPO2Class, EncodeBaseMetric(b));
    ObjectCases(SPO2(b));
  }

  lemma HRVClassRoundTrip(t: TrendMetric)
    ensures ValidateAs(ClassOf(HRV(t)), EncodeObject(HRV(t))) == Success(HRV(t))
  {
    TrendMetricRoundTrip(t);
    ValidatorCases(HRVClass, EncodeTrendMetric(t));
    ObjectCases(HRV(t));
  }

  lemma StepsClassRoundTrip(s: StepsMetric)
    ensures ValidateAs(ClassOf(Steps(s)), EncodeObject(Steps(s))) == Success(Steps(s))
  {
    StepsMetricRoundTrip(s);
    ValidatorCases(StepsClass, EncodeStepsMetric(s));
    ObjectCases(Steps(s));
  }

  lemma NightRHRClassRoundTrip(t: TrendMetric)
    ensures ValidateAs(ClassOf(NightRHR(t)), EncodeObject(NightRHR(t))) == Success(NightRHR(t))
  {
    TrendMetricRoundTrip(t);
    ValidatorCases(NightRHRClass, EncodeTrendMetric(t));
    ObjectCases(NightRHR(t));
  }

  lemma SimpleClassRoundTrip(v: SimpleValue)
    ensures ValidateAs(ClassOf(Simple(v)), EncodeObject(Simple(v))) == Success(Simple(v))
  {
    SimpleValueRoundTrip(v);
    ValidatorCases(SimpleValueClass, EncodeSimpleValue(v));
    ObjectCases(Simple(v));
  }

  lemma IndexClassRoundTrip(v: IndexValue)
    ensures ValidateAs(ClassOf(Index(v)), EncodeObject(Index(v))) == Success(Index(v))
  {
    IndexValueRoundTrip(v);
    ValidatorCases(IndexClass, EncodeIndexValue(v));
    ObjectCases(Index(v));
  }

  lemma SleepClassRoundTrip(s: SleepObject)
    ensures ValidateAs(ClassOf(Sleep(s)), EncodeObject(Sleep(s))) == Success(Sleep(s))
  {
    SleepRoundTrip.SleepObjectRoundTrip(s);
    ValidatorCases(SleepClass, EncodeSleepObject(s));
    ObjectCases(Sleep(s));
  }

  /** For a known tag and a JSON payload other than `null`, the entry becomes
      the typed record exactly when the payload validates against the tag's
      model; otherwise the payload is kept. */
  lemma DispatchKnownTag(tag: string, j: Json)
    requires tag in TypeMapping && j != JNull
    ensures ValidateAs(TypeMapping[tag], j).Success? ==>
      Dispatch(tag, Raw(j)) == Typed(ValidateAs(TypeMapping[tag], j).value)
    ensures ValidateAs(TypeMapping[tag], j).Failure? ==> Dispatch(tag, Raw(j)) == Raw(j)
  {
  }

  /** For each known tag, a well-formed payload of the tag's model (the JSON
      of any record of that class) becomes exactly that record. */
  lemma DispatchWellFormed(tag: string, o: MetricObject)
    requires tag in TypeMapping && ClassOf(o) == TypeMapping[tag]
    ensures Dispatch(tag, Raw(EncodeObject(o))) == Typed(o)
  {
    ObjectRoundTrip(o);
  }

  /** The table sends "hr", "steps" and "recovery_index" payloads to the
      heart-rate, steps and index models, and so on for all thirteen tags;
      the table holds these thirteen tags and no other, so any other tag
      (such as "glucose") has no model. */
  lemma TypeMappingEntries()
    ensures TypeMapping["hr"] == HeartRateClass && TypeMapping["temp"] == TemperatureClass
    ensures TypeMapping["spo2"] == SPO2Class && TypeMapping["hrv"] == HRVClass
    ensures TypeMapping["steps"] == StepsClass && TypeMapping["night_rhr"] == NightRHRClass
    ensures TypeMapping["avg_sleep_hrv"] == SimpleValueClass && TypeMapping["sleep_rhr"] == SimpleValueClass
    ensures TypeMapping["recovery_index"] == IndexClass && TypeMapping["movement_index"] == IndexClass
    ensures TypeMapping["active_minutes"] == IndexClass && TypeMapping["vo2_max"] == IndexClass
    ensures TypeMapping["sleep"] == SleepClass
    ensures TypeMapping.Keys == {
      "hr", "temp", "spo2", "hrv", "steps", "night_rhr", "avg_sleep_hrv", "sleep_rhr",
      "recovery_index", "movement_index", "active_minutes", "vo2_max", "sleep"}
    ensures "glucose" !in TypeMapping
  {
  }

  /** A typed record already of the tag's class is left untouched, and so is
      one of any other class. */
  lemma DispatchKeepsTyped(tag: string, o: MetricObject)
    ensures Dispatch(tag, Typed(o)) == Typed(o)
  {
  }

  /** Running the validator again changes nothing. */
  lemma DispatchIdempotent(tag: string, p: Payload)
    ensures Dispatch(tag, Dispatch(tag, p)) == Dispatch(tag, p)
  {
    var r := Dispatch(tag, p);
    if r.Typed? {
      DispatchKeepsTyped(tag, r.obj);
    }
  }

  /** An entry that reads back from its own JSON: a typed record is
      re-derived from its JSON, a raw payload stays raw. */
  predicate Stable(e: MetricEntry) {
    Dispatch(e.tag, Raw(EncodePayload(e.metricData))) == e.metricData
  }

  /** Every entry the validator produces is stable, so writing an entry out
      and validating it again reproduces it. */
  lemma ValidatedEntryStable(j: Json)
    requires ValidateEntry(j).Success?
    ensures Stable(ValidateEntry(j).value)
    ensures ValidateEntry(EncodeEntry(ValidateEntry(j).value)) == ValidateEntry(j)
  {
    var e := ValidateEntry(j).value;
    if e.metricData.Typed? {
      DispatchWellFormed(e.tag, e.metricData.obj);
    }
    EntryRoundTrip(e);
  }

  lemma EntryRoundTrip(e: MetricEntry)
    requires Stable(e)
    ensures ValidateEntry(EncodeEntry(e)) == Success(e)
  {
  }
}
