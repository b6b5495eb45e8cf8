/** The sleep metric object (`SleepObject`) and its sub-records: quick
    metrics, the stage breakdown, the three graphs and the named
    sub-metrics. Every sub-record is validated field by field; the only
    rules beyond "present with the right kind" are the two enumerations. */
module SleepModels {
  import opened Wrappers
  import opened JsonValue

  /** `Literal["deep_sleep", "light_sleep", "rem_sleep", "awake"]`. */
  datatype StageType = DeepSleepStage | LightSleepStage | RemSleepStage | AwakeStage

  /** `Literal["light", "medium", "vigorous"]`. */
  datatype MovementType = LightMovement | MediumMovement | VigorousMovement

  datatype TrackingParam = TrackingParam(keyName: string, value: string)

  datatype QuickMetric = QuickMetric(
    title: string,
    displayText: string,
    unit: Option<string>,
    value: Number,
    deeplink: Option<string>,
    kind: string,
    educationModalDeeplink: Option<string>,
    trackingParams: Option<seq<TrackingParam>>,
    displayTextMarkedUp: Option<string>)

  datatype QuickMetricTiled = QuickMetricTiled(
    title: string,
    value: string,
    tag: string,
    tagColor: string,
    deeplink: string,
    trendsUnit: string,
    trendsValue: Number,
    kind: string)

  datatype SleepStage = SleepStage(
    title: string, kind: StageType, percentage: int, stageTimeText: string, stageTime: int)

  datatype SleepGraphEntry = SleepGraphEntry(start: int, end: int, kind: StageType, tossTurn: Option<int>)

  datatype MovementGraphEntry = MovementGraphEntry(timestamp: int, kind: MovementType)

  datatype HRGraphEntry = HRGraphEntry(value: real, timestamp: int)

  datatype MarkPoint = MarkPoint(markType: string, markColor: string, markPoint: int)

  datatype Badge = Badge(text: string, kind: string)

  datatype SleepScore = SleepScore(score: int)

  datatype TotalSleep = TotalSleep(minutes: int, hours: int, remainingMinutes: int, seconds: int, badge: Badge)

  datatype SleepEfficiency = SleepEfficiency(percentage: int, contributor: int)

  datatype TimeInBed = TimeInBed(minutes: int, hours: int, remainingMinutes: int, badge: Badge)

  datatype REMSleep = REMSleep(
    minutes: int, seconds: int, percentage: real, hours: int, remainingMinutes: int, contributor: real)

  datatype DeepSleep = DeepSleep(minutes: int, seconds: int, hours: int, remainingMinutes: int, contributor: real)

  datatype LightSleep = LightSleep(minutes: int, seconds: int, percentage: int, hours: int, remainingMinutes: int)

  datatype TemperatureDeviation = TemperatureDeviation(celsius: real, contributor: int)

  datatype RestorativeSleep = RestorativeSleep(percentage: int, badge: Badge)

  datatype Movements = Movements(count: int)

  datatype MorningAlertness = MorningAlertness(minutes: int)

  datatype FullSleepCycles = FullSleepCycles(cycles: int)

  datatype TossesAndTurns = TossesAndTurns(count: int)

  datatype AverageBodyTemperature = AverageBodyTemperature(celsius: real, contributor: int)

  datatype SleepGraph = SleepGraph(title: string, data: seq<SleepGraphEntry>, educationModalDeeplink: Option<string>)

  datatype MovementGraph = MovementGraph(title: string, data: seq<MovementGraphEntry>)

  datatype HRGraph = HRGraph(title: string, data: seq<HRGraphEntry>, marks: Option<seq<MarkPoint>>)

  datatype SleepHRDrop = SleepHRDrop(timestamp: Option<int>, value: Option<real>)

  datatype SleepObject = SleepObject(
    bedtimeStart: int,
    bedtimeEnd: int,
    quickMetrics: seq<QuickMetric>,
    quickMetricsTiled: seq<QuickMetricTiled>,
    sleepStages: seq<SleepStage>,
    sleepGraph: SleepGraph,
    movementGraph: MovementGraph,
    hrGraph: HRGraph,
    sleepScore: SleepScore,
    totalSleep: TotalSleep,
    sleepEfficiency: SleepEfficiency,
    timeInBed: TimeInBed,
    remSleep: REMSleep,
    deepSleep: DeepSleep,
    lightSleep: LightSleep,
    temperatureDeviation: TemperatureDeviation,
    hrDrop: Option<SleepHRDrop>,
    restorativeSleep: RestorativeSleep,
    movements: Movements,
    morningAlertness: MorningAlertness,
    fullSleepCycles: FullSleepCycles,
    tossesAndTurns: TossesAndTurns,
    averageBodyTemperature: AverageBodyTemperature)

  // Validation from JSON

  function ValidateStageType(j: Json): (r: Check<StageType>)
    ensures r.Success? <==>
      j in {JString("deep_sleep"), JString("light_sleep"), JString("rem_sleep"), JString("awake")}
  {
    if j == JString("deep_sleep") then Success(DeepSleepStage)
    else if j == JString("light_sleep") then Success(LightSleepStage)
    else if j == JString("rem_sleep") then Success(RemSleepStage)
    else if j == JString("awake") then Success(AwakeStage)
    else Failure("type: Input should be 'deep_sleep', 'light_sleep', 'rem_sleep' or 'awake'")
  }

  function ValidateMovementType(j: Json): (r: Check<MovementType>)
    ensures r.Success? <==> j in {JString("light"), JString("medium"), JString("vigorous")}
  {
    if j == JString("light") then Success(LightMovement)
    else if j == JString("medium") then Success(MediumMovement)
    else if j == JString("vigorous") then Success(VigorousMovement)
    else Failure("type: Input should be 'light', 'medium' or 'vigorous'")
  }

  function OptStrField(f: Fields, key: string): Check<Option<string>> {
    OptionalField(f, key, (j: Json) => StrValue(key, j))
  }

  function OptIntField(f: Fields, key: string): Check<Option<int>> {
    OptionalField(f, key, (j: Json) => IntValue(key, j))
  }

  function OptFloatField(f: Fields, key: string): Check<Option<real>> {
    OptionalField(f, key, (j: Json) => FloatValue(key, j))
  }

  function ValidateTrackingParam(j: Json): (r: Check<TrackingParam>)
    ensures r.Success? <==>
      j.JObject? &&
      StrAt(j.fields, "key_name") &&
      StrAt(j.fields, "value")
    ensures r.Success? ==> r.value == TrackingParam(
      j.fields["key_name"].s,
      j.fields["value"].s)
  {
    var f :- AsObject(j);
    var keyName :- StrField(f, "key_name");
    var value :- StrField(f, "value");
    Success(TrackingParam(keyName, value))
  }

  function TrackingParamsValue(j: Json): Check<seq<TrackingParam>> {
    ListValue("tracking_params", j, ValidateTrackingParam)
  }

  function ValidateQuickMetric(j: Json): (r: Check<QuickMetric>)
    ensures r.Success? <==>
      j.JObject? &&
      StrAt(j.fields, "title") &&
      StrAt(j.fields, "display_text") &&
      OptStrField(j.fields, "unit").Success? &&
      NumAt(j.fields, "value") &&
      OptStrField(j.fields, "deeplink").Success? &&
      StrAt(j.fields, "type") &&
      OptStrField(j.fields, "education_modal_deeplink").Success? &&
      OptionalField(j.fields, "tracking_params", TrackingParamsValue).Success? &&
      OptStrField(j.fields, "display_text_marked_up").Success?
    ensures r.Success? ==> r.value == QuickMetric(
      j.fields["title"].s,
      j.fields["display_text"].s,
      OptStrField(j.fields, "unit").value,
      NumberOf(j.fields["value"]),
      OptStrField(j.fields, "deeplink").value,
      j.fields["type"].s,
      OptStrField(j.fields, "education_modal_deeplink").value,
      OptionalField(j.fields, "tracking_params", TrackingParamsValue).value,
      OptStrField(j.fields, "display_text_marked_up").value)
  {
    var f :- AsObject(j);
    var title :- StrField(f, "title");
    var displayText :- StrField(f, "display_text");
    var unit :- OptStrField(f, "unit");
    var value :- NumberField(f, "value");
    var deeplink :- OptStrField(f, "deeplink");
    var kind :- StrField(f, "type");
    var education :- OptStrField(f, "education_modal_deeplink");
    var tracking :- OptionalField(f, "tracking_params", TrackingParamsValue);
    var markedUp :- OptStrField(f, "display_text_marked_up");
    Success(QuickMetric(title, displayText, unit, value, deeplink, kind, education, tracking, markedUp))
  }

  function ValidateQuickMetricTiled(j: Json): (r: Check<QuickMetricTiled>)
    ensures r.Success? <==>
      j.JObject? &&
      StrAt(j.fields, "title") &&
      StrAt(j.fields, "value") &&
      StrAt(j.fields, "tag") &&
      StrAt(j.fields, "tag_color") &&
      StrAt(j.fields, "deeplink") &&
      StrAt(j.fields, "trends_unit") &&
      NumAt(j.fields, "trends_value") &&
      StrAt(j.fields, "type")
    ensures r.Success? ==> r.value == QuickMetricTiled(
      j.fields["title"].s,
      j.fields["value"].s,
      j.fields["tag"].s,
      j.fields["tag_color"].s,
      j.fields["deeplink"].s,
      j.fields["trends_unit"].s,
      NumberOf(j.fields["trends_value"]),
      j.fields["type"].s)
  {
    var f :- AsObject(j);
    var title :- StrField(f, "title");
    var value :- StrField(f, "value");
    var tag :- StrField(f, "tag");
    var tagColor :- StrField(f, "tag_color");
    var deeplink :- StrField(f, "deeplink");
    var trendsUnit :- StrField(f, "trends_unit");
    var trendsValue :- NumberField(f, "trends_value");
    var kind :- StrField(f, "type");
    Success(QuickMetricTiled(title, value, tag, tagColor, deeplink, trendsUnit, trendsValue, kind))
  }

  function ValidateSleepStage(j: Json): (r: Check<SleepStage>)
    ensures r.Success? <==>
      j.JObject? &&
      StrAt(j.fields, "title") &&
      "type" in j.fields && ValidateStageType(j.fields["type"]).Success? &&
      IntAt(j.fields, "percentage") &&
      StrAt(j.fields, "stage_time_text") &&
      IntAt(j.fields, "stage_time")
    ensures r.Success? ==> r.value == SleepStage(
      j.fields["title"].s,
      ValidateStageType(j.fields["type"]).value,
      j.fields["percentage"].i,
      j.fields["stage_time_text"].s,
      j.fields["stage_time"].i)
  {
    var f :- AsObject(j);
    var title :- StrField(f, "title");
    var kind :- ModelField(f, "type", ValidateStageType);
    var percentage :- IntField(f, "percentage");
    var stageTimeText :- StrField(f, "stage_time_text");
    var stageTime :- IntField(f, "stage_time");
    Success(SleepStage(title, kind, percentage, stageTimeText, stageTime))
  }

  function ValidateSleepGraphEntry(j: Json): (r: Check<SleepGraphEntry>)
    ensures r.Success? <==>
      j.JObject? &&
      IntAt(j.fields, "start") &&
      IntAt(j.fields, "end") &&
      "type" in j.fields && ValidateStageType(j.fields["type"]).Success? &&
      OptIntField(j.fields, "toss_turn").Success?
    ensures r.Success? ==> r.value == SleepGraphEntry(
      j.fields["start"].i,
      j.fields["end"].i,
      ValidateStageType(j.fields["type"]).value,
      OptIntField(j.fields, "toss_turn").value)
  {
    var f :- AsObject(j);
    var start :- IntField(f, "start");
    var end :- IntField(f, "end");
    var kind :- ModelField(f, "type", ValidateStageType);
    var tossTurn :- OptIntField(f, "toss_turn");
    Success(SleepGraphEntry(start, end, kind, tossTurn))
  }

  function ValidateMovementGraphEntry(j: Json): (r: Check<MovementGraphEntry>)
    ensures r.Success? <==>
      j.JObject? &&
      IntAt(j.fields, "timestamp") &&
      "type" in j.fields && ValidateMovementType(j.fields["type"]).Success?
    ensures r.Success? ==> r.value == MovementGraphEntry(
      j.fields["timestamp"].i,
      ValidateMovementType(j.fields["type"]).value)
  {
    var f :- AsObject(j);
    var timestamp :- IntField(f, "timestamp");
    var kind :- ModelField(f, "type", ValidateMovementType);
    Success(MovementGraphEntry(timestamp, kind))
  }

  function ValidateHRGraphEntry(j: Json): (r: Check<HRGraphEntry>)
    ensures r.Success? <==>
      j.JObject? &&
      NumAt(j.fields, "value") &&
      IntAt(j.fields, "timestamp")
    ensures r.Success? ==> r.value == HRGraphEntry(
      RealOf(j.fields["value"]),
      j.fields["timestamp"].i)
  {
    var f :- AsObject(j);
    var value :- FloatField(f, "value");
    var timestamp :- IntField(f, "timestamp");
    Success(HRGraphEntry(value, timestamp))
  }

  function ValidateMarkPoint(j: Json): (r: Check<MarkPoint>)
    ensures r.Success? <==>
      j.JObject? &&
      StrAt(j.fields, "mark_type") &&
      StrAt(j.fields, "mark_color") &&
      IntAt(j.fields, "mark_point")
    ensures r.Success? ==> r.value == MarkPoint(
      j.fields["mark_type"].s,
      j.fields["mark_color"].s,
      j.fields["mark_point"].i)
  {
    var f :- AsObject(j);
    var markType :- StrField(f, "mark_type");
    var markColor :- StrField(f, "mark_color");
    var markPoint :- IntField(f, "mark_point");
    Success(MarkPoint(markType, markColor, markPoint))
  }

  function ValidateBadge(j: Json): (r: Check<Badge>)
    ensures r.Success? <==>
      j.JObject? &&
      StrAt(j.fields, "text") &&
      StrAt(j.fields, "type")
    ensures r.Success? ==> r.value == Badge(
      j.fields["text"].s,
      j.fields["type"].s)
  {
    var f :- AsObject(j);
    var text :- StrField(f, "text");
    var kind :- StrField(f, "type");
    Success(Badge(text, kind))
  }

  function ValidateSleepScore(j: Json): (r: Check<SleepScore>)
    ensures r.Success? <==>
      j.JObject? &&
      IntAt(j.fields, "score")
    ensures r.Success? ==> r.value == SleepScore(
      j.fields["score"].i)
  {
    var f :- AsObject(j);
    var score :- IntField(f, "score");
    Success(SleepScore(score))
  }

  function ValidateTotalSleep(j: Json): (r: Check<TotalSleep>)
    ensures r.Success? <==>
      j.JObject? &&
      IntAt(j.fields, "minutes") &&
      IntAt(j.fields, "hours") &&
      IntAt(j.fields, "remaining_minutes") &&
      IntAt(j.fields, "seconds") &&
      "badge" in j.fields && ValidateBadge(j.fields["badge"]).Success?
    ensures r.Success? ==> r.value == TotalSleep(
      j.fields["minutes"].i,
      j.fields["hours"].i,
      j.fields["remaining_minutes"].i,
      j.fields["seconds"].i,
      ValidateBadge(j.fields["badge"]).value)
  {
    var f :- AsObject(j);
    var minutes :- IntField(f, "minutes");
    var hours :- IntField(f, "hours");
    var remaining :- IntField(f, "remaining_minutes");
    var seconds :- IntField(f, "seconds");
    var badge :- ModelField(f, "badge", ValidateBadge);
    Success(TotalSleep(minutes, hours, remaining, seconds, badge))
  }

  function ValidateSleepEfficiency(j: Json): (r: Check<SleepEfficiency>)
    ensures r.Success? <==>
      j.JObject? &&
      IntAt(j.fields, "percentage") &&
      IntAt(j.fields, "contributor")
    ensures r.Success? ==> r.value == SleepEfficiency(
      j.fields["percentage"].i,
      j.fields["contributor"].i)
  {
    var f :- AsObject(j);
    var percentage :- IntField(f, "percentage");
    var contributor :- IntField(f, "contributor");
    Success(SleepEfficiency(percentage, contributor))
  }

  function ValidateTimeInBed(j: Json): (r: Check<TimeInBed>)
    ensures r.Success? <==>
      j.JObject? &&
      IntAt(j.fields, "minutes") &&
      IntAt(j.fields, "hours") &&
      IntAt(j.fields, "remaining_minutes") &&
      "badge" in j.fields && ValidateBadge(j.fields["badge"]).Success?
    ensures r.Success? ==> r.value == TimeInBed(
      j.fields["minutes"].i,
      j.fields["hours"].i,
      j.fields["remaining_minutes"].i,
      ValidateBadge(j.fields["badge"]).value)
  {
    var f :- AsObject(j);
    var minutes :- IntField(f, "minutes");
    var hours :- IntField(f, "hours");
    var remaining :- IntField(f, "remaining_minutes");
    var badge :- ModelField(f, "badge", ValidateBadge);
    Success(TimeInBed(minutes, hours, remaining, badge))
  }

  function ValidateREMSleep(j: Json): (r: Check<REMSleep>)
    ensures r.Success? <==>
      j.JObject? &&
      IntAt(j.fields, "minutes") &&
      IntAt(j.fields, "seconds") &&
      NumAt(j.fields, "percentage") &&
      IntAt(j.fields, "hours") &&
      IntAt(j.fields, "remaining_minutes") &&
      NumAt(j.fields, "contributor")
    ensures r.Success? ==> r.value == REMSleep(
      j.fields["minutes"].i,
      j.fields["seconds"].i,
      RealOf(j.fields["percentage"]),
      j.fields["hours"].i,
      j.fields["remaining_minutes"].i,
      RealOf(j.fields["contributor"]))
  {
    var f :- AsObject(j);
    var minutes :- IntField(f, "minutes");
    var seconds :- IntField(f, "seconds");
    var percentage :- FloatField(f, "percentage");
    var hours :- IntField(f, "hours");
    var remaining :- IntField(f, "remaining_minutes");
    var contributor :- FloatField(f, "contributor");
    Success(REMSleep(minutes, seconds, percentage, hours, remaining, contributor))
  }

  function ValidateDeepSleep(j: Json): (r: Check<DeepSleep>)
    ensures r.Success? <==>
      j.JObject? &&
      IntAt(j.fields, "minutes") &&
      IntAt(j.fields, "seconds") &&
      IntAt(j.fields, "hours") &&
      IntAt(j.fields, "remaining_minutes") &&
      NumAt(j.fields, "contributor")
    ensures r.Success? ==> r.value == DeepSleep(
      j.fields["minutes"].i,
      j.fields["seconds"].i,
      j.fields["hours"].i,
      j.fields["remaining_minutes"].i,
      RealOf(j.fields["contributor"]))
  {
    var f :- AsObject(j);
    var minutes :- IntField(f, "minutes");
    var seconds :- IntField(f, "seconds");
    var hours :- IntField(f, "hours");
    var remaining :- IntField(f, "remaining_minutes");
    var contributor :- FloatField(f, "contributor");
    Success(DeepSleep(minutes, seconds, hours, remaining, contributor))
  }

  function ValidateLightSleep(j: Json): (r: Check<LightSleep>)
    ensures r.Success? <==>
      j.JObject? &&
      IntAt(j.fields, "minutes") &&
      IntAt(j.fields, "seconds") &&
      IntAt(j.fields, "percentage") &&
      IntAt(j.fields, "hours") &&
      IntAt(j.fields, "remaining_minutes")
    ensures r.Success? ==> r.value == LightSleep(
      j.fields["minutes"].i,
      j.fields["seconds"].i,
      j.fields["percentage"].i,
      j.fields["hours"].i,
      j.fields["remaining_minutes"].i)
  {
    var f :- AsObject(j);
    var minutes :- IntField(f, "minutes");
    var seconds :- IntField(f, "seconds");
    var percentage :- IntField(f, "percentage");
    var hours :- IntField(f, "hours");
    var remaining :- IntField(f, "remaining_minutes");
    Success(LightSleep(minutes, seconds, percentage, hours, remaining))
  }

  function ValidateTemperatureDeviation(j: Json): (r: Check<TemperatureDeviation>)
    ensures r.Success? <==>
      j.JObject? &&
      NumAt(j.fields, "celsius") &&
      IntAt(j.fields, "contributor")
    ensures r.Success? ==> r.value == TemperatureDeviation(
      RealOf(j.fields["celsius"]),
      j.fields["contributor"].i)
  {
    var f :- AsObject(j);
    var celsius :- FloatField(f, "celsius");
    var contributor :- IntField(f, "contributor");
    Success(TemperatureDeviation(celsius, contributor))
  }

  function ValidateRestorativeSleep(j: Json): (r: Check<RestorativeSleep>)
    ensures r.Success? <==>
      j.JObject? &&
      IntAt(j.fields, "percentage") &&
      "badge" in j.fields && ValidateBadge(j.fields["badge"]).Success?
    ensures r.Success? ==> r.value == RestorativeSleep(
      j.fields["percentage"].i,
      ValidateBadge(j.fields["badge"]).value)
  {
    var f :- AsObject(j);
    var percentage :- IntField(f, "percentage");
    var badge :- ModelField(f, "badge", ValidateBadge);
    Success(RestorativeSleep(percentage, badge))
  }

  function ValidateMovements(j: Json): (r: Check<Movements>)
    ensures r.Success? <==>
      j.JObject? &&
      IntAt(j.fields, "count")
    ensures r.Success? ==> r.value == Movements(
      j.fields["count"].i)
  {
    var f :- AsObject(j);
    var count :- IntField(f, "count");
    Success(Movements(count))
  }

  function ValidateMorningAlertness(j: Json): (r: Check<MorningAlertness>)
    ensures r.Success? <==>
      j.JObject? &&
      IntAt(j.fields, "minutes")
    ensures r.Success? ==> r.value == MorningAlertness(
      j.fields["minutes"].i)
  {
    var f :- AsObject(j);
    var minutes :- IntField(f, "minutes");
    Success(MorningAlertness(minutes))
  }

  function ValidateFullSleepCycles(j: Json): (r: Check<FullSleepCycles>)
    ensures r.Success? <==>
      j.JObject? &&
      IntAt(j.fields, "cycles")
    ensures r.Success? ==> r.value == FullSleepCycles(
      j.fields["cycles"].i)
  {
    var f :- AsObject(j);
    var cycles :- IntField(f, "cycles");
    Success(FullSleepCycles(cycles))
  }

  function ValidateTossesAndTurns(j: Json): (r: Check<TossesAndTurns>)
    ensures r.Success? <==>
      j.JObject? &&
      IntAt(j.fields, "count")
    ensures r.Success? ==> r.value == TossesAndTurns(
      j.fields["count"].i)
  {
    var f :- AsObject(j);
    var count :- IntField(f, "count");
    Success(TossesAndTurns(count))
  }

  function ValidateAverageBodyTemperature(j: Json): (r: Check<AverageBodyTemperature>)
    ensures r.Success? <==>
      j.JObject? &&
      NumAt(j.fields, "celsius") &&
      IntAt(j.fields, "contributor")
    ensures r.Success? ==> r.value == AverageBodyTemperature(
      RealOf(j.fields["celsius"]),
      j.fields["contributor"].i)
  {
    var f :- AsObject(j);
    var celsius :- FloatField(f, "celsius");
    var contributor :- IntField(f, "contributor");
    Success(AverageBodyTemperature(celsius, contributor))
  }

  function ValidateSleepGraph(j: Json): (r: Check<SleepGraph>)
    ensures r.Success? <==>
      j.JObject? &&
      StrAt(j.fields, "title") &&
      "data" in j.fields && ListValue("data", j.fields["data"], ValidateSleepGraphEntry).Success? &&
      OptStrField(j.fields, "education_modal_deeplink").Success?
    ensures r.Success? ==> r.value == SleepGraph(
      j.fields["title"].s,
      ListValue("data", j.fields["data"], ValidateSleepGraphEntry).value,
      OptStrField(j.fields, "education_modal_deeplink").value)
  {
    var f :- AsObject(j);
    var title :- StrField(f, "title");
    var data :- ListField(f, "data", ValidateSleepGraphEntry);
    var education :- OptStrField(f, "education_modal_deeplink");
    Success(SleepGraph(title, data, education))
  }

  function ValidateMovementGraph(j: Json): (r: Check<MovementGraph>)
    ensures r.Success? <==>
      j.JObject? &&
      StrAt(j.fields, "title") &&
      "data" in j.fields && ListValue("data", j.fields["data"], ValidateMovementGraphEntry).Success?
    ensures r.Success? ==> r.value == MovementGraph(
      j.fields["title"].s,
      ListValue("data", j.fields["data"], ValidateMovementGraphEntry).value)
  {
    var f :- AsObject(j);
    var title :- StrField(f, "title");
    var data :- ListField(f, "data", ValidateMovementGraphEntry);
    Success(MovementGraph(title, data))
  }

  function MarksValue(j: Json): Check<seq<MarkPoint>> {
    ListValue("marks", j, ValidateMarkPoint)
  }

  function ValidateHRGraph(j: Json): (r: Check<HRGraph>)
    ensures r.Success? <==>
      j.JObject? &&
      StrAt(j.fields, "title") &&
      "data" in j.fields && ListValue("data", j.fields["data"], ValidateHRGraphEntry).Success? &&
      OptionalField(j.fields, "marks", MarksValue).Success?
    ensures r.Success? ==> r.value == HRGraph(
      j.fields["title"].s,
      ListValue("data", j.fields["data"], ValidateHRGraphEntry).value,
      OptionalField(j.fields, "marks", MarksValue).value)
  {
    var f :- AsObject(j);
    var title :- StrField(f, "title");
    var data :- ListField(f, "data", ValidateHRGraphEntry);
    var marks :- OptionalField(f, "marks", MarksValue);
    Success(HRGraph(title, data, marks))
  }

  function ValidateSleepHRDrop(j: Json): (r: Check<SleepHRDrop>)
    ensures r.Success? <==>
      j.JObject? &&
      OptIntField(j.fields, "timestamp").Success? &&
      OptFloatField(j.fields, "value").Success?
    ensures r.Success? ==> r.value == SleepHRDrop(
      OptIntField(j.fields, "timestamp").value,
      OptFloatField(j.fields, "value").value)
  {
    var f :- AsObject(j);
    var timestamp :- OptIntField(f, "timestamp");
    var value :- OptFloatField(f, "value");
    Success(SleepHRDrop(timestamp, value))
  }

  /** `SleepObject`: every field is required except `hr_drop`. */
  function ValidateSleepObject(j: Json): (r: Check<SleepObject>)
    ensures r.Success? <==>
      j.JObject? &&
      IntAt(j.fields, "bedtime_start") &&
      IntAt(j.fields, "bedtime_end") &&
      "quick_metrics" in j.fields && ListValue("quick_metrics", j.fields["quick_metrics"], ValidateQuickMetric).Success? &&
      "quick_metrics_tiled" in j.fields && ListValue("quick_metrics_tiled", j.fields["quick_metrics_tiled"], ValidateQuickMetricTiled).Success? &&
      "sleep_stages" in j.fields && ListValue("sleep_stages", j.fields["sleep_stages"], ValidateSleepStage).Success? &&
      "sleep_graph" in j.fields && ValidateSleepGraph(j.fields["sleep_graph"]).Success? &&
      "movement_graph" in j.fields && ValidateMovementGraph(j.fields["movement_graph"]).Success? &&
      "hr_graph" in j.fields && ValidateHRGraph(j.fields["hr_graph"]).Success? &&
      "sleep_score" in j.fields && ValidateSleepScore(j.fields["sleep_score"]).Success? &&
      "total_sleep" in j.fields && ValidateTotalSleep(j.fields["total_sleep"]).Success? &&
      "sleep_efficiency" in j.fields && ValidateSleepEfficiency(j.fields["sleep_efficiency"]).Success? &&
      "time_in_bed" in j.fields && ValidateTimeInBed(j.fields["time_in_bed"]).Success? &&
      "rem_sleep" in j.fields && ValidateREMSleep(j.fields["rem_sleep"]).Success? &&
      "deep_sleep" in j.fields && ValidateDeepSleep(j.fields["deep_sleep"]).Success? &&
      "light_sleep" in j.fields && ValidateLightSleep(j.fields["light_sleep"]).Success? &&
      "temperature_deviation" in j.fields && ValidateTemperatureDeviation(j.fields["temperature_deviation"]).Success? &&
      OptionalField(j.fields, "hr_drop", ValidateSleepHRDrop).Success? &&
      "restorative_sleep" in j.fields && ValidateRestorativeSleep(j.fields["restorative_sleep"]).Success? &&
      "movements" in j.fields && ValidateMovements(j.fields["movements"]).Success? &&
      "morning_alertness" in j.fields && ValidateMorningAlertness(j.fields["morning_alertness"]).Success? &&
      "full_sleep_cycles" in j.fields && ValidateFullSleepCycles(j.fields["full_sleep_cycles"]).Success? &&
      "tosses_and_turns" in j.fields && ValidateTossesAndTurns(j.fields["tosses_and_turns"]).Success? &&
      "average_body_temperature" in j.fields && ValidateAverageBodyTemperature(j.fields["average_body_temperature"]).Success?
    ensures r.Success? ==> r.value == SleepObject(
      j.fields["bedtime_start"].i,
      j.fields["bedtime_end"].i,
      ListValue("quick_metrics", j.fields["quick_metrics"], ValidateQuickMetric).value,
      ListValue("quick_metrics_tiled", j.fields["quick_metrics_tiled"], ValidateQuickMetricTiled).value,
      ListValue("sleep_stages", j.fields["sleep_stages"], ValidateSleepStage).value,
      ValidateSleepGraph(j.fields["sleep_graph"]).value,
      ValidateMovementGraph(j.fields["movement_graph"]).value,
      ValidateHRGraph(j.fields["hr_graph"]).value,
      ValidateSleepScore(j.fields["sleep_score"]).value,
      ValidateTotalSleep(j.fields["total_sleep"]).value,
      ValidateSleepEfficiency(j.fields["sleep_efficiency"]).value,
      ValidateTimeInBed(j.fields["time_in_bed"]).value,
      ValidateREMSleep(j.fields["rem_sleep"]).value,
      ValidateDeepSleep(j.fields["deep_sleep"]).value,
      ValidateLightSleep(j.fields["light_sleep"]).value,
      ValidateTemperatureDeviation(j.fields["temperature_deviation"]).value,
      OptionalField(j.fields, "hr_drop", ValidateSleepHRDrop).value,
      ValidateRestorativeSleep(j.fields["restorative_sleep"]).value,
      ValidateMovements(j.fields["movements"]).value,
      ValidateMorningAlertness(j.fields["morning_alertness"]).value,
      ValidateFullSleepCycles(j.fields["full_sleep_cycles"]).value,
      ValidateTossesAndTurns(j.fields["tosses_and_turns"]).value,
      ValidateAverageBodyTemperature(j.fields["average_body_temperature"]).value)
  {
    var f :- AsObject(j);
    var bedtimeStart :- IntField(f, "bedtime_start");
    var bedtimeEnd :- IntField(f, "bedtime_end");
    var quickMetrics :- ListField(f, "quick_metrics", ValidateQuickMetric);
    var quickMetricsTiled :- ListField(f, "quick_metrics_tiled", ValidateQuickMetricTiled);
    var sleepStages :- ListField(f, "sleep_stages", ValidateSleepStage);
    var sleepGraph :- ModelField(f, "sleep_graph", ValidateSleepGraph);
    var movementGraph :- ModelField(f, "movement_graph", ValidateMovementGraph);
    var hrGraph :- ModelField(f, "hr_graph", ValidateHRGraph);
    var sleepScore :- ModelField(f, "sleep_score", ValidateSleepScore);
    var totalSleep :- ModelField(f, "total_sleep", ValidateTotalSleep);
    var sleepEfficiency :- ModelField(f, "sleep_efficiency", ValidateSleepEfficiency);
    var timeInBed :- ModelField(f, "time_in_bed", ValidateTimeInBed);
    var remSleep :- ModelField(f, "rem_sleep", ValidateREMSleep);
    var deepSleep :- ModelField(f, "deep_sleep", ValidateDeepSleep);
    var lightSleep :- ModelField(f, "light_sleep", ValidateLightSleep);
    var temperatureDeviation :- ModelField(f, "temperature_deviation", ValidateTemperatureDeviation);
    var hrDrop :- OptionalField(f, "hr_drop", ValidateSleepHRDrop);
    var restorativeSleep :- ModelField(f, "restorative_sleep", ValidateRestorativeSleep);
    var movements :- ModelField(f, "movements", ValidateMovements);
    var morningAlertness :- ModelField(f, "morning_alertness", ValidateMorningAlertness);
    var fullSleepCycles :- ModelField(f, "full_sleep_cycles", ValidateFullSleepCycles);
    var tossesAndTurns :- ModelField(f, "tosses_and_turns", ValidateTossesAndTurns);
    var averageBodyTemperature :- ModelField(f, "average_body_temperature", ValidateAverageBodyTemperature);
    Success(SleepObject(
      bedtimeStart, bedtimeEnd, quickMetrics, quickMetricsTiled, sleepStages,
      sleepGraph, movementGraph, hrGraph, sleepScore, totalSleep, sleepEfficiency,
      timeInBed, remSleep, deepSleep, lightSleep, temperatureDeviation, hrDrop,
      restorativeSleep, movements, morningAlertness, fullSleepCycles, tossesAndTurns,
      averageBodyTemperature))
  }

  // Encoding to JSON (the dict a validated record dumps to)

  function EncodeStageType(t: StageType): Json {
    match t
    case DeepSleepStage => JString("deep_sleep")
    case LightSleepStage => JString("light_sleep")
    case RemSleepStage => JString("rem_sleep")
    case AwakeStage => JString("awake")
  }

  function EncodeMovementType(t: MovementType): Json {
    match t
    case LightMovement => JString("light")
    case MediumMovement => JString("medium")
    case VigorousMovement => JString("vigorous")
  }

  function EncodeInt(i: int): Json { JInt(i) }
  function EncodeFloat(x: real): Json { JFloat(x) }

  function EncodeTrackingParam(p: TrackingParam): Json {
    JObject(map["key_name" := JString(p.keyName), "value" := JString(p.value)])
  }

  function EncodeTrackingParams(ps: seq<TrackingParam>): Json {
    JArray(EncodeList(ps, EncodeTrackingParam))
  }

  function EncodeQuickMetric(q: QuickMetric): Json {
    JObject(map[
      "title" := JString(q.title),
      "display_text" := JString(q.displayText),
      "unit" := EncodeOptional(q.unit, EncodeStr),
      "value" := EncodeNumber(q.value),
      "deeplink" := EncodeOptional(q.deeplink, EncodeStr),
      "type" := JString(q.kind),
      "education_modal_deeplink" := EncodeOptional(q.educationModalDeeplink, EncodeStr),
      "tracking_params" := EncodeOptional(q.trackingParams, EncodeTrackingParams),
      "display_text_marked_up" := EncodeOptional(q.displayTextMarkedUp, EncodeStr)])
  }

  function EncodeQuickMetricTiled(q: QuickMetricTiled): Json {
    JObject(map[
      "title" := JString(q.title),
      "value" := JString(q.value),
      "tag" := JString(q.tag),
      "tag_color" := JString(q.tagColor),
      "deeplink" := JString(q.deeplink),
      "trends_unit" := JString(q.trendsUnit),
      "trends_value" := EncodeNumber(q.trendsValue),
      "type" := JString(q.kind)])
  }

  function EncodeSleepStage(s: SleepStage): Json {
    JObject(map[
      "title" := JString(s.title),
      "type" := EncodeStageType(s.kind),
      "percentage" := JInt(s.percentage),
      "stage_time_text" := JString(s.stageTimeText),
      "stage_time" := JInt(s.stageTime)])
  }

  function EncodeSleepGraphEntry(e: SleepGraphEntry): Json {
    JObject(map[
      "start" := JInt(e.start),
      "end" := JInt(e.end),
      "type" := EncodeStageType(e.kind),
      "toss_turn" := EncodeOptional(e.tossTurn, EncodeInt)])
  }

  function EncodeMovementGraphEntry(e: MovementGraphEntry): Json {
    JObject(map["timestamp" := JInt(e.timestamp), "type" := EncodeMovementType(e.kind)])
  }

  function EncodeHRGraphEntry(e: HRGraphEntry): Json {
    JObject(map["value" := JFloat(e.value), "timestamp" := JInt(e.timestamp)])
  }

  function EncodeMarkPoint(m: MarkPoint): Json {
    JObject(map[
      "mark_type" := JString(m.markType),
      "mark_color" := JString(m.markColor),
      "mark_point" := JInt(m.markPoint)])
  }

  function EncodeMarks(ms: seq<MarkPoint>): Json {
    JArray(EncodeList(ms, EncodeMarkPoint))
  }

  function EncodeBadge(b: Badge): Json {
    JObject(map["text" := JString(b.text), "type" := JString(b.kind)])
  }

  function EncodeSleepScore(s: SleepScore): Json {
    JObject(map["score" := JInt(s.score)])
  }

  function EncodeTotalSleep(t: TotalSleep): Json {
    JObject(map[
      "minutes" := JInt(t.minutes),
      "hours" := JInt(t.hours),
      "remaining_minutes" := JInt(t.remainingMinutes),
      "seconds" := JInt(t.seconds),
      "badge" := EncodeBadge(t.badge)])
  }

  function EncodeSleepEfficiency(e: SleepEfficiency): Json {
    JObject(map["percentage" := JInt(e.percentage), "contributor" := JInt(e.contributor)])
  }

  function EncodeTimeInBed(t: TimeInBed): Json {
    JObject(map[
      "minutes" := JInt(t.minutes),
      "hours" := JInt(t.hours),
      "remaining_minutes" := JInt(t.remainingMinutes),
      "badge" := EncodeBadge(t.badge)])
  }

  function EncodeREMSleep(r: REMSleep): Json {
    JObject(map[
      "minutes" := JInt(r.minutes),
      "seconds" := JInt(r.seconds),
      "percentage" := JFloat(r.percentage),
      "hours" := JInt(r.hours),
      "remaining_minutes" := JInt(r.remainingMinutes),
      "contributor" := JFloat(r.contributor)])
  }

  function EncodeDeepSleep(d: DeepSleep): Json {
    JObject(map[
      "minutes" := JInt(d.minutes),
      "seconds" := JInt(d.seconds),
      "hours" := JInt(d.hours),
      "remaining_minutes" := JInt(d.remainingMinutes),
      "contributor" := JFloat(d.contributor)])
  }

  function EncodeLightSleep(l: LightSleep): Json {
    JObject(map[
      "minutes" := JInt(l.minutes),
      "seconds" := JInt(l.seconds),
      "percentage" := JInt(l.percentage),
      "hours" := JInt(l.hours),
      "remaining_minutes" := JInt(l.remainingMinutes)])
  }

  function EncodeTemperatureDeviation(t: TemperatureDeviation): Json {
    JObject(map["celsius" := JFloat(t.celsius), "contributor" := JInt(t.contributor)])
  }

  function EncodeRestorativeSleep(r: RestorativeSleep): Json {
    JObject(map["percentage" := JInt(r.percentage), "badge" := EncodeBadge(r.badge)])
  }

  function EncodeMovements(m: Movements): Json {
    JObject(map["count" := JInt(m.count)])
  }

  function EncodeMorningAlertness(m: MorningAlertness): Json {
    JObject(map["minutes" := JInt(m.minutes)])
  }

  function EncodeFullSleepCycles(c: FullSleepCycles): Json {
    JObject(map["cycles" := JInt(c.cycles)])
  }

  function EncodeTossesAndTurns(t: TossesAndTurns): Json {
    JObject(map["count" := JInt(t.count)])
  }

  function EncodeAverageBodyTemperature(a: AverageBodyTemperature): Json {
    JObject(map["celsius" := JFloat(a.celsius), "contributor" := JInt(a.contributor)])
  }

  function EncodeSleepGraph(g: SleepGraph): Json {
    JObject(map[
      "title" := JString(g.title),
      "data" := JArray(EncodeList(g.data, EncodeSleepGraphEntry)),
      "education_modal_deeplink" := EncodeOptional(g.educationModalDeeplink, EncodeStr)])
  }

  function EncodeMovementGraph(g: MovementGraph): Json {
    JObject(map["title" := JString(g.title), "data" := JArray(EncodeList(g.data, EncodeMovementGraphEntry))])
  }

  function EncodeHRGraph(g: HRGraph): Json {
    JObject(map[
      "title" := JString(g.title),
      "data" := JArray(EncodeList(g.data, EncodeHRGraphEntry)),
      "marks" := EncodeOptional(g.marks, EncodeMarks)])
  }

  function EncodeSleepHRDrop(d: SleepHRDrop): Json {
    JObject(map[
      "timestamp" := EncodeOptional(d.timestamp, EncodeInt),
      "value" := EncodeOptional(d.value, EncodeFloat)])
  }

  /** The dict of a sleep object, from the JSON of each of its fields.
      The `SleepFieldsLookup` lemmas below model nothing of their own: they
      only unfold this 23-key map display a few keys at a time, so that each
      proof that reads its entries stays small. */
  function SleepFields(
    bedtimeStart: Json,
    bedtimeEnd: Json,
    quickMetrics: Json,
    quickMetricsTiled: Json,
    sleepStages: Json,
    sleepGraph: Json,
    movementGraph: Json,
    hrGraph: Json,
    sleepScore: Json,
    totalSleep: Json,
    sleepEfficiency: Json,
    timeInBed: Json,
    remSleep: Json,
    deepSleep: Json,
    lightSleep: Json,
    temperatureDeviation: Json,
    hrDrop: Json,
    restorativeSleep: Json,
    movements: Json,
    morningAlertness: Json,
    fullSleepCycles: Json,
    tossesAndTurns: Json,
    averageBodyTemperature: Json): (r: Fields)
  {
    map[
      "bedtime_start" := bedtimeStart,
      "bedtime_end" := bedtimeEnd,
      "quick_metrics" := quickMetrics,
      "quick_metrics_tiled" := quickMetricsTiled,
      "sleep_stages" := sleepStages,
      "sleep_graph" := sleepGraph,
      "movement_graph" := movementGraph,
      "hr_graph" := hrGraph,
      "sleep_score" := sleepScore,
      "total_sleep" := totalSleep,
      "sleep_efficiency" := sleepEfficiency,
      "time_in_bed" := timeInBed,
      "rem_sleep" := remSleep,
      "deep_sleep" := deepSleep,
      "light_sleep" := lightSleep,
      "temperature_deviation" := temperatureDeviation,
      "hr_drop" := hrDrop,
      "restorative_sleep" := restorativeSleep,
      "movements" := movements,
      "morning_alertness" := morningAlertness,
      "full_sleep_cycles" := fullSleepCycles,
      "tosses_and_turns" := tossesAndTurns,
      "average_body_temperature" := averageBodyTemperature]
  }

  lemma SleepFieldsLookup1(
    bedtimeStart: Json,
    bedtimeEnd: Json,
    quickMetrics: Json,
    quickMetricsTiled: Json,
    sleepStages: Json,
    sleepGraph: Json,
    movementGraph: Json,
    hrGraph: Json,
    sleepScore: Json,
    totalSleep: Json,
    sleepEfficiency: Json,
    timeInBed: Json,
    remSleep: Json,
    deepSleep: Json,
    lightSleep: Json,
    temperatureDeviation: Json,
    hrDrop: Json,
    restorativeSleep: Json,
    movements: Json,
    morningAlertness: Json,
    fullSleepCycles: Json,
    tossesAndTurns: Json,
    averageBodyTemperature: Json)
    ensures var r := SleepFields(bedtimeStart, bedtimeEnd, quickMetrics, quickMetricsTiled, sleepStages, sleepGraph, movementGraph, hrGraph, sleepScore, totalSleep, sleepEfficiency, timeInBed, remSleep, deepSleep, lightSleep, temperatureDeviation, hrDrop, restorativeSleep, movements, morningAlertness, fullSleepCycles, tossesAndTurns, averageBodyTemperature);
      "bedtime_start" in r && r["bedtime_start"] == bedtimeStart
  {
  }

  lemma SleepFieldsLookup2(
    bedtimeStart: Json,
    bedtimeEnd: Json,
    quickMetrics: Json,
    quickMetricsTiled: Json,
    sleepStages: Json,
    sleepGraph: Json,
    movementGraph: Json,
    hrGraph: Json,
    sleepScore: Json,
    totalSleep: Json,
    sleepEfficiency: Json,
    timeInBed: Json,
    remSleep: Json,
    deepSleep: Json,
    lightSleep: Json,
    temperatureDeviation: Json,
    hrDrop: Json,
    restorativeSleep: Json,
    movements: Json,
    morningAlertness: Json,
    fullSleepCycles: Json,
    tossesAndTurns: Json,
    averageBodyTemperature: Json)
    ensures var r := SleepFields(bedtimeStart, bedtimeEnd, quickMetrics, quickMetricsTiled, sleepStages, sleepGraph, movementGraph, hrGraph, sleepScore, totalSleep, sleepEfficiency, timeInBed, remSleep, deepSleep, lightSleep, temperatureDeviation, hrDrop, restorativeSleep, movements, morningAlertness, fullSleepCycles, tossesAndTurns, averageBodyTemperature);
      "bedtime_end" in r && r["bedtime_end"] == bedtimeEnd
  {
  }

  lemma SleepFieldsLookup3(
    bedtimeStart: Json,
    bedtimeEnd: Json,
    quickMetrics: Json,
    quickMetricsTiled: Json,
    sleepStages: Json,
    sleepGraph: Json,
    movementGraph: Json,
    hrGraph: Json,
    sleepScore: Json,
    totalSleep: Json,
    sleepEfficiency: Json,
    timeInBed: Json,
    remSleep: Json,
    deepSleep: Json,
    lightSleep: Json,
    temperatureDeviation: Json,
    hrDrop: Json,
    restorativeSleep: Json,
    movements: Json,
    morningAlertness: Json,
    fullSleepCycles: Json,
    tossesAndTurns: Json,
    averageBodyTemperature: Json)
    ensures var r := SleepFields(bedtimeStart, bedtimeEnd, quickMetrics, quickMetricsTiled, sleepStages, sleepGraph, movementGraph, hrGraph, sleepScore, totalSleep, sleepEfficiency, timeInBed, remSleep, deepSleep, lightSleep, temperatureDeviation, hrDrop, restorativeSleep, movements, morningAlertness, fullSleepCycles, tossesAndTurns, averageBodyTemperature);
      "quick_metrics" in r && r["quick_metrics"] == quickMetrics
  {
  }

  lemma SleepFieldsLookup4(
    bedtimeStart: Json,
    bedtimeEnd: Json,
    quickMetrics: Json,
    quickMetricsTiled: Json,
    sleepStages: Json,
    sleepGraph: Json,
    movementGraph: Json,
    hrGraph: Json,
    sleepScore: Json,
    totalSleep: Json,
    sleepEfficiency: Json,
    timeInBed: Json,
    remSleep: Json,
    deepSleep: Json,
    lightSleep: Json,
    temperatureDeviation: Json,
    hrDrop: Json,
    restorativeSleep: Json,
    movements: Json,
    morningAlertness: Json,
    fullSleepCycles: Json,
    tossesAndTurns: Json,
    averageBodyTemperature: Json)
    ensures var r := SleepFields(bedtimeStart, bedtimeEnd, quickMetrics, quickMetricsTiled, sleepStages, sleepGraph, movementGraph, hrGraph, sleepScore, totalSleep, sleepEfficiency, timeInBed, remSleep, deepSleep, lightSleep, temperatureDeviation, hrDrop, restorativeSleep, movements, morningAlertness, fullSleepCycles, tossesAndTurns, averageBodyTemperature);
      "quick_metrics_tiled" in r && r["quick_metrics_tiled"] == quickMetricsTiled
  {
  }

  lemma SleepFieldsLookup5(
    bedtimeStart: Json,
    bedtimeEnd: Json,
    quickMetrics: Json,
    quickMetricsTiled: Json,
    sleepStages: Json,
    sleepGraph: Json,
    movementGraph: Json,
    hrGraph: Json,
    sleepScore: Json,
    totalSleep: Json,
    sleepEfficiency: Json,
    timeInBed: Json,
    remSleep: Json,
    deepSleep: Json,
    lightSleep: Json,
    temperatureDeviation: Json,
    hrDrop: Json,
    restorativeSleep: Json,
    movements: Json,
    morningAlertness: Json,
    fullSleepCycles: Json,
    tossesAndTurns: Json,
    averageBodyTemperature: Json)
    ensures var r := SleepFields(bedtimeStart, bedtimeEnd, quickMetrics, quickMetricsTiled, sleepStages, sleepGraph, movementGraph, hrGraph, sleepScore, totalSleep, sleepEfficiency, timeInBed, remSleep, deepSleep, lightSleep, temperatureDeviation, hrDrop, restorativeSleep, movements, morningAlertness, fullSleepCycles, tossesAndTurns, averageBodyTemperature);
      "sleep_stages" in r && r["sleep_stages"] == sleepStages
  {
  }

  lemma SleepFieldsLookup6(
    bedtimeStart: Json,
    bedtimeEnd: Json,
    quickMetrics: Json,
    quickMetricsTiled: Json,
    sleepStages: Json,
    sleepGraph: Json,
    movementGraph: Json,
    hrGraph: Json,
    sleepScore: Json,
    totalSleep: Json,
    sleepEfficiency: Json,
    timeInBed: Json,
    remSleep: Json,
    deepSleep: Json,
    lightSleep: Json,
    temperatureDeviation: Json,
    hrDrop: Json,
    restorativeSleep: Json,
    movements: Json,
    morningAlertness: Json,
    fullSleepCycles: Json,
    tossesAndTurns: Json,
    averageBodyTemperature: Json)
    ensures var r := SleepFields(bedtimeStart, bedtimeEnd, quickMetrics, quickMetricsTiled, sleepStages, sleepGraph, movementGraph, hrGraph, sleepScore, totalSleep, sleepEfficiency, timeInBed, remSleep, deepSleep, lightSleep, temperatureDeviation, hrDrop, restorativeSleep, movements, morningAlertness, fullSleepCycles, tossesAndTurns, averageBodyTemperature);
      "sleep_graph" in r && r["sleep_graph"] == sleepGraph
  {
  }

  lemma SleepFieldsLookup7(
    bedtimeStart: Json,
    bedtimeEnd: Json,
    quickMetrics: Json,
    quickMetricsTiled: Json,
    sleepStages: Json,
    sleepGraph: Json,
    movementGraph: Json,
    hrGraph: Json,
    sleepScore: Json,
    totalSleep: Json,
    sleepEfficiency: Json,
    timeInBed: Json,
    remSleep: Json,
    deepSleep: Json,
    lightSleep: Json,
    temperatureDeviation: Json,
    hrDrop: Json,
    restorativeSleep: Json,
    movements: Json,
    morningAlertness: Json,
    fullSleepCycles: Json,
    tossesAndTurns: Json,
    averageBodyTemperature: Json)
    ensures var r := SleepFields(bedtimeStart, bedtimeEnd, quickMetrics, quickMetricsTiled, sleepStages, sleepGraph, movementGraph, hrGraph, sleepScore, totalSleep, sleepEfficiency, timeInBed, remSleep, deepSleep, lightSleep, temperatureDeviation, hrDrop, restorativeSleep, movements, morningAlertness, fullSleepCycles, tossesAndTurns, averageBodyTemperature);
      "movement_graph" in r && r["movement_graph"] == movementGraph &&
      "hr_graph" in r && r["hr_graph"] == hrGraph
  {
  }

  lemma SleepFieldsLookup8(
    bedtimeStart: Json,
    bedtimeEnd: Json,
    quickMetrics: Json,
    quickMetricsTiled: Json,
    sleepStages: Json,
    sleepGraph: Json,
    movementGraph: Json,
    hrGraph: Json,
    sleepScore: Json,
    totalSleep: Json,
    sleepEfficiency: Json,
    timeInBed: Json,
    remSleep: Json,
    deepSleep: Json,
    lightSleep: Json,
    temperatureDeviation: Json,
    hrDrop: Json,
    restorativeSleep: Json,
    movements: Json,
    morningAlertness: Json,
    fullSleepCycles: Json,
    tossesAndTurns: Json,
    averageBodyTemperature: Json)
    ensures var r := SleepFields(bedtimeStart, bedtimeEnd, quickMetrics, quickMetricsTiled, sleepStages, sleepGraph, movementGraph, hrGraph, sleepScore, totalSleep, sleepEfficiency, timeInBed, remSleep, deepSleep, lightSleep, temperatureDeviation, hrDrop, restorativeSleep, movements, morningAlertness, fullSleepCycles, tossesAndTurns, averageBodyTemperature);
      "sleep_score" in r && r["sleep_score"] == sleepScore &&
      "total_sleep" in r && r["total_sleep"] == totalSleep &&
      "sleep_efficiency" in r && r["sleep_efficiency"] == sleepEfficiency
  {
  }

  lemma SleepFieldsLookup9(
    bedtimeStart: Json,
    bedtimeEnd: Json,
    quickMetrics: Json,
    quickMetricsTiled: Json,
    sleepStages: Json,
    sleepGraph: Json,
    movementGraph: Json,
    hrGraph: Json,
    sleepScore: Json,
    totalSleep: Json,
    sleepEfficiency: Json,
    timeInBed: Json,
    remSleep: Json,
    deepSleep: Json,
    lightSleep: Json,
    temperatureDeviation: Json,
    hrDrop: Json,
    restorativeSleep: Json,
    movements: Json,
    morningAlertness: Json,
    fullSleepCycles: Json,
    tossesAndTurns: Json,
    averageBodyTemperature: Json)
    ensures var r := SleepFields(bedtimeStart, bedtimeEnd, quickMetrics, quickMetricsTiled, sleepStages, sleepGraph, movementGraph, hrGraph, sleepScore, totalSleep, sleepEfficiency, timeInBed, remSleep, deepSleep, lightSleep, temperatureDeviation, hrDrop, restorativeSleep, movements, morningAlertness, fullSleepCycles, tossesAndTurns, averageBodyTemperature);
      "time_in_bed" in r && r["time_in_bed"] == timeInBed &&
      "rem_sleep" in r && r["rem_sleep"] == remSleep &&
      "deep_sleep" in r && r["deep_sleep"] == deepSleep
  {
  }

  lemma SleepFieldsLookup10(
    bedtimeStart: Json,
    bedtimeEnd: Json,
    quickMetrics: Json,
    quickMetricsTiled: Json,
    sleepStages: Json,
    sleepGraph: Json,
    movementGraph: Json,
    hrGraph: Json,
    sleepScore: Json,
    totalSleep: Json,
    sleepEfficiency: Json,
    timeInBed: Json,
    remSleep: Json,
    deepSleep: Json,
    lightSleep: Json,
    temperatureDeviation: Json,
    hrDrop: Json,
    restorativeSleep: Json,
    movements: Json,
    morningAlertness: Json,
    fullSleepCycles: Json,
    tossesAndTurns: Json,
    averageBodyTemperature: Json)
    ensures var r := SleepFields(bedtimeStart, bedtimeEnd, quickMetrics, quickMetricsTiled, sleepStages, sleepGraph, movementGraph, hrGraph, sleepScore, totalSleep, sleepEfficiency, timeInBed, remSleep, deepSleep, lightSleep, temperatureDeviation, hrDrop, restorativeSleep, movements, morningAlertness, fullSleepCycles, tossesAndTurns, averageBodyTemperature);
      "light_sleep" in r && r["light_sleep"] == lightSleep &&
      "temperature_deviation" in r && r["temperature_deviation"] == temperatureDeviation &&
      "hr_drop" in r && r["hr_drop"] == hrDrop &&
      "restorative_sleep" in r && r["restorative_sleep"] == restorativeSleep
  {
  }

  lemma SleepFieldsLookup11(
    bedtimeStart: Json,
    bedtimeEnd: Json,
    quickMetrics: Json,
    quickMetricsTiled: Json,
    sleepStages: Json,
    sleepGraph: Json,
    movementGraph: Json,
    hrGraph: Json,
    sleepScore: Json,
    totalSleep: Json,
    sleepEfficiency: Json,
    timeInBed: Json,
    remSleep: Json,
    deepSleep: Json,
    lightSleep: Json,
    temperatureDeviation: Json,
    hrDrop: Json,
    restorativeSleep: Json,
    movements: Json,
    morningAlertness: Json,
    fullSleepCycles: Json,
    tossesAndTurns: Json,
    averageBodyTemperature: Json)
    ensures var r := SleepFields(bedtimeStart, bedtimeEnd, quickMetrics, quickMetricsTiled, sleepStages, sleepGraph, movementGraph, hrGraph, sleepScore, totalSleep, sleepEfficiency, timeInBed, remSleep, deepSleep, lightSleep, temperatureDeviation, hrDrop, restorativeSleep, movements, morningAlertness, fullSleepCycles, tossesAndTurns, averageBodyTemperature);
      "movements" in r && r["movements"] == movements &&
      "morning_alertness" in r && r["morning_alertness"] == morningAlertness &&
      "full_sleep_cycles" in r && r["full_sleep_cycles"] == fullSleepCycles &&
      "tosses_and_turns" in r && r["tosses_and_turns"] == tossesAndTurns &&
      "average_body_temperature" in r && r["average_body_temperature"] == averageBodyTemperature
  {
  }

  function EncodeSleepObject(s: SleepObject): Json {
    JObject(SleepFields(
      JInt(s.bedtimeStart),
      JInt(s.bedtimeEnd),
      JArray(EncodeList(s.quickMetrics, EncodeQuickMetric)),
      JArray(EncodeList(s.quickMetricsTiled, EncodeQuickMetricTiled)),
      JArray(EncodeList(s.sleepStages, EncodeSleepStage)),
      EncodeSleepGraph(s.sleepGraph),
      EncodeMovementGraph(s.movementGraph),
      EncodeHRGraph(s.hrGraph),
      EncodeSleepScore(s.sleepScore),
      EncodeTotalSleep(s.totalSleep),
      EncodeSleepEfficiency(s.sleepEfficiency),
      EncodeTimeInBed(s.timeInBed),
      EncodeREMSleep(s.remSleep),
      EncodeDeepSleep(s.deepSleep),
      EncodeLightSleep(s.lightSleep),
      EncodeTemperatureDeviation(s.temperatureDeviation),
      EncodeOptional(s.hrDrop, EncodeSleepHRDrop),
      EncodeRestorativeSleep(s.restorativeSleep),
      EncodeMovements(s.movements),
      EncodeMorningAlertness(s.morningAlertness),
      EncodeFullSleepCycles(s.fullSleepCycles),
      EncodeTossesAndTurns(s.tossesAndTurns),
      EncodeAverageBodyTemperature(s.averageBodyTemperature)))
  }

}
