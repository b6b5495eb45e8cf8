/** Round trips for the sleep object: validating the JSON a sleep record is
    written as gives that record back, for every sub-record, list and optional
    field; and the two enumerations decide validity. */
module SleepRoundTrip {
  import opened Wrappers
  import opened JsonValue
  import opened SleepModels


  lemma QuickMetricFromFields(g: Fields, q: QuickMetric)
    requires "title" in g && g["title"] == JString(q.title)
    requires "display_text" in g && g["display_text"] == JString(q.displayText)
    requires "unit" in g && g["unit"] == EncodeOptional(q.unit, EncodeStr)
    requires "value" in g && g["value"] == EncodeNumber(q.value)
    requires "deeplink" in g && g["deeplink"] == EncodeOptional(q.deeplink, EncodeStr)
    requires "type" in g && g["type"] == JString(q.kind)
    requires "education_modal_deeplink" in g
      && g["education_modal_deeplink"] == EncodeOptional(q.educationModalDeeplink, EncodeStr)
    requires "tracking_params" in g && g["tracking_params"] == EncodeOptional(q.trackingParams, EncodeTrackingParams)
    requires "display_text_marked_up" in g
      && g["display_text_marked_up"] == EncodeOptional(q.displayTextMarkedUp, EncodeStr)
    ensures ValidateQuickMetric(JObject(g)) == Success(q)
  {
    if q.trackingParams.Some? {
      ListRoundTrip(q.trackingParams.value, EncodeTrackingParam, ValidateTrackingParam);
    }
    assert StrField(g, "title") == Success(q.title);
    assert StrField(g, "display_text") == Success(q.displayText);
    OptStrRoundTrip(g, "unit", q.unit);
    assert NumberField(g, "value") == Success(q.value);
    OptStrRoundTrip(g, "deeplink", q.deeplink);
    assert StrField(g, "type") == Success(q.kind);
    OptStrRoundTrip(g, "education_modal_deeplink", q.educationModalDeeplink);
    assert OptionalField(g, "tracking_params", TrackingParamsValue) == Success(q.trackingParams);
    OptStrRoundTrip(g, "display_text_marked_up", q.displayTextMarkedUp);
  }

  lemma OptStrRoundTrip(g: Fields, key: string, x: Option<string>)
    requires key in g && g[key] == EncodeOptional(x, EncodeStr)
    ensures OptStrField(g, key) == Success(x)
  {
  }

  lemma QuickMetricRoundTrip(q: QuickMetric)
    ensures ValidateQuickMetric(EncodeQuickMetric(q)) == Success(q)
  {
    QuickMetricFromFields(EncodeQuickMetric(q).fields, q);
  }

  lemma QuickMetricsRoundTrip(qs: seq<QuickMetric>)
    ensures ListOf(EncodeList(qs, EncodeQuickMetric), ValidateQuickMetric) == Success(qs)
  {
    forall i | 0 <= i < |qs| ensures ValidateQuickMetric(EncodeQuickMetric(qs[i])) == Success(qs[i]) {
      QuickMetricRoundTrip(qs[i]);
    }
    ListRoundTrip(qs, EncodeQuickMetric, ValidateQuickMetric);
  }

  lemma SleepGraphRoundTrip(g: SleepGraph)
    ensures ValidateSleepGraph(EncodeSleepGraph(g)) == Success(g)
  {
    forall i | 0 <= i < |g.data|
      ensures ValidateSleepGraphEntry(EncodeSleepGraphEntry(g.data[i])) == Success(g.data[i])
    {
      SleepGraphEntryRoundTrip(g.data[i]);
    }
    ListRoundTrip(g.data, EncodeSleepGraphEntry, ValidateSleepGraphEntry);
  }

  lemma SleepGraphEntryRoundTrip(e: SleepGraphEntry)
    ensures ValidateSleepGraphEntry(EncodeSleepGraphEntry(e)) == Success(e)
  {
  }

  lemma MovementGraphRoundTrip(g: MovementGraph)
    ensures ValidateMovementGraph(EncodeMovementGraph(g)) == Success(g)
  {
    ListRoundTrip(g.data, EncodeMovementGraphEntry, ValidateMovementGraphEntry);
  }

  lemma HRGraphRoundTrip(g: HRGraph)
    ensures ValidateHRGraph(EncodeHRGraph(g)) == Success(g)
  {
    ListRoundTrip(g.data, EncodeHRGraphEntry, ValidateHRGraphEntry);
    if g.marks.Some? {
      ListRoundTrip(g.marks.value, EncodeMarkPoint, ValidateMarkPoint);
    }
  }

  /** The list-valued fields of the sleep object: quick metrics, tiles and stages. */
  lemma SleepListFieldsFrom(g: Fields, s: SleepObject)
    requires "quick_metrics" in g && g["quick_metrics"] == JArray(EncodeList(s.quickMetrics, EncodeQuickMetric))
    requires "quick_metrics_tiled" in g
      && g["quick_metrics_tiled"] == JArray(EncodeList(s.quickMetricsTiled, EncodeQuickMetricTiled))
    requires "sleep_stages" in g && g["sleep_stages"] == JArray(EncodeList(s.sleepStages, EncodeSleepStage))
    ensures ListField(g, "quick_metrics", ValidateQuickMetric) == Success(s.quickMetrics)
    ensures ListField(g, "quick_metrics_tiled", ValidateQuickMetricTiled) == Success(s.quickMetricsTiled)
    ensures ListField(g, "sleep_stages", ValidateSleepStage) == Success(s.sleepStages)
  {
    forall i | 0 <= i < |s.quickMetrics|
      ensures ValidateQuickMetric(EncodeQuickMetric(s.quickMetrics[i])) == Success(s.quickMetrics[i])
    {
      QuickMetricRoundTrip(s.quickMetrics[i]);
    }
    ListFieldRoundTrip(g, "quick_metrics", s.quickMetrics, EncodeQuickMetric, ValidateQuickMetric);
    forall i | 0 <= i < |s.quickMetricsTiled|
      ensures ValidateQuickMetricTiled(EncodeQuickMetricTiled(s.quickMetricsTiled[i])) == Success(s.quickMetricsTiled[i])
    {
      QuickMetricTiledRoundTrip(s.quickMetricsTiled[i]);
    }
    ListFieldRoundTrip(g, "quick_metrics_tiled", s.quickMetricsTiled, EncodeQuickMetricTiled, ValidateQuickMetricTiled);
    forall i | 0 <= i < |s.sleepStages|
      ensures ValidateSleepStage(EncodeSleepStage(s.sleepStages[i])) == Success(s.sleepStages[i])
    {
      SleepStageRoundTrip(s.sleepStages[i]);
    }
    ListFieldRoundTrip(g, "sleep_stages", s.sleepStages, EncodeSleepStage, ValidateSleepStage);
  }

  lemma QuickMetricTiledRoundTrip(x: QuickMetricTiled)
    ensures ValidateQuickMetricTiled(EncodeQuickMetricTiled(x)) == Success(x)
  {
  }

  /** The three graphs of the sleep object. */
  lemma SleepGraphFieldsFrom(g: Fields, s: SleepObject)
    requires "sleep_graph" in g && g["sleep_graph"] == EncodeSleepGraph(s.sleepGraph)
    requires "movement_graph" in g && g["movement_graph"] == EncodeMovementGraph(s.movementGraph)
    requires "hr_graph" in g && g["hr_graph"] == EncodeHRGraph(s.hrGraph)
    ensures ModelField(g, "sleep_graph", ValidateSleepGraph) == Success(s.sleepGraph)
    ensures ModelField(g, "movement_graph", ValidateMovementGraph) == Success(s.movementGraph)
    ensures ModelField(g, "hr_graph", ValidateHRGraph) == Success(s.hrGraph)
  {
    SleepGraphRoundTrip(s.sleepGraph);
    MovementGraphRoundTrip(s.movementGraph);
    HRGraphRoundTrip(s.hrGraph);
  }

  /** The per-stage summaries of the sleep object: score, totals, efficiency and the three stages. */
  lemma SleepStageFieldsFrom(g: Fields, s: SleepObject)
    requires "sleep_score" in g && g["sleep_score"] == EncodeSleepScore(s.sleepScore)
    requires "total_sleep" in g && g["total_sleep"] == EncodeTotalSleep(s.totalSleep)
    requires "sleep_efficiency" in g && g["sleep_efficiency"] == EncodeSleepEfficiency(s.sleepEfficiency)
    requires "time_in_bed" in g && g["time_in_bed"] == EncodeTimeInBed(s.timeInBed)
    requires "rem_sleep" in g && g["rem_sleep"] == EncodeREMSleep(s.remSleep)
    requires "deep_sleep" in g && g["deep_sleep"] == EncodeDeepSleep(s.deepSleep)
    requires "light_sleep" in g && g["light_sleep"] == EncodeLightSleep(s.lightSleep)
    requires "temperature_deviation" in g
      && g["temperature_deviation"] == EncodeTemperatureDeviation(s.temperatureDeviation)
    ensures ModelField(g, "sleep_score", ValidateSleepScore) == Success(s.sleepScore)
    ensures ModelField(g, "total_sleep", ValidateTotalSleep) == Success(s.totalSleep)
    ensures ModelField(g, "sleep_efficiency", ValidateSleepEfficiency) == Success(s.sleepEfficiency)
    ensures ModelField(g, "time_in_bed", ValidateTimeInBed) == Success(s.timeInBed)
    ensures ModelField(g, "rem_sleep", ValidateREMSleep) == Success(s.remSleep)
    ensures ModelField(g, "deep_sleep", ValidateDeepSleep) == Success(s.deepSleep)
    ensures ModelField(g, "light_sleep", ValidateLightSleep) == Success(s.lightSleep)
    ensures ModelField(g, "temperature_deviation", ValidateTemperatureDeviation) == Success(s.temperatureDeviation)
  {
    assert ModelField(g, "sleep_score", ValidateSleepScore) == Success(s.sleepScore) by {
      SleepScoreRoundTrip(s.sleepScore);
    }
    assert ModelField(g, "total_sleep", ValidateTotalSleep) == Success(s.totalSleep) by {
      TotalSleepRoundTrip(s.totalSleep);
    }
    assert ModelField(g, "sleep_efficiency", ValidateSleepEfficiency) == Success(s.sleepEfficiency) by {
      SleepEfficiencyRoundTrip(s.sleepEfficiency);
    }
    assert ModelField(g, "time_in_bed", ValidateTimeInBed) == Success(s.timeInBed) by {
      TimeInBedRoundTrip(s.timeInBed);
    }
    assert ModelField(g, "rem_sleep", ValidateREMSleep) == Success(s.remSleep) by {
      REMSleepRoundTrip(s.remSleep);
    }
    assert ModelField(g, "deep_sleep", ValidateDeepSleep) == Success(s.deepSleep) by {
      DeepSleepRoundTrip(s.deepSleep);
    }
    assert ModelField(g, "light_sleep", ValidateLightSleep) == Success(s.lightSleep) by {
      LightSleepRoundTrip(s.lightSleep);
    }
    assert ModelField(g, "temperature_deviation", ValidateTemperatureDeviation) == Success(s.temperatureDeviation) by {
      TemperatureDeviationRoundTrip(s.temperatureDeviation);
    }
  }

  /** The remaining summaries: heart-rate drop, restorative sleep, movement, alertness, cycles, turns and body temperature. */
  lemma SleepRecoveryFieldsFrom(g: Fields, s: SleepObject)
    requires "hr_drop" in g && g["hr_drop"] == EncodeOptional(s.hrDrop, EncodeSleepHRDrop)
    requires "restorative_sleep" in g && g["restorative_sleep"] == EncodeRestorativeSleep(s.restorativeSleep)
    requires "movements" in g && g["movements"] == EncodeMovements(s.movements)
    requires "morning_alertness" in g && g["morning_alertness"] == EncodeMorningAlertness(s.morningAlertness)
    requires "full_sleep_cycles" in g && g["full_sleep_cycles"] == EncodeFullSleepCycles(s.fullSleepCycles)
    requires "tosses_and_turns" in g && g["tosses_and_turns"] == EncodeTossesAndTurns(s.tossesAndTurns)
    requires "average_body_temperature" in g
      && g["average_body_temperature"] == EncodeAverageBodyTemperature(s.averageBodyTemperature)
    ensures OptionalField(g, "hr_drop", ValidateSleepHRDrop) == Success(s.hrDrop)
    ensures ModelField(g, "restorative_sleep", ValidateRestorativeSleep) == Success(s.restorativeSleep)
    ensures ModelField(g, "movements", ValidateMovements) == Success(s.movements)
    ensures ModelField(g, "morning_alertness", ValidateMorningAlertness) == Success(s.morningAlertness)
    ensures ModelField(g, "full_sleep_cycles", ValidateFullSleepCycles) == Success(s.fullSleepCycles)
    ensures ModelField(g, "tosses_and_turns", ValidateTossesAndTurns) == Success(s.tossesAndTurns)
    ensures ModelField(g, "average_body_temperature", ValidateAverageBodyTemperature) == Success(s.averageBodyTemperature)
  {
    assert OptionalField(g, "hr_drop", ValidateSleepHRDrop) == Success(s.hrDrop) by {
      if s.hrDrop.Some? { SleepHRDropRoundTrip(s.hrDrop.value); }
    }
    assert ModelField(g, "restorative_sleep", ValidateRestorativeSleep) == Success(s.restorativeSleep) by {
      RestorativeSleepRoundTrip(s.restorativeSleep);
    }
    assert ModelField(g, "movements", ValidateMovements) == Success(s.movements) by {
      MovementsRoundTrip(s.movements);
    }
    assert ModelField(g, "morning_alertness", ValidateMorningAlertness) == Success(s.morningAlertness) by {
      MorningAlertnessRoundTrip(s.morningAlertness);
    }
    assert ModelField(g, "full_sleep_cycles", ValidateFullSleepCycles) == Success(s.fullSleepCycles) by {
      FullSleepCyclesRoundTrip(s.fullSleepCycles);
    }
    assert ModelField(g, "tosses_and_turns", ValidateTossesAndTurns) == Success(s.tossesAndTurns) by {
      TossesAndTurnsRoundTrip(s.tossesAndTurns);
    }
    assert ModelField(g, "average_body_temperature", ValidateAverageBodyTemperature) == Success(s.averageBodyTemperature) by {
      AverageBodyTemperatureRoundTrip(s.averageBodyTemperature);
    }
  }

  lemma SleepObjectFromFields(g: Fields, s: SleepObject)
    requires "bedtime_start" in g && g["bedtime_start"] == JInt(s.bedtimeStart)
    requires "bedtime_end" in g && g["bedtime_end"] == JInt(s.bedtimeEnd)
    requires "quick_metrics" in g && g["quick_metrics"] == JArray(EncodeList(s.quickMetrics, EncodeQuickMetric))
    requires "quick_metrics_tiled" in g
      && g["quick_metrics_tiled"] == JArray(EncodeList(s.quickMetricsTiled, EncodeQuickMetricTiled))
    requires "sleep_stages" in g && g["sleep_stages"] == JArray(EncodeList(s.sleepStages, EncodeSleepStage))
    requires "sleep_graph" in g && g["sleep_graph"] == EncodeSleepGraph(s.sleepGraph)
    requires "movement_graph" in g && g["movement_graph"] == EncodeMovementGraph(s.movementGraph)
    requires "hr_graph" in g && g["hr_graph"] == EncodeHRGraph(s.hrGraph)
    requires "sleep_score" in g && g["sleep_score"] == EncodeSleepScore(s.sleepScore)
    requires "total_sleep" in g && g["total_sleep"] == EncodeTotalSleep(s.totalSleep)
    requires "sleep_efficiency" in g && g["sleep_efficiency"] == EncodeSleepEfficiency(s.sleepEfficiency)
    requires "time_in_bed" in g && g["time_in_bed"] == EncodeTimeInBed(s.timeInBed)
    requires "rem_sleep" in g && g["rem_sleep"] == EncodeREMSleep(s.remSleep)
    requires "deep_sleep" in g && g["deep_sleep"] == EncodeDeepSleep(s.deepSleep)
    requires "light_sleep" in g && g["light_sleep"] == EncodeLightSleep(s.lightSleep)
    requires "temperature_deviation" in g
      && g["temperature_deviation"] == EncodeTemperatureDeviation(s.temperatureDeviation)
    requires "hr_drop" in g && g["hr_drop"] == EncodeOptional(s.hrDrop, EncodeSleepHRDrop)
    requires "restorative_sleep" in g && g["restorative_sleep"] == EncodeRestorativeSleep(s.restorativeSleep)
    requires "movements" in g && g["movements"] == EncodeMovements(s.movements)
    requires "morning_alertness" in g && g["morning_alertness"] == EncodeMorningAlertness(s.morningAlertness)
    requires "full_sleep_cycles" in g && g["full_sleep_cycles"] == EncodeFullSleepCycles(s.fullSleepCycles)
    requires "tosses_and_turns" in g && g["tosses_and_turns"] == EncodeTossesAndTurns(s.tossesAndTurns)
    requires "average_body_temperature" in g
      && g["average_body_temperature"] == EncodeAverageBodyTemperature(s.averageBodyTemperature)
    ensures ValidateSleepObject(JObject(g)) == Success(s)
  {
    SleepListFieldsFrom(g, s);
    SleepGraphFieldsFrom(g, s);
    SleepStageFieldsFrom(g, s);
    SleepRecoveryFieldsFrom(g, s);
  }

  lemma SleepStageRoundTrip(x: SleepStage)
    ensures ValidateSleepStage(EncodeSleepStage(x)) == Success(x)
  {
  }

  lemma SleepScoreRoundTrip(x: SleepScore)
    ensures ValidateSleepScore(EncodeSleepScore(x)) == Success(x)
  {
  }

  lemma TotalSleepRoundTrip(x: TotalSleep)
    ensures ValidateTotalSleep(EncodeTotalSleep(x)) == Success(x)
  {
  }

  lemma SleepEfficiencyRoundTrip(x: SleepEfficiency)
    ensures ValidateSleepEfficiency(EncodeSleepEfficiency(x)) == Success(x)
  {
  }

  lemma TimeInBedRoundTrip(x: TimeInBed)
    ensures ValidateTimeInBed(EncodeTimeInBed(x)) == Success(x)
  {
  }

  lemma REMSleepRoundTrip(x: REMSleep)
    ensures ValidateREMSleep(EncodeREMSleep(x)) == Success(x)
  {
  }

  lemma DeepSleepRoundTrip(x: DeepSleep)
    ensures ValidateDeepSleep(EncodeDeepSleep(x)) == Success(x)
  {
  }

  lemma LightSleepRoundTrip(x: LightSleep)
    ensures ValidateLightSleep(EncodeLightSleep(x)) == Success(x)
  {
  }

  lemma TemperatureDeviationRoundTrip(x: TemperatureDeviation)
    ensures ValidateTemperatureDeviation(EncodeTemperatureDeviation(x)) == Success(x)
  {
  }

  lemma RestorativeSleepRoundTrip(x: RestorativeSleep)
    ensures ValidateRestorativeSleep(EncodeRestorativeSleep(x)) == Success(x)
  {
  }

  lemma MovementsRoundTrip(x: Movements)
    ensures ValidateMovements(EncodeMovements(x)) == Success(x)
  {
  }

  lemma MorningAlertnessRoundTrip(x: MorningAlertness)
    ensures ValidateMorningAlertness(EncodeMorningAlertness(x)) == Success(x)
  {
  }

  lemma FullSleepCyclesRoundTrip(x: FullSleepCycles)
    ensures ValidateFullSleepCycles(EncodeFullSleepCycles(x)) == Success(x)
  {
  }

  lemma TossesAndTurnsRoundTrip(x: TossesAndTurns)
    ensures ValidateTossesAndTurns(EncodeTossesAndTurns(x)) == Success(x)
  {
  }

  lemma AverageBodyTemperatureRoundTrip(x: AverageBodyTemperature)
    ensures ValidateAverageBodyTemperature(EncodeAverageBodyTemperature(x)) == Success(x)
  {
  }

  lemma SleepHRDropRoundTrip(x: SleepHRDrop)
    ensures ValidateSleepHRDrop(EncodeSleepHRDrop(x)) == Success(x)
  {
  }

  /** Every field of the sleep object, nested records and lists included, is
      read back from what it was written as. */
  lemma SleepObjectRoundTrip(s: SleepObject)
    ensures ValidateSleepObject(EncodeSleepObject(s)) == Success(s)
  {
    var bedtimeStart := JInt(s.bedtimeStart);
    var bedtimeEnd := JInt(s.bedtimeEnd);
    var quickMetrics := JArray(EncodeList(s.quickMetrics, EncodeQuickMetric));
    var quickMetricsTiled := JArray(EncodeList(s.quickMetricsTiled, EncodeQuickMetricTiled));
    var sleepStages := JArray(EncodeList(s.sleepStages, EncodeSleepStage));
    var sleepGraph := EncodeSleepGraph(s.sleepGraph);
    var movementGraph := EncodeMovementGraph(s.movementGraph);
    var hrGraph := EncodeHRGraph(s.hrGraph);
    var sleepScore := EncodeSleepScore(s.sleepScore);
    var totalSleep := EncodeTotalSleep(s.totalSleep);
    var sleepEfficiency := EncodeSleepEfficiency(s.sleepEfficiency);
    var timeInBed := EncodeTimeInBed(s.timeInBed);
    var remSleep := EncodeREMSleep(s.remSleep);
    var deepSleep := EncodeDeepSleep(s.deepSleep);
    var lightSleep := EncodeLightSleep(s.lightSleep);
    var temperatureDeviation := EncodeTemperatureDeviation(s.temperatureDeviation);
    var hrDrop := EncodeOptional(s.hrDrop, EncodeSleepHRDrop);
    var restorativeSleep := EncodeRestorativeSleep(s.restorativeSleep);
    var movements := EncodeMovements(s.movements);
    var morningAlertness := EncodeMorningAlertness(s.morningAlertness);
    var fullSleepCycles := EncodeFullSleepCycles(s.fullSleepCycles);
    var tossesAndTurns := EncodeTossesAndTurns(s.tossesAndTurns);
    var averageBodyTemperature := EncodeAverageBodyTemperature(s.averageBodyTemperature);
    SleepFieldsLookup1(bedtimeStart, bedtimeEnd, quickMetrics, quickMetricsTiled, sleepStages, sleepGraph, movementGraph, hrGraph, sleepScore, totalSleep, sleepEfficiency, timeInBed, remSleep, deepSleep, lightSleep, temperatureDeviation, hrDrop, restorativeSleep, movements, morningAlertness, fullSleepCycles, tossesAndTurns, averageBodyTemperature);
    SleepFieldsLookup2(bedtimeStart, bedtimeEnd, quickMetrics, quickMetricsTiled, sleepStages, sleepGraph, movementGraph, hrGraph, sleepScore, totalSleep, sleepEfficiency, timeInBed, remSleep, deepSleep, lightSleep, temperatureDeviation, hrDrop, restorativeSleep, movements, morningAlertness, fullSleepCycles, tossesAndTurns, averageBodyTemperature);
    SleepFieldsLookup3(bedtimeStart, bedtimeEnd, quickMetrics, quickMetricsTiled, sleepStages, sleepGraph, movementGraph, hrGraph, sleepScore, totalSleep, sleepEfficiency, timeInBed, remSleep, deepSleep, lightSleep, temperatureDeviation, hrDrop, restorativeSleep, movements, morningAlertness, fullSleepCycles, tossesAndTurns, averageBodyTemperature);
    SleepFieldsLookup4(bedtimeStart, bedtimeEnd, quickMetrics, quickMetricsTiled, sleepStages, sleepGraph, movementGraph, hrGraph, sleepScore, totalSleep, sleepEfficiency, timeInBed, remSleep, deepSleep, lightSleep, temperatureDeviation, hrDrop, restorativeSleep, movements, morningAlertness, fullSleepCycles, tossesAndTurns, averageBodyTemperature);
    SleepFieldsLookup5(bedtimeStart, bedtimeEnd, quickMetrics, quickMetricsTiled, sleepStages, sleepGraph, movementGraph, hrGraph, sleepScore, totalSleep, sleepEfficiency, timeInBed, remSleep, deepSleep, lightSleep, temperatureDeviation, hrDrop, restorativeSleep, movements, morningAlertness, fullSleepCycles, tossesAndTurns, averageBodyTemperature);
    SleepFieldsLookup6(bedtimeStart, bedtimeEnd, quickMetrics, quickMetricsTiled, sleepStages, sleepGraph, movementGraph, hrGraph, sleepScore, totalSleep, sleepEfficiency, timeInBed, remSleep, deepSleep, lightSleep, temperatureDeviation, hrDrop, restorativeSleep, movements, morningAlertness, fullSleepCycles, tossesAndTurns, averageBodyTemperature);
    SleepFieldsLookup7(bedtimeStart, bedtimeEnd, quickMetrics, quickMetricsTiled, sleepStages, sleepGraph, movementGraph, hrGraph, sleepScore, totalSleep, sleepEfficiency, timeInBed, remSleep, deepSleep, lightSleep, temperatureDeviation, hrDrop, restorativeSleep, movements, morningAlertness, fullSleepCycles, tossesAndTurns, averageBodyTemperature);
    SleepFieldsLookup8(bedtimeStart, bedtimeEnd, quickMetrics, quickMetricsTiled, sleepStages, sleepGraph, movementGraph, hrGraph, sleepScore, totalSleep, sleepEfficiency, timeInBed, remSleep, deepSleep, lightSleep, temperatureDeviation, hrDrop, restorativeSleep, movements, morningAlertness, fullSleepCycles, tossesAndTurns, averageBodyTemperature);
    SleepFieldsLookup9(bedtimeStart, bedtimeEnd, quickMetrics, quickMetricsTiled, sleepStages, sleepGraph, movementGraph, hrGraph, sleepScore, totalSleep, sleepEfficiency, timeInBed, remSleep, deepSleep, lightSleep, temperatureDeviation, hrDrop, restorativeSleep, movements, morningAlertness, fullSleepCycles, tossesAndTurns, averageBodyTemperature);
    SleepFieldsLookup10(bedtimeStart, bedtimeEnd, quickMetrics, quickMetricsTiled, sleepStages, sleepGraph, movementGraph, hrGraph, sleepScore, totalSleep, sleepEfficiency, timeInBed, remSleep, deepSleep, lightSleep, temperatureDeviation, hrDrop, restorativeSleep, movements, morningAlertness, fullSleepCycles, tossesAndTurns, averageBodyTemperature);
    SleepFieldsLookup11(bedtimeStart, bedtimeEnd, quickMetrics, quickMetricsTiled, sleepStages, sleepGraph, movementGraph, hrGraph, sleepScore, totalSleep, sleepEfficiency, timeInBed, remSleep, deepSleep, lightSleep, temperatureDeviation, hrDrop, restorativeSleep, movements, morningAlertness, fullSleepCycles, tossesAndTurns, averageBodyTemperature);
    SleepObjectFromFields(EncodeSleepObject(s).fields, s);
  }

  // The enumerations

  /** A sleep-stage entry validates only with one of the four stage names. */
  lemma SleepStageTypeDecides(s: SleepStage, kind: Json)
    ensures ValidateSleepStage(JObject(EncodeSleepStage(s).fields["type" := kind])).Success?
        <==> kind in {JString("deep_sleep"), JString("light_sleep"), JString("rem_sleep"), JString("awake")}
  {
  }

  /** A sleep-graph interval validates only with one of the four stage names. */
  lemma SleepGraphEntryTypeDecides(e: SleepGraphEntry, kind: Json)
    ensures ValidateSleepGraphEntry(JObject(EncodeSleepGraphEntry(e).fields["type" := kind])).Success?
        <==> kind in {JString("deep_sleep"), JString("light_sleep"), JString("rem_sleep"), JString("awake")}
  {
  }

  /** A movement event validates only with one of the three intensities. */
  lemma MovementTypeDecides(e: MovementGraphEntry, kind: Json)
    ensures ValidateMovementGraphEntry(JObject(EncodeMovementGraphEntry(e).fields["type" := kind])).Success?
        <==> kind in {JString("light"), JString("medium"), JString("vigorous")}
  {
  }
}
