# Ultrahuman API client — a Dafny model

This project models the core of `ultrahuman_api_client`, a Python client for
the Ultrahuman partner API's `daily_metrics` endpoint, and proves properties of
that model:

- **The response decoder** (`models.py`): the pydantic models of the response
  envelope (`UltrahumanResponse`, `UltrahumanData`), the metric records (heart
  rate, temperature, SpO2, HRV, steps, night resting heart rate, simple values,
  indices and the large sleep record with its sub-records), their explicit
  validators (non-negative timestamps, HTTP-range status, the `Literal`
  enumerations), and `MetricEntry.validate_metric_data`, which picks a model
  class from the entry's `type` tag through a 13-entry table and replaces the
  payload by the validated record, or keeps the payload as given.
- **The error hierarchy** (`exceptions.py`): `UltrahumanAPIError` with its
  message and optional status code, the four subclasses that fix 401, 400, 404
  and 500, their default messages, and `str(error)`.
- **`get_daily_metrics`** (`client.py`): building the query parameters from the
  date-or-epochs selector, choosing the message of an HTTP error, the
  status-to-error table (shared by HTTP errors and errors reported inside a 2xx
  envelope), and wrapping network and decoding failures.

Validation is modelled as functions from a `Json` datatype to
`Result<T, string>` (`Check<T>`), written field by field in the models'
declaration order. Each validator has an encoder that writes a record back to
JSON. Round-trip lemmas (validating the JSON of a record gives that record
back) are the partner properties of the validators. The HTTP call is a
parameter: the model starts from the outcome the transport produced.

Modules:

- `Wrappers`: `Option` and `Result`.
- `JsonValue`: the JSON value, field access, and the shared field validators and encoders.
- `Decimal`: Python's `str(int)` and zero-padded digits, with the functions that read them back.
- `Exceptions`: the error hierarchy.
- `MetricModels`: the plain metric records.
- `SleepModels` and `SleepRoundTrip`: the sleep record.
- `MetricEntries`: the tag table, dispatch and entries.
- `Responses`: the envelope and `from_json`.
- `Client`: `get_daily_metrics`.

Two details of the code are kept as written, though a reader might expect
otherwise:

- For an HTTP error whose body is a JSON object with neither an `error` nor a
  `message` string, the code uses the text of the status error, not the raw
  body text (`client.py:189-194`). The raw body text is used only when the
  body is not JSON at all (`client.py:197-198`).
- An envelope `error` is checked for truthiness (`client.py:221`). An empty
  string does not raise; only a non-empty one does.

## Model

| member | source | states |
|---|---|---|
| `Exceptions.NewApiError` | src/ultrahuman_api_client/exceptions.py:7-16 | the error keeps the message and status code it was given (status absent by default); it belongs to the base class and to no subclass, so an `except` clause for a subclass does not catch it |
| `Exceptions.NewAuthenticationError` | src/ultrahuman_api_client/exceptions.py:25-31 | status is 401 whatever the message; the default message is the fixed authentication text; an instance of both its class and the base class |
| `Exceptions.NewBadRequestError` | src/ultrahuman_api_client/exceptions.py:34-44 | status is 400 whatever the message; fixed default message; an instance of both its class and the base class |
| `Exceptions.NewNotFoundError` | src/ultrahuman_api_client/exceptions.py:47-59 | status is 404 whatever the message; fixed default message; an instance of both its class and the base class |
| `Exceptions.NewInternalServerError` | src/ultrahuman_api_client/exceptions.py:62-72 | status is 500 whatever the message; fixed default message; an instance of both its class and the base class |
| `Exceptions.Render` | src/ultrahuman_api_client/exceptions.py:18-22 | without a status the text is exactly the message; with one it is `[`, the status as Python's `str` writes it (`Decimal.IntToDecimal`), `] ` and the message, and it reads back to the status and the message |
| `Exceptions.RenderedParsesBack` | src/ultrahuman_api_client/exceptions.py:21 | the text `[<str(status)>] <message>` reads back to exactly that status and message |
| `Exceptions.RenderInjective` | src/ultrahuman_api_client/exceptions.py:18-22 | two errors with a status render to the same text if and only if they have the same status and the same message |
| `Decimal.IntToDecimal` | src/ultrahuman_api_client/exceptions.py:21 | the text of `str(n)` is in Python's form: a minus sign exactly when `n` is negative, no leading zero except for "0" itself, never "-0" |
| `Decimal.CanonicalDecimalUnique` | src/ultrahuman_api_client/client.py:164-165 | a text in Python's form that reads back to `n` is exactly `str(n)`, so texts such as "007" are never produced |
| `Decimal.DecimalRoundTrip` | src/ultrahuman_api_client/client.py:164-165 | the text `str(n)` of any integer reads back to `n` |
| `Decimal.DecimalInjective` | src/ultrahuman_api_client/client.py:164-165 | two integers have the same `str` text if and only if they are equal |
| `JsonValue.ListOf` | src/ultrahuman_api_client/models.py:35 | a list validates if and only if every element does, and then holds each element's validated value at the same position |
| `JsonValue.OptionalField` | src/ultrahuman_api_client/models.py:413 | an optional field that is missing or null gives `None`; otherwise it gives the element validator's value or its error |
| `JsonValue.ListRoundTrip` | src/ultrahuman_api_client/models.py:35 | when each element validates back from its JSON, the whole list does |
| `JsonValue.OptionalRoundTrip` | src/ultrahuman_api_client/models.py:413 | an optional value written as JSON (null for `None`) validates back to itself |
| `MetricModels.ValidateTrendDirection` | src/ultrahuman_api_client/models.py:43 | accepts exactly the strings "positive" and "negative", and "positive" gives `Positive` |
| `MetricModels.ValidateMetricValue` | src/ultrahuman_api_client/models.py:9-26 | a reading validates if and only if it is an object whose `value` is a JSON number and whose `timestamp` is an integer >= 0 (`validate_timestamp`); the value becomes the equal float and the timestamp is kept |
| `MetricModels.ValidateBaseMetric` | src/ultrahuman_api_client/models.py:29-35 | validates if and only if it is an object holding an integer `day_start_timestamp`, string `title` and `unit`, a number `last_reading` and a list of valid readings under `values`; the record holds exactly those values |
| `MetricModels.ValidateTrendMetric` | src/ultrahuman_api_client/models.py:38-43 | validates if and only if the inherited fields validate, `avg` is a number, `subtitle` and `trend_title` are strings and `trend_direction` is "positive" or "negative"; the record holds exactly those values |
| `MetricModels.ValidateStepsMetric` | src/ultrahuman_api_client/models.py:46-54 | validates if and only if it is an object holding an integer `day_start_timestamp`, a list of valid readings, string `subtitle` and `trend_title`, numbers `total` and `avg` and a valid `trend_direction`; the record holds exactly those values |
| `MetricModels.ValidateSimpleValue` | src/ultrahuman_api_client/models.py:57-60 | validates if and only if it is an object holding a number `value` and an integer `day_start_timestamp`; the record holds exactly those values |
| `MetricModels.ValidateIndexValue` | src/ultrahuman_api_client/models.py:63-67 | validates if and only if it is an object holding a number `value`, a string `title` and an integer `day_start_timestamp`; the record holds exactly those values |
| `MetricModels.NegativeTimestampRejected` | src/ultrahuman_api_client/models.py:20-26 | a metric value with a negative integer timestamp fails validation whatever its other fields |
| `MetricModels.ReadingAccepted` | src/ultrahuman_api_client/models.py:14-26 | a value given as an integer or a float and any timestamp >= 0 are accepted; the integer becomes the equal real and the timestamp is kept unchanged |
| `MetricModels.MetricValueRoundTrip` | src/ultrahuman_api_client/models.py:9-26 | every metric value validates back from its JSON |
| `MetricModels.MetricValuesRoundTrip` | src/ultrahuman_api_client/models.py:35 | every list of metric values validates back from its JSON |
| `MetricModels.BaseMetricFromFields` | src/ultrahuman_api_client/models.py:29-35 | any object whose five fields hold a base metric's JSON (other keys whatever) validates to that metric |
| `MetricModels.BaseMetricRoundTrip` | src/ultrahuman_api_client/models.py:29-35 | every base metric record validates back from its JSON |
| `MetricModels.TrendMetricFromFields` | src/ultrahuman_api_client/models.py:38-43 | when the other fields hold a trend record's JSON, validation succeeds exactly when `trend_direction` does, with that direction, and otherwise fails with its error |
| `MetricModels.TrendMetricRoundTrip` | src/ultrahuman_api_client/models.py:38-43 | every record with a trend validates back from its JSON |
| `MetricModels.StepsMetricFromFields` | src/ultrahuman_api_client/models.py:46-54 | the same for the steps record: the outcome is decided by `trend_direction` alone |
| `MetricModels.StepsMetricRoundTrip` | src/ultrahuman_api_client/models.py:46-54 | every steps record validates back from its JSON |
| `MetricModels.SimpleValueRoundTrip` | src/ultrahuman_api_client/models.py:57-60 | every simple value record validates back from its JSON |
| `MetricModels.IndexValueRoundTrip` | src/ultrahuman_api_client/models.py:63-67 | every index record validates back from its JSON |
| `MetricModels.TrendDirectionDecides` | src/ultrahuman_api_client/models.py:38-43 | an HRV or night resting heart rate object validates if and only if its `trend_direction` is "positive" or "negative" |
| `MetricModels.StepsTrendDirectionDecides` | src/ultrahuman_api_client/models.py:46-54 | a steps object validates if and only if its `trend_direction` is "positive" or "negative" |
| `SleepModels.ValidateStageType` | src/ultrahuman_api_client/models.py:142 | accepts exactly "deep_sleep", "light_sleep", "rem_sleep" and "awake" |
| `SleepModels.ValidateMovementType` | src/ultrahuman_api_client/models.py:159 | accepts exactly "light", "medium" and "vigorous" |
| `SleepModels.ValidateTrackingParam` | src/ultrahuman_api_client/models.py:108-111 | validates if and only if it is an object holding string `key_name` and `value`; the record holds exactly those values |
| `SleepModels.ValidateQuickMetric` | src/ultrahuman_api_client/models.py:114-124 | validates if and only if it is an object holding string `title`, `display_text` and `type`, a number `value` kept as integer or float, and optional `unit`, `deeplink`, `education_modal_deeplink`, `tracking_params` and `display_text_marked_up` (missing or null gives none); the record holds exactly those values |
| `SleepModels.ValidateQuickMetricTiled` | src/ultrahuman_api_client/models.py:127-136 | validates if and only if it is an object holding string `title`, `value`, `tag`, `tag_color`, `deeplink`, `trends_unit` and `type`, and a number `trends_value` kept as integer or float; the record holds exactly those values |
| `SleepModels.ValidateSleepStage` | src/ultrahuman_api_client/models.py:139-145 | validates if and only if it is an object holding a string `title`, a `type` among the four stage names, integer `percentage` and `stage_time` and a string `stage_time_text`; the record holds exactly those values |
| `SleepModels.ValidateSleepGraphEntry` | src/ultrahuman_api_client/models.py:148-153 | validates if and only if it is an object holding integer `start` and `end`, a `type` among the four stage names and an optional integer `toss_turn`; the record holds exactly those values |
| `SleepModels.ValidateMovementGraphEntry` | src/ultrahuman_api_client/models.py:156-159 | validates if and only if it is an object holding an integer `timestamp` and a `type` among the three intensities; the record holds exactly those values |
| `SleepModels.ValidateHRGraphEntry` | src/ultrahuman_api_client/models.py:162-165 | validates if and only if it is an object holding a number `value` and an integer `timestamp`; the record holds exactly those values |
| `SleepModels.ValidateMarkPoint` | src/ultrahuman_api_client/models.py:168-172 | validates if and only if it is an object holding string `mark_type` and `mark_color` and an integer `mark_point`; the record holds exactly those values |
| `SleepModels.ValidateBadge` | src/ultrahuman_api_client/models.py:182-185 | validates if and only if it is an object holding string `text` and `type`; the record holds exactly those values |
| `SleepModels.ValidateSleepScore` | src/ultrahuman_api_client/models.py:188-190 | validates if and only if it is an object holding an integer `score`; the record holds exactly those values |
| `SleepModels.ValidateTotalSleep` | src/ultrahuman_api_client/models.py:193-199 | validates if and only if it is an object holding integer `minutes`, `hours`, `remaining_minutes` and `seconds` and a valid `badge`; the record holds exactly those values |
| `SleepModels.ValidateSleepEfficiency` | src/ultrahuman_api_client/models.py:202-205 | validates if and only if it is an object holding integer `percentage` and `contributor`; the record holds exactly those values |
| `SleepModels.ValidateTimeInBed` | src/ultrahuman_api_client/models.py:208-213 | validates if and only if it is an object holding integer `minutes`, `hours` and `remaining_minutes` and a valid `badge`; the record holds exactly those values |
| `SleepModels.ValidateREMSleep` | src/ultrahuman_api_client/models.py:216-223 | validates if and only if it is an object holding integer `minutes`, `seconds`, `hours` and `remaining_minutes` and number `percentage` and `contributor`; the record holds exactly those values |
| `SleepModels.ValidateDeepSleep` | src/ultrahuman_api_client/models.py:226-232 | validates if and only if it is an object holding integer `minutes`, `seconds`, `hours` and `remaining_minutes` and a number `contributor`; the record holds exactly those values |
| `SleepModels.ValidateLightSleep` | src/ultrahuman_api_client/models.py:235-241 | validates if and only if it is an object holding integer `minutes`, `seconds`, `percentage`, `hours` and `remaining_minutes`; the record holds exactly those values |
| `SleepModels.ValidateTemperatureDeviation` | src/ultrahuman_api_client/models.py:244-247 | validates if and only if it is an object holding a number `celsius` and an integer `contributor`; the record holds exactly those values |
| `SleepModels.ValidateRestorativeSleep` | src/ultrahuman_api_client/models.py:250-253 | validates if and only if it is an object holding an integer `percentage` and a valid `badge`; the record holds exactly those values |
| `SleepModels.ValidateMovements` | src/ultrahuman_api_client/models.py:256-258 | validates if and only if it is an object holding an integer `count`; the record holds exactly those values |
| `SleepModels.ValidateMorningAlertness` | src/ultrahuman_api_client/models.py:261-263 | validates if and only if it is an object holding an integer `minutes`; the record holds exactly those values |
| `SleepModels.ValidateFullSleepCycles` | src/ultrahuman_api_client/models.py:266-268 | validates if and only if it is an object holding an integer `cycles`; the record holds exactly those values |
| `SleepModels.ValidateTossesAndTurns` | src/ultrahuman_api_client/models.py:271-273 | validates if and only if it is an object holding an integer `count`; the record holds exactly those values |
| `SleepModels.ValidateAverageBodyTemperature` | src/ultrahuman_api_client/models.py:276-279 | validates if and only if it is an object holding a number `celsius` and an integer `contributor`; the record holds exactly those values |
| `SleepModels.ValidateSleepGraph` | src/ultrahuman_api_client/models.py:282-286 | validates if and only if it is an object holding a string `title`, a list of valid intervals under `data` and an optional string `education_modal_deeplink`; the record holds exactly those values |
| `SleepModels.ValidateMovementGraph` | src/ultrahuman_api_client/models.py:289-292 | validates if and only if it is an object holding a string `title` and a list of valid movement events under `data`; the record holds exactly those values |
| `SleepModels.ValidateHRGraph` | src/ultrahuman_api_client/models.py:295-299 | validates if and only if it is an object holding a string `title`, a list of valid heart-rate samples under `data` and an optional list of valid marks under `marks`; the record holds exactly those values |
| `SleepModels.ValidateSleepHRDrop` | src/ultrahuman_api_client/models.py:302-305 | validates if and only if it is an object holding an optional integer `timestamp` and an optional number `value`; the record holds exactly those values |
| `SleepModels.ValidateSleepObject` | src/ultrahuman_api_client/models.py:312-336 | validates if and only if it is an object holding integer `bedtime_start` and `bedtime_end`, valid lists under the three list fields, valid records under the graph and summary fields and an optional valid `hr_drop`; the record holds exactly those values |
| `SleepRoundTrip.SleepStageTypeDecides` | src/ultrahuman_api_client/models.py:139-145 | a sleep stage validates if and only if its `type` is one of the four stage names |
| `SleepRoundTrip.SleepGraphEntryTypeDecides` | src/ultrahuman_api_client/models.py:148-153 | a sleep-graph interval validates if and only if its `type` is one of the four stage names |
| `SleepRoundTrip.MovementTypeDecides` | src/ultrahuman_api_client/models.py:156-159 | a movement event validates if and only if its `type` is one of the three intensities |
| `SleepRoundTrip.QuickMetricFromFields` | src/ultrahuman_api_client/models.py:114-124 | any object whose fields hold a quick metric's JSON validates to that quick metric, optional fields and tracking parameters included |
| `SleepRoundTrip.OptStrRoundTrip` | src/ultrahuman_api_client/models.py:118 | an optional string written as JSON validates back to itself |
| `SleepRoundTrip.QuickMetricRoundTrip` | src/ultrahuman_api_client/models.py:114-124 | every quick metric validates back from its JSON |
| `SleepRoundTrip.QuickMetricsRoundTrip` | src/ultrahuman_api_client/models.py:316 | every list of quick metrics validates back from its JSON |
| `SleepRoundTrip.QuickMetricTiledRoundTrip` | src/ultrahuman_api_client/models.py:127-136 | every tiled quick metric validates back from its JSON |
| `SleepRoundTrip.SleepStageRoundTrip` | src/ultrahuman_api_client/models.py:139-145 | every sleep stage validates back from its JSON |
| `SleepRoundTrip.SleepGraphEntryRoundTrip` | src/ultrahuman_api_client/models.py:148-153 | every sleep-graph interval validates back from its JSON |
| `SleepRoundTrip.SleepGraphRoundTrip` | src/ultrahuman_api_client/models.py:282-286 | every sleep graph validates back from its JSON |
| `SleepRoundTrip.MovementGraphRoundTrip` | src/ultrahuman_api_client/models.py:289-292 | every movement graph validates back from its JSON |
| `SleepRoundTrip.HRGraphRoundTrip` | src/ultrahuman_api_client/models.py:295-299 | every heart-rate graph validates back from its JSON, marks present or not |
| `SleepRoundTrip.SleepScoreRoundTrip` | src/ultrahuman_api_client/models.py:188-190 | the sleep score validates back from its JSON |
| `SleepRoundTrip.TotalSleepRoundTrip` | src/ultrahuman_api_client/models.py:193-199 | the total-sleep record validates back from its JSON |
| `SleepRoundTrip.SleepEfficiencyRoundTrip` | src/ultrahuman_api_client/models.py:202-205 | the sleep-efficiency record validates back from its JSON |
| `SleepRoundTrip.TimeInBedRoundTrip` | src/ultrahuman_api_client/models.py:208-213 | the time-in-bed record validates back from its JSON |
| `SleepRoundTrip.REMSleepRoundTrip` | src/ultrahuman_api_client/models.py:216-223 | the REM-sleep record validates back from its JSON |
| `SleepRoundTrip.DeepSleepRoundTrip` | src/ultrahuman_api_client/models.py:226-232 | the deep-sleep record validates back from its JSON |
| `SleepRoundTrip.LightSleepRoundTrip` | src/ultrahuman_api_client/models.py:235-241 | the light-sleep record validates back from its JSON |
| `SleepRoundTrip.TemperatureDeviationRoundTrip` | src/ultrahuman_api_client/models.py:244-247 | the temperature-deviation record validates back from its JSON |
| `SleepRoundTrip.RestorativeSleepRoundTrip` | src/ultrahuman_api_client/models.py:250-253 | the restorative-sleep record validates back from its JSON |
| `SleepRoundTrip.MovementsRoundTrip` | src/ultrahuman_api_client/models.py:256-258 | the movements record validates back from its JSON |
| `SleepRoundTrip.MorningAlertnessRoundTrip` | src/ultrahuman_api_client/models.py:261-263 | the morning-alertness record validates back from its JSON |
| `SleepRoundTrip.FullSleepCyclesRoundTrip` | src/ultrahuman_api_client/models.py:266-268 | the full-sleep-cycles record validates back from its JSON |
| `SleepRoundTrip.TossesAndTurnsRoundTrip` | src/ultrahuman_api_client/models.py:271-273 | the tosses-and-turns record validates back from its JSON |
| `SleepRoundTrip.AverageBodyTemperatureRoundTrip` | src/ultrahuman_api_client/models.py:276-279 | the average-body-temperature record validates back from its JSON |
| `SleepRoundTrip.SleepHRDropRoundTrip` | src/ultrahuman_api_client/models.py:302-305 | the heart-rate-drop record validates back from its JSON, each optional field present or not |
| `SleepRoundTrip.SleepListFieldsFrom` | src/ultrahuman_api_client/models.py:316-318 | the three list fields of a sleep object validate back to their lists |
| `SleepRoundTrip.SleepGraphFieldsFrom` | src/ultrahuman_api_client/models.py:319-321 | the three graph fields of a sleep object validate back to their graphs |
| `SleepRoundTrip.SleepStageFieldsFrom` | src/ultrahuman_api_client/models.py:322-329 | the score, totals, efficiency, stage and temperature fields validate back to their records |
| `SleepRoundTrip.SleepRecoveryFieldsFrom` | src/ultrahuman_api_client/models.py:330-336 | the optional heart-rate drop and the remaining summary fields validate back to their records |
| `SleepRoundTrip.SleepObjectFromFields` | src/ultrahuman_api_client/models.py:312-336 | any object whose 23 fields hold a sleep record's JSON validates to that sleep record |
| `SleepRoundTrip.SleepObjectRoundTrip` | src/ultrahuman_api_client/models.py:312-336 | every sleep record validates back from its JSON |
| `MetricEntries.ValidateAs` | src/ultrahuman_api_client/models.py:390 | whatever `model_validate` of a class accepts is a record of that class |
| `MetricEntries.ValidatorCases` | src/ultrahuman_api_client/models.py:369-383 | the validator a class stands for in the type table is that class's own `model_validate`: the metric classes' wrappers and the sleep record validator |
| `MetricEntries.ValidatorKeepsClass` | src/ultrahuman_api_client/models.py:390 | each class's validator yields only records of that class |
| `MetricEntries.ValidatePayload` | src/ultrahuman_api_client/models.py:389-390 | a typed payload is accepted if and only if it is of the class, and then unchanged; anything accepted is of the class |
| `MetricEntries.Dispatch` | src/ultrahuman_api_client/models.py:385-395 | the payload changes only from raw JSON to a typed record of the tag's class under a known tag; a typed payload, an unknown tag or a null payload leaves it as given |
| `MetricEntries.ValidateEntry` | src/ultrahuman_api_client/models.py:360-397 | an entry validates if and only if it is an object with a string `type` and an `object` key; the tag is that string and the payload is what dispatch makes of the `object` value |
| `MetricEntries.ObjectRoundTrip` | src/ultrahuman_api_client/models.py:343-353 | every record of every metric class validates back from its JSON under its own class |
| `MetricEntries.HeartRateClassRoundTrip` | src/ultrahuman_api_client/models.py:74-76 | a heart-rate record validates back under the heart-rate class |
| `MetricEntries.TemperatureClassRoundTrip` | src/ultrahuman_api_client/models.py:79-81 | a temperature record validates back under the temperature class |
| `MetricEntries.SPO2ClassRoundTrip` | src/ultrahuman_api_client/models.py:84-86 | an SpO2 record validates back under the SpO2 class |
| `MetricEntries.HRVClassRoundTrip` | src/ultrahuman_api_client/models.py:89-91 | an HRV record validates back under the HRV class |
| `MetricEntries.StepsClassRoundTrip` | src/ultrahuman_api_client/models.py:94-96 | a steps record validates back under the steps class |
| `MetricEntries.NightRHRClassRoundTrip` | src/ultrahuman_api_client/models.py:99-101 | a night resting heart rate record validates back under its class |
| `MetricEntries.SimpleClassRoundTrip` | src/ultrahuman_api_client/models.py:57-60 | a simple value record validates back under the simple value class |
| `MetricEntries.IndexClassRoundTrip` | src/ultrahuman_api_client/models.py:63-67 | an index record validates back under the index class |
| `MetricEntries.SleepClassRoundTrip` | src/ultrahuman_api_client/models.py:312-336 | a sleep record validates back under the sleep class |
| `MetricEntries.DispatchKnownTag` | src/ultrahuman_api_client/models.py:385-395 | under a known tag a non-null JSON payload becomes the validated record when validation succeeds and is kept exactly when it fails |
| `MetricEntries.DispatchWellFormed` | src/ultrahuman_api_client/models.py:369-391 | under every known tag, the JSON of any record of the tag's class becomes exactly that record |
| `MetricEntries.TypeMappingEntries` | src/ultrahuman_api_client/models.py:369-383 | the table maps each of the 13 tags to its class (for example "hr" to heart rate, "steps" to steps, "recovery_index" to index), and its keys are exactly those 13 tags |
| `MetricEntries.DispatchKeepsTyped` | src/ultrahuman_api_client/models.py:389 | a payload that is already a typed record is left untouched under any tag |
| `MetricEntries.DispatchIdempotent` | src/ultrahuman_api_client/models.py:385-397 | running the validator a second time changes nothing |
| `MetricEntries.ValidatedEntryStable` | src/ultrahuman_api_client/models.py:360-397 | a validated entry, written back to JSON, validates to the same entry |
| `MetricEntries.EntryRoundTrip` | src/ultrahuman_api_client/models.py:360-363 | a stable entry validates back from its JSON |
| `Responses.ValidateStatus` | src/ultrahuman_api_client/models.py:416-422 | a status is accepted if and only if it lies in 100..599, and is then kept unchanged |
| `Responses.ValidateMetrics` | src/ultrahuman_api_client/models.py:406 | the metrics map validates if and only if every value is a list of valid entries; the keys are kept and each value is its validated list |
| `Responses.ValidateData` | src/ultrahuman_api_client/models.py:404-407 | data validates exactly to the validated metrics map and the `latest_time_zone` string of its JSON, and any object holding a valid metrics map and a time zone string validates, other keys whatever |
| `Responses.ValidateResponse` | src/ultrahuman_api_client/models.py:410-422 | a validated envelope carries the JSON's integer status, which lies in 100..599; an integer status outside that range fails the whole envelope; `error` is absent exactly when its key is missing or null, and is otherwise the JSON's error string; a non-null error that is not a string fails the envelope; the data is the validated `data`; an object with an integer status in range, an absent, null or string error and valid data validates to exactly those values |
| `Responses.FromJson` | src/ultrahuman_api_client/models.py:424-451 | text that is not JSON gives "Invalid JSON string: ..."; otherwise the result succeeds exactly when the envelope validates, and a validation failure gives "Failed to parse UltrahumanResponse: ..." |
| `Responses.EntriesRoundTrip` | src/ultrahuman_api_client/models.py:406 | a list of stable entries validates back from its JSON |
| `Responses.MetricsRoundTrip` | src/ultrahuman_api_client/models.py:406 | a metrics map of stable entries validates back from its JSON |
| `Responses.ResponseRoundTrip` | src/ultrahuman_api_client/models.py:410-414 | a well-formed envelope validates back from its JSON |
| `Responses.ValidatedWellFormed` | src/ultrahuman_api_client/models.py:410-422 | every envelope that validates is well formed: valid status and stable entries |
| `Responses.ValidateEncodeValidate` | src/ultrahuman_api_client/models.py:410-422 | validating, writing back and validating again gives the same envelope |
| `Client.IsoFormat` | src/ultrahuman_api_client/client.py:162 | the date text is ten characters with dashes at positions 4 and 7 |
| `Client.IsoFormatRoundTrip` | src/ultrahuman_api_client/client.py:162 | the `date` parameter text reads back to the date it was made from |
| `Client.BuildParams` | src/ultrahuman_api_client/client.py:159-170 | fails, with the `ValueError` text, exactly when there is no date and an epoch is missing; otherwise the parameters are exactly the date (the date wins over the epochs) or exactly the two epochs written as `str(n)`, each reading back to its value, with `email` present if and only if one was given |
| `Client.StringAt` | src/ultrahuman_api_client/client.py:184-192 | a key's value is found if and only if the body is an object whose value at that key is a string |
| `Client.ErrorMessage` | src/ultrahuman_api_client/client.py:179-198 | the message is the `error` string if there is one, else the `message` string, else the status error's text; a body that is not JSON gives its text unless that is empty |
| `Client.ErrorForStatus` | src/ultrahuman_api_client/client.py:200-210 | the error keeps the message and carries exactly the given status; it is the base class if and only if the status is not 400, 401, 404 or 500 |
| `Client.DecodeSuccess` | src/ultrahuman_api_client/client.py:216-239 | a validated envelope whose `error` is absent or empty returns its data, and nothing else succeeds; a non-empty envelope error raises by the status table with the envelope's status; a body that is not JSON, or one whose envelope fails validation, gives the base error "Failed to parse response: ..." without status |
| `Client.HandleOutcome` | src/ultrahuman_api_client/client.py:174-239 | an HTTP error raises by the status table with the chosen message; a network failure raises the base error "Request failed: ..." without status; a 2xx response is decoded |
| `Client.GetDailyMetrics` | src/ultrahuman_api_client/client.py:132-239 | without a date and with an epoch missing, it raises the parameter error and sends nothing; otherwise it sends a query that describes its arguments and returns the handled outcome |
| `Client.EnvelopeErrorSharesTable` | src/ultrahuman_api_client/client.py:221-233 | a non-empty envelope error raises what an HTTP error with the envelope's status and that message raises |
| `Client.SuccessReturnsData` | src/ultrahuman_api_client/client.py:216-235 | a well-formed envelope without an error, sent in a 2xx response, returns its data |
| `Client.FailureStatus` | src/ultrahuman_api_client/client.py:174-239 | an HTTP error carries the status received, which is not a 2xx status for an outcome `raise_for_status` can report; a network failure carries none; a failure after a 2xx carries none or an envelope status in 100..599 |

## Left out

- HTTP transport: `httpx.Client`, `raise_for_status`, the base URL, and `close` with the context manager (`client.py:56-96`). The call is the parameter `send` of `Client.GetDailyMetrics`. It returns an abstract `HttpOutcome`: a 2xx body, any other status with its body and the text of the status error, or a network failure with its text. Every non-2xx status is treated as an error, as `raise_for_status` does.
- The client object's fields (`_api_key`, `_base_url`, `_client`) and construction: credential loading from the environment and `.env`, `SecretStr`, and the `ValueError` for a missing key (`client.py:25-64`). These are environment I/O.
- Logging through `loguru`.
- JSON text parsing (`json.loads`, `response.json()`). A body or a `from_json` argument carries the outcome of decoding as a `Result`, so "not JSON" is an input variant.
- Pydantic's lax coercions (numeric strings, booleans, `5.0` for an `int` field) and its collection of every validation error. A field of `int` kind accepts a JSON integer; a float field accepts a JSON integer or a float, and the integer becomes the equal real. Only success or failure, and the first failing field's message, is modelled. The messages are the model's own wording, except the texts the source writes out (the `ValueError` and error-class messages).
- Floating point: `float` values are `real` and are only stored, never computed with.
- `GraphData` (`models.py:175-179`): no other model uses it, so its smart-mode `Union` is not modelled.
- `date` objects are taken to be valid calendar dates (`requires ValidDate`), as Python guarantees for any `date` instance.
