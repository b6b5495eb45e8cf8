/** `UltrahumanAPIClient.get_daily_metrics`: building the query parameters
    from the date-or-epochs selector, and turning the outcome of the HTTP
    call into either the metric data or an error of the client's error
    hierarchy. The HTTP call itself is a parameter: the model is given the
    outcome the transport produced. */
module Client {
  import opened Wrappers
  import opened JsonValue
  import opened Decimal
  import opened Exceptions
  import opened Responses

  // Dates and query parameters

  /** A calendar date as Python's `date` holds it. */
  datatype Date = Date(year: int, month: int, day: int)

  predicate IsLeapYear(y: int) {
    y % 4 == 0 && (y % 100 != 0 || y % 400 == 0)
  }

  function DaysInMonth(y: int, m: int): int
    requires 1 <= m <= 12
  {
    if m == 2 then (if IsLeapYear(y) then 29 else 28)
    else if m in {4, 6, 9, 11} then 30
    else 31
  }

  /** The dates a `date` object can hold: years 1 to 9999 of the proleptic
      Gregorian calendar. */
  predicate ValidDate(d: Date) {
    1 <= d.year <= 9999 && 1 <= d.month <= 12 && 1 <= d.day <= DaysInMonth(d.year, d.month)
  }

  /** `date.isoformat()`: `YYYY-MM-DD`, each part zero-padded. */
  function IsoFormat(d: Date): (s: string)
    requires ValidDate(d)
    ensures |s| == 10 && s[4] == '-' && s[7] == '-'
  {
    assert Power10(2) == 100 && Power10(4) == 10000;
    ZeroPaddedWidth(d.year, 4);
    ZeroPaddedWidth(d.month, 2);
    ZeroPaddedWidth(d.day, 2);
    ZeroPadded(d.year, 4) + "-" + ZeroPadded(d.month, 2) + "-" + ZeroPadded(d.day, 2)
  }

  /** Reads a `YYYY-MM-DD` text back into its year, month and day. */
  function ParseIsoDate(s: string): Option<Date> {
    if |s| == 10 && s[4] == '-' && s[7] == '-'
      && AllDigits(s[..4]) && AllDigits(s[5..7]) && AllDigits(s[8..])
    then Some(Date(DigitsValue(s[..4]), DigitsValue(s[5..7]), DigitsValue(s[8..])))
    else None
  }

  /** The text `date.isoformat()` produces determines the date. */
  lemma IsoFormatRoundTrip(d: Date)
    requires ValidDate(d)
    ensures ParseIsoDate(IsoFormat(d)) == Some(d)
  {
    var s := IsoFormat(d);
    var y, m, dd := ZeroPadded(d.year, 4), ZeroPadded(d.month, 2), ZeroPadded(d.day, 2);
    assert Power10(2) == 100 && Power10(4) == 10000;
    ZeroPaddedWidth(d.year, 4);
    ZeroPaddedWidth(d.month, 2);
    ZeroPaddedWidth(d.day, 2);
    assert s[..4] == y && s[5..7] == m && s[8..] == dd;
    ZeroPaddedValue(d.year, 4);
    ZeroPaddedValue(d.month, 2);
    ZeroPaddedValue(d.day, 2);
  }

  const MissingSelectorMessage: string :=
    "Either 'date' or both 'start_epoch' and 'end_epoch' must be provided"

  /** What the query parameters say: exactly the date, or exactly the two
      epochs, each written as Python's `str` writes it and readable back to
      the value it came from, plus the email exactly when one was given. */
  predicate DescribesQuery(
    p: map<string, string>, date: Option<Date>, startEpoch: Option<int>, endEpoch: Option<int>,
    email: Option<string>)
  {
    (date.Some? ==>
      p.Keys - {"email"} == {"date"} && ParseIsoDate(p["date"]) == date) &&
    (date.None? ==>
      startEpoch.Some? && endEpoch.Some? &&
      p.Keys - {"email"} == {"start_epoch", "end_epoch"} &&
      p["start_epoch"] == IntToDecimal(startEpoch.value) && p["end_epoch"] == IntToDecimal(endEpoch.value) &&
      ParseInt(p["start_epoch"]) == startEpoch && ParseInt(p["end_epoch"]) == endEpoch) &&
    ("email" in p <==> email.Some?) &&
    (email.Some? ==> p["email"] == email.value)
  }

  /** The `params` dict of `get_daily_metrics`, filled in one key at a time:
      the date wins over the epochs, both epochs are needed without a date,
      and the email is added when given. */
  method BuildParams(date: Option<Date>, startEpoch: Option<int>, endEpoch: Option<int>, email: Option<string>)
    returns (r: Result<map<string, string>, string>)
    requires date.Some? ==> ValidDate(date.value)
    ensures r.Failure? <==> date.None? && (startEpoch.None? || endEpoch.None?)
    ensures r.Failure? ==> r.error == MissingSelectorMessage
    ensures r.Success? ==> DescribesQuery(r.value, date, startEpoch, endEpoch, email)
  {
    var params: map<string, string> := map[];
    if date.Some? {
      params := params["date" := IsoFormat(date.value)];
      IsoFormatRoundTrip(date.value);
    } else if startEpoch.Some? && endEpoch.Some? {
      params := params["start_epoch" := IntToDecimal(startEpoch.value)];
      params := params["end_epoch" := IntToDecimal(endEpoch.value)];
      DecimalRoundTrip(startEpoch.value);
      DecimalRoundTrip(endEpoch.value);
    } else {
      return Failure(MissingSelectorMessage);
    }
    if email.Some? {
      params := params["email" := email.value];
    }
    return Success(params);
  }

  // The outcome of the HTTP call

  /** A response body: its text, and what decoding it as JSON gave. */
  datatype Body = Body(text: string, parsed: Result<Json, string>)

  /** What the transport produced: a 2xx response, a response with any other
      status (with the text of the status error), or a network failure
      (with its text). `raise_for_status` raises only for a status outside
      200..299, so a transport never produces `HttpStatus` with a 2xx code
      (`ValidTransportOutcome`). */
  datatype HttpOutcome =
    | Ok(body: Body)
    | HttpStatus(code: int, body: Body, description: string)
    | Network(description: string)

  /** An outcome `raise_for_status` can report. */
  predicate ValidTransportOutcome(o: HttpOutcome) {
    o.HttpStatus? ==> !(200 <= o.code <= 299)
  }

  /** `response_dict.get(key)` when it is a string. */
  function StringAt(j: Json, key: string): (r: Option<string>)
    ensures r.Some? <==> j.JObject? && key in j.fields && j.fields[key].JString?
    ensures r.Some? ==> j.fields[key] == JString(r.value)
  {
    if j.JObject? && key in j.fields && j.fields[key].JString? then Some(j.fields[key].s) else None
  }

  /** The message of an error raised for an HTTP error status: the body's
      `error` string, else its `message` string, else the status error's
      text; a body that is not JSON gives its own text unless that is
      empty. */
  function ErrorMessage(body: Body, description: string): (m: string)
    ensures body.parsed.Success? && StringAt(body.parsed.value, "error").Some? ==>
      m == StringAt(body.parsed.value, "error").value
    ensures (body.parsed.Success? && StringAt(body.parsed.value, "error").None? &&
             StringAt(body.parsed.value, "message").Some?) ==>
      m == StringAt(body.parsed.value, "message").value
    ensures (body.parsed.Success? && StringAt(body.parsed.value, "error").None? &&
             StringAt(body.parsed.value, "message").None?) ==>
      m == description
    ensures body.parsed.Failure? ==> m == if body.text != "" then body.text else description
  {
    match body.parsed
    case Failure(_) => if body.text != "" then body.text else description
    case Success(j) =>
      match StringAt(j, "error")
      case Some(e) => e
      case None =>
        match StringAt(j, "message")
        case Some(msg) => msg
        case None => description
  }

  /** The status table: 401, 400, 404 and 500 raise their own subclass (which
      fixes that status), every other status the base error carrying it. */
  function ErrorForStatus(status: int, message: string): (e: ApiError)
    ensures e.message == message && e.statusCode == Some(status) && WellFormed(e)
    ensures e.kind == Base <==> status !in {400, 401, 404, 500}
  {
    if status == 401 then NewAuthenticationError(message)
    else if status == 400 then NewBadRequestError(message)
    else if status == 404 then NewNotFoundError(message)
    else if status == 500 then NewInternalServerError(message)
    else NewApiError(message, Some(status))
  }

  const ParseFailurePrefix: string := "Failed to parse response: "
  const RequestFailurePrefix: string := "Request failed: "

  /** The decoding of a 2xx body: the envelope is validated; a non-empty
      `error` in it raises by the status table with the envelope's status;
      any other failure is wrapped as a parse failure without status. */
  function DecodeSuccess(body: Body): (r: Result<UltrahumanData, ApiError>)
    ensures r.Failure? ==> WellFormed(r.error)
    ensures r.Success? ==>
      body.parsed.Success? && ValidateResponse(body.parsed.value).Success? &&
      ValidateResponse(body.parsed.value).value.data == r.value &&
      ValidateResponse(body.parsed.value).value.error in {None, Some("")}
    ensures body.parsed.Failure? ==>
      r == Failure(NewApiError(ParseFailurePrefix + body.parsed.error))
    ensures body.parsed.Success? && ValidateResponse(body.parsed.value).Failure? ==>
      r == Failure(NewApiError(ParseFailurePrefix + ValidateResponse(body.parsed.value).error))
    ensures body.parsed.Success? && ValidateResponse(body.parsed.value).Success? ==>
      var resp := ValidateResponse(body.parsed.value).value;
      (resp.error in {None, Some("")} ==> r == Success(resp.data)) &&
      (resp.error.Some? && resp.error.value != "" ==> r == Failure(ErrorForStatus(resp.status, resp.error.value)))
  {
    match body.parsed
    case Failure(e) => Failure(NewApiError(ParseFailurePrefix + e))
    case Success(j) =>
      match ValidateResponse(j)
      case Failure(e) => Failure(NewApiError(ParseFailurePrefix + e))
      case Success(resp) =>
        if resp.error.Some? && resp.error.value != "" then
          Failure(ErrorForStatus(resp.status, resp.error.value))
        else Success(resp.data)
  }

  /** The part of `get_daily_metrics` after the request is sent. */
  function HandleOutcome(outcome: HttpOutcome): (r: Result<UltrahumanData, ApiError>)
    ensures r.Failure? ==> WellFormed(r.error)
    ensures outcome.HttpStatus? ==>
      r == Failure(ErrorForStatus(outcome.code, ErrorMessage(outcome.body, outcome.description)))
    ensures outcome.Network? ==>
      r == Failure(NewApiError(RequestFailurePrefix + outcome.description))
    ensures outcome.Ok? ==> r == DecodeSuccess(outcome.body)
  {
    match outcome
    case Network(description) => Failure(NewApiError(RequestFailurePrefix + description))
    case HttpStatus(code, body, description) => Failure(ErrorForStatus(code, ErrorMessage(body, description)))
    case Ok(body) => DecodeSuccess(body)
  }

  /** What `get_daily_metrics` raises: the `ValueError` for a missing
      selector, or an error of the API hierarchy. */
  datatype ClientError = InvalidArguments(message: string) | ApiFailure(error: ApiError)

  function AsClientResult(r: Result<UltrahumanData, ApiError>): Result<UltrahumanData, ClientError> {
    match r
    case Success(data) => Success(data)
    case Failure(e) => Failure(ApiFailure(e))
  }

  /** `get_daily_metrics`, with the HTTP call as the parameter `send`;
      `request` is the query sent, `None` when the arguments are refused
      before any request is made. */
  method GetDailyMetrics(
    date: Option<Date>, startEpoch: Option<int>, endEpoch: Option<int>, email: Option<string>,
    send: map<string, string> -> HttpOutcome)
    returns (r: Result<UltrahumanData, ClientError>, request: Option<map<string, string>>)
    requires date.Some? ==> ValidDate(date.value)
    ensures request.None? <==> date.None? && (startEpoch.None? || endEpoch.None?)
    ensures request.None? ==> r == Failure(InvalidArguments(MissingSelectorMessage))
    ensures request.Some? ==>
      DescribesQuery(request.value, date, startEpoch, endEpoch, email) &&
      r == AsClientResult(HandleOutcome(send(request.value)))
  {
    var params := BuildParams(date, startEpoch, endEpoch, email);
    if params.Failure? {
      return Failure(InvalidArguments(params.error)), None;
    }
    request := Some(params.value);
    r := AsClientResult(HandleOutcome(send(params.value)));
  }

  // Properties

  /** An error in the envelope of a 2xx response raises exactly what an HTTP
      error with the envelope's status and that `error` would raise: the two
      paths share one table. */
  lemma EnvelopeErrorSharesTable(body: Body, other: Body, description: string)
    requires body.parsed.Success? && ValidateResponse(body.parsed.value).Success?
    requires var resp := ValidateResponse(body.parsed.value).value;
      resp.error.Some? && resp.error.value != ""
    requires other.parsed.Success? &&
      StringAt(other.parsed.value, "error") == ValidateResponse(body.parsed.value).value.error
    ensures var resp := ValidateResponse(body.parsed.value).value;
      HandleOutcome(Ok(body)) == HandleOutcome(HttpStatus(resp.status, other, description)) &&
      HandleOutcome(Ok(body)).error.statusCode == Some(resp.status) &&
      HandleOutcome(Ok(body)).error.message == resp.error.value
  {
  }

  /** A well-formed response without an error, sent as a 2xx body, yields its
      data. */
  lemma SuccessReturnsData(resp: UltrahumanResponse, text: string)
    requires WellFormedResponse(resp) && resp.error in {None, Some("")}
    ensures HandleOutcome(Ok(Body(text, Success(EncodeResponse(resp))))) == Success(resp.data)
  {
    ResponseRoundTrip(resp);
  }

  /** Every failure of the call carries the status the server sent, or none
      when no status was received or the body could not be decoded. */
  lemma FailureStatus(outcome: HttpOutcome)
    requires HandleOutcome(outcome).Failure?
    ensures var e := HandleOutcome(outcome).error;
      (outcome.HttpStatus? ==> e.statusCode == Some(outcome.code)) &&
      (outcome.HttpStatus? && ValidTransportOutcome(outcome) ==> !(200 <= e.statusCode.value <= 299)) &&
      (outcome.Network? ==> e.statusCode.None? && e.kind == Base) &&
      (outcome.Ok? ==> e.statusCode.None? || (e.statusCode.Some? && IsHttpStatus(e.statusCode.value)))
  {
    if outcome.Ok? {
      var body := outcome.body;
      if body.parsed.Success? && ValidateResponse(body.parsed.value).Success? {
        var resp := ValidateResponse(body.parsed.value).value;
        assert IsHttpStatus(resp.status);
      }
    }
  }
}
