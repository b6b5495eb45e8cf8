/** The client's error taxonomy: `UltrahumanAPIError` (a message and an
    optional HTTP status code) and its four subclasses, each of which fixes
    its status code and has a default message. */
module Exceptions {
  import opened Wrappers
  import opened Decimal

  /** Which class of the hierarchy an error is; `Base` is `UltrahumanAPIError` itself. */
  datatype ErrorKind = Base | Authentication | BadRequest | NotFound | InternalServer

  /** An error as raised: its class, `message` and `status_code`. */
  datatype ApiError = ApiError(kind: ErrorKind, message: string, statusCode: Option<int>)

  const DefaultAuthenticationMessage: string := "Authentication failed. Please check your API key."
  const DefaultBadRequestMessage: string := "Bad request. Please check your parameters."
  const DefaultNotFoundMessage: string :=
    "Resource not found. User may not exist or data sharing permission may be missing."
  const DefaultInternalServerMessage: string :=
    "Internal server error. Something went wrong on Ultrahuman's end."

  /** The status code a subclass always carries; the base class fixes none. */
  function FixedStatus(kind: ErrorKind): Option<int> {
    match kind
    case Base => None
    case Authentication => Some(401)
    case BadRequest => Some(400)
    case NotFound => Some(404)
    case InternalServer => Some(500)
  }

  /** The class invariant of the hierarchy: a subclass instance carries its
      class's status code. */
  predicate WellFormed(e: ApiError) {
    e.kind != Base ==> e.statusCode == FixedStatus(e.kind)
  }

  /** `isinstance(e, cls)`: every subclass instance is also a base-class instance. */
  predicate IsInstance(e: ApiError, cls: ErrorKind) {
    cls == Base || e.kind == cls
  }

  /** `UltrahumanAPIError(message, status_code=None)`. */
  function NewApiError(message: string, statusCode: Option<int> := None): (e: ApiError)
    ensures e.message == message && e.statusCode == statusCode
    ensures WellFormed(e) && IsInstance(e, Base)
    ensures forall k :: IsInstance(e, k) <==> k == Base
  {
    ApiError(Base, message, statusCode)
  }

  /** `UltrahumanAPIAuthenticationError(message=...)`. */
  function NewAuthenticationError(message: string := DefaultAuthenticationMessage): (e: ApiError)
    ensures e.message == message && e.statusCode == Some(401)
    ensures WellFormed(e) && IsInstance(e, Authentication) && IsInstance(e, Base)
  {
    ApiError(Authentication, message, Some(401))
  }

  /** `UltrahumanAPIBadRequestError(message=...)`. */
  function NewBadRequestError(message: string := DefaultBadRequestMessage): (e: ApiError)
    ensures e.message == message && e.statusCode == Some(400)
    ensures WellFormed(e) && IsInstance(e, BadRequest) && IsInstance(e, Base)
  {
    ApiError(BadRequest, message, Some(400))
  }

  /** `UltrahumanAPINotFoundError(message=...)`. */
  function NewNotFoundError(message: string := DefaultNotFoundMessage): (e: ApiError)
    ensures e.message == message && e.statusCode == Some(404)
    ensures WellFormed(e) && IsInstance(e, NotFound) && IsInstance(e, Base)
  {
    ApiError(NotFound, message, Some(404))
  }

  /** `UltrahumanAPIInternalServerError(message=...)`. */
  function NewInternalServerError(message: string := DefaultInternalServerMessage): (e: ApiError)
    ensures e.message == message && e.statusCode == Some(500)
    ensures WellFormed(e) && IsInstance(e, InternalServer) && IsInstance(e, Base)
  {
    ApiError(InternalServer, message, Some(500))
  }

  /** The first position of `c` in `s`, if any. */
  function IndexOf(s: string, c: char): (r: Option<nat>)
    ensures r.Some? ==> r.value < |s| && s[r.value] == c
    ensures r.Some? ==> forall j :: 0 <= j < r.value ==> s[j] != c
    ensures r.None? ==> forall j :: 0 <= j < |s| ==> s[j] != c
  {
    if s == [] then None
    else if s[0] == c then Some(0)
    else match IndexOf(s[1..], c)
      case None => None
      case Some(k) => Some(k + 1)
  }

  /** Reads a rendered error of the form `[<status>] <message>` back into
      its status code and message. */
  function ParseRendered(t: string): Option<(int, string)> {
    if |t| == 0 || t[0] != '[' then None
    else match IndexOf(t, ']')
      case None => None
      case Some(k) =>
        if k + 1 < |t| && t[k + 1] == ' ' then
          match ParseInt(t[1..k])
          case Some(n) => Some((n, t[k + 2..]))
          case None => None
        else None
  }

  /** `str(error)`: the bare message without a status code; with one, the
      status code as Python's `str` writes it in brackets, then the message,
      a text from which the status code and the message can both be read
      back. */
  function Render(e: ApiError): (s: string)
    ensures e.statusCode.None? ==> s == e.message
    ensures e.statusCode.Some? ==> s == "[" + IntToDecimal(e.statusCode.value) + "] " + e.message
    ensures e.statusCode.Some? ==> ParseRendered(s) == Some((e.statusCode.value, e.message))
    ensures e.statusCode.Some? ==> |s| > |e.message| && s[0] == '[' && s[|s| - |e.message|..] == e.message
  {
    if e.statusCode.Some? then
      var d := IntToDecimal(e.statusCode.value);
      var s := "[" + d + "] " + e.message;
      RenderedParsesBack(d, e.statusCode.value, e.message);
      s
    else e.message
  }

  lemma RenderedParsesBack(d: string, n: int, m: string)
    requires d == IntToDecimal(n)
    ensures ParseRendered("[" + d + "] " + m) == Some((n, m))
  {
    var t := "[" + d + "] " + m;
    var k := |d| + 1;
    assert t[k] == ']';
    assert forall j :: 0 <= j < k ==> t[j] != ']' by {
      forall j | 0 <= j < k ensures t[j] != ']' {
        if j > 0 { assert t[j] == d[j - 1]; }
      }
    }
    assert IndexOf(t, ']') == Some(k);
    assert t[1..k] == d;
    assert t[k + 2..] == m;
    DecimalRoundTrip(n);
  }

  /** Two errors that carry a status code render identically only when they
      carry the same status code and the same message. */
  lemma RenderInjective(e1: ApiError, e2: ApiError)
    requires e1.statusCode.Some? && e2.statusCode.Some?
    ensures Render(e1) == Render(e2) <==> (e1.statusCode == e2.statusCode && e1.message == e2.message)
  {
  }
}
