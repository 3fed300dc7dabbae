/**
 * The request and response values the route handlers exchange with the web
 * framework: a parsed JSON request body, JavaScript truthiness, and a
 * response made of an HTTP status code and a JSON body.
 */
module Http {
  import opened Wrappers

  /** A JSON value read from a parsed request body; Undefined stands for a missing key. */
  datatype JsonValue =
    | Undefined
    | Null
    | Bool(b: bool)
    | Number(n: real)
    | Str(s: string)
    | Composite   // an array or an object

  /** JavaScript's truthiness, as used by the guards `if (!x)`. */
  predicate Truthy(v: JsonValue)
  {
    match v
    case Undefined => false
    case Null => false
    case Bool(b) => b
    case Number(n) => n != 0.0
    case Str(s) => s != ""
    case Composite => true
  }

  /** What `await request.json()` yields: a parse failure, or the body's fields. */
  datatype Request = Malformed | Json(fields: map<string, JsonValue>)

  /** Destructuring `const { name } = body`: a missing key reads as undefined. */
  function Field(fields: map<string, JsonValue>, name: string): JsonValue
  {
    if name in fields then fields[name] else Undefined
  }

  /** A header or environment variable that is set and non-empty (truthy). */
  predicate Configured(v: Option<string>)
  {
    v.Some? && v.value != ""
  }

  /** `value || undefined`: an empty string is dropped as well as a missing one. */
  function OrUndefined(v: Option<string>): (r: Option<string>)
    ensures r.Some? <==> Configured(v)
    ensures r.Some? ==> r == v
  {
    if Configured(v) then v else None
  }

  /** Template-literal rendering of an environment variable: undefined prints as "undefined". */
  function EnvText(v: Option<string>): string
  {
    if v.Some? then v.value else "undefined"
  }

  /** The JSON bodies the handlers answer with. */
  datatype Body =
    | Error(message: string)
    | PaymentState(status: string, customerEmail: Option<string>)
    | Received
    | ClientSecret(secret: Option<string>)
    | SessionId(id: string)

  datatype Response = Response(code: int, body: Body)

  /** `NextResponse.json({ error: message }, { status: code })`. */
  function Fail(code: int, message: string): Response
  {
    Response(code, Error(message))
  }

  /** `NextResponse.json(body)`, whose status is 200. */
  function Success(body: Body): Response
  {
    Response(200, body)
  }
}
