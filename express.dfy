/**
 * The parts of an Express request that the middleware reads and writes, and
 * the calls a middleware makes into code outside it (the token verifier, the
 * user store, the `next` callback), recorded as a sequence of effects.
 */
module Express {
  import opened Wrappers
  import opened JsString

  /** A user record as the user store returns it. */
  datatype User = User(id: string, role: string)

  /** A JavaScript property that may be `undefined`, `null` or hold a value. */
  datatype Slot<T> = Undefined | Null | Val(v: T)

  /** The error object handed to `next`: a message and an HTTP status code. */
  datatype ErrorResponse = ErrorResponse(message: string, statusCode: int)

  /** The exception raised when a property of `undefined` or `null` is read. */
  datatype JsError = TypeError

  /**
   * One observable call made by a middleware, in the order it happens:
   * the token verifier is asked about a token, the user store is asked for an
   * id, `next` is called with or without an error, or an exception leaves the
   * handler.
   */
  datatype Effect =
    | Verify(token: string, secret: string)
    | FindById(id: string)
    | Next(err: Option<ErrorResponse>)
    | Raise(thrown: JsError)

  /** How many times the effects call `next`. */
  function NextCalls(effects: seq<Effect>): nat {
    if effects == [] then 0
    else (if effects[0].Next? then 1 else 0) + NextCalls(effects[1..])
  }

  /** Whether the effects consult the token verifier or the user store at all. */
  predicate Consults(effects: seq<Effect>) {
    exists i :: 0 <= i < |effects| && (effects[i].Verify? || effects[i].FindById?)
  }

  /** `obj[name]`: the value at a header or cookie name, `undefined` when absent. */
  function Field(fields: map<string, string>, name: string): (r: JsStr)
    ensures r.Some? <==> name in fields
    ensures r.Some? ==> r.value == fields[name]
  {
    if name in fields then Some(fields[name]) else None
  }

  /**
   * The request object. Header names are lower case, as Node delivers them.
   * `cookies` is `None` when no cookie parser has populated `req.cookies`.
   * `user` and `cfIp` are the two properties the middleware write.
   */
  class Request {
    const headers: map<string, string>
    const cookies: Option<map<string, string>>
    const remoteAddress: JsStr
    var user: Slot<User>
    var cfIp: JsStr

    constructor (headers: map<string, string>, cookies: Option<map<string, string>>, remoteAddress: JsStr)
      ensures this.headers == headers && this.cookies == cookies && this.remoteAddress == remoteAddress
      ensures user == Undefined && cfIp == None
    {
      this.headers := headers;
      this.cookies := cookies;
      this.remoteAddress := remoteAddress;
      user := Undefined;
      cfIp := None;
    }
  }
}
