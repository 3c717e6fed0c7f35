/**
 * The authentication gate `protect` and the role gate `authorize`.
 *
 * `protect` chooses a candidate token (the second space-separated piece of an
 * `Authorization` header that starts with "Bearer", otherwise the `token`
 * cookie), hands it to the token verifier, looks the decoded id up in the user
 * store and binds the result to `req.user`. Every rejection calls `next` with
 * the same 401 error; the one exception is a request without a Bearer header
 * whose `req.cookies` is undefined, where reading the cookie throws a
 * `TypeError` instead. `authorize(...roles)` lets the request through only when
 * `req.user.role` is one of the roles, and otherwise calls `next` with a 403
 * error; when `req.user` is `undefined` or `null`, reading its `role` throws a
 * `TypeError` instead.
 */
module Auth {
  import opened Wrappers
  import opened JsString
  import opened Express

  /** The one error every failed authentication reports. */
  const NotAuthorized := ErrorResponse("Unauthorized - Not authorized to access this route", 401)

  /** The error a role check reports. */
  const AccessLevelDenied := ErrorResponse("Unauthorized - Your access level is unauthorized", 403)

  /** The decoded token payload; only its `id` claim is used. */
  datatype Claims = Claims(id: string)

  /** What `User.findById` does: resolve to a record, resolve to `null`, or reject. */
  datatype Lookup = Found(user: User) | Missing | Failed

  /**
   * `jwt.verify(token, secret)`: the decoded payload, or `None` when it throws
   * (bad signature, malformed token, or an `exp` claim in the past).
   */
  type Verifier = (string, string) -> Option<Claims>

  /** `User.findById(id)`. */
  type UserFinder = string -> Lookup

  /** Normal completion with a value, or an exception thrown. */
  datatype Completion<T> = Normal(value: T) | Throw(error: JsError)

  /** What one run of `protect` does: the calls it makes and the value it stores in `req.user`, if any. */
  datatype ProtectRun = ProtectRun(effects: seq<Effect>, stored: Option<Slot<User>>)

  // ---------------------------------------------------------------------------
  // Token selection

  /** The Bearer branch is taken when the header is truthy and starts with "Bearer" (case-sensitive, no space required). */
  predicate IsBearerHeader(authorization: JsStr) {
    Truthy(authorization) && StartsWith(authorization.value, "Bearer")
  }

  /** `authorization.split(" ")[1]`. */
  function BearerToken(authorization: string): JsStr {
    Piece(Split(authorization), 1)
  }

  /**
   * The value of `token` once the selection `if` has run: the Bearer piece when
   * the header selects the Bearer branch, otherwise the `token` cookie when it is
   * truthy, otherwise `undefined`. Reading `req.cookies.token` throws when
   * `req.cookies` is undefined.
   */
  function SelectToken(authorization: JsStr, cookies: Option<map<string, string>>): Completion<JsStr> {
    if IsBearerHeader(authorization) then Normal(BearerToken(authorization.value))
    else if cookies.None? then Throw(TypeError)
    else if Truthy(Field(cookies.value, "token")) then Normal(Field(cookies.value, "token"))
    else Normal(None)
  }

  // ---------------------------------------------------------------------------
  // Verification and binding

  /** The steps after selection: the `!token` check, then verify, look up and bind inside the `try`. */
  function Authenticate(token: JsStr, secret: string, verify: Verifier, findById: UserFinder): ProtectRun {
    if !Truthy(token) then ProtectRun([Next(Some(NotAuthorized))], None)
    else
      var asked := Verify(token.value, secret);
      match verify(token.value, secret)
      case None => ProtectRun([asked, Next(Some(NotAuthorized))], None)
      case Some(decoded) =>
        var looked := FindById(decoded.id);
        match findById(decoded.id)
        case Failed => ProtectRun([asked, looked, Next(Some(NotAuthorized))], None)
        case Missing => ProtectRun([asked, looked, Next(None)], Some(Null))
        case Found(u) => ProtectRun([asked, looked, Next(None)], Some(Val(u)))
  }

  /** What `protect` does with a request whose headers and cookies are given. */
  function ProtectSpec(headers: map<string, string>, cookies: Option<map<string, string>>,
                       secret: string, verify: Verifier, findById: UserFinder): ProtectRun
  {
    match SelectToken(Field(headers, "authorization"), cookies)
    case Throw(e) => ProtectRun([Raise(e)], None)
    case Normal(token) => Authenticate(token, secret, verify, findById)
  }

  /** The payload the verifier accepted for the selected token; `None` when there is no token or it was rejected. */
  function VerifiedClaims(headers: map<string, string>, cookies: Option<map<string, string>>,
                          secret: string, verify: Verifier): Option<Claims>
  {
    match SelectToken(Field(headers, "authorization"), cookies)
    case Throw(_) => None
    case Normal(token) => if Truthy(token) then verify(token.value, secret) else None
  }

  /** `protect` acting on a request: `req.user` is written only on success. */
  method Protect(req: Request, secret: string, verify: Verifier, findById: UserFinder) returns (effects: seq<Effect>)
    modifies req`user
    ensures var run := ProtectSpec(req.headers, req.cookies, secret, verify, findById);
      effects == run.effects && req.user == (if run.stored.Some? then run.stored.value else old(req.user))
  {
    var token: JsStr := None;
    var authorization := Field(req.headers, "authorization");
    if Truthy(authorization) && StartsWith(authorization.value, "Bearer") {
      token := Piece(Split(authorization.value), 1);
    } else {
      if req.cookies.None? {
        effects := [Raise(TypeError)];
        return;
      }
      var cookie := Field(req.cookies.value, "token");
      if Truthy(cookie) {
        token := cookie;
      }
    }
    if !Truthy(token) {
      effects := [Next(Some(NotAuthorized))];
      return;
    }
    effects := [Verify(token.value, secret)];
    var decoded := verify(token.value, secret);
    if decoded.None? {
      effects := effects + [Next(Some(NotAuthorized))];
      return;
    }
    effects := effects + [FindById(decoded.value.id)];
    var found := findById(decoded.value.id);
    match found {
      case Failed =>
        effects := effects + [Next(Some(NotAuthorized))];
        return;
      case Missing =>
        req.user := Null;
      case Found(u) =>
        req.user := Val(u);
    }
    effects := effects + [Next(None)];
  }

  // ---------------------------------------------------------------------------
  // Properties of token selection

  /** The Bearer piece, for every shape of header: nothing without a space, else the text up to the next space. */
  lemma BearerTokenCases(scheme: string, token: string, rest: string)
    requires NoSpace(scheme) && NoSpace(token)
    ensures BearerToken(scheme).None?
    ensures BearerToken(scheme + " " + token) == Some(token)
    ensures BearerToken(scheme + " " + token + " " + rest) == Some(token)
  {
    SplitNoSpace(scheme);
    SplitNoSpace(token);
    SplitAtFirstSpace(scheme, token);
    SplitAtFirstSpace(scheme, token + " " + rest);
    SplitAtFirstSpace(token, rest);
    assert scheme + " " + token + " " + rest == scheme + " " + (token + " " + rest);
  }

  /** The Bearer piece never holds a space; a header of the form `Bearer <t>` yields exactly `t`. */
  lemma CanonicalBearerHeader(authorization: string, t: string)
    ensures BearerToken(authorization).Some? ==> NoSpace(BearerToken(authorization).value)
    ensures NoSpace(t) ==> BearerToken("Bearer " + t) == Some(t)
  {
    SplitPiecesHaveNoSpace(authorization);
    if NoSpace(t) {
      BearerTokenCases("Bearer", t, "");
      assert "Bearer " + t == "Bearer" + " " + t;
    }
  }

  /** With no Bearer header and no truthy `token` cookie, `protect` rejects at once and consults nothing. */
  lemma NoTokenNoLookup(headers: map<string, string>, jar: map<string, string>,
                        secret: string, verify: Verifier, findById: UserFinder)
    requires !IsBearerHeader(Field(headers, "authorization"))
    requires !Truthy(Field(jar, "token"))
    ensures var run := ProtectSpec(headers, Some(jar), secret, verify, findById);
      run.effects == [Next(Some(NotAuthorized))] && !Consults(run.effects) && run.stored.None?
  {
  }

  /** A Bearer header decides the token alone: the cookies, present or not, change nothing. */
  lemma HeaderBeatsCookie(headers: map<string, string>, cookies1: Option<map<string, string>>,
                          cookies2: Option<map<string, string>>,
                          secret: string, verify: Verifier, findById: UserFinder)
    requires IsBearerHeader(Field(headers, "authorization"))
    ensures SelectToken(Field(headers, "authorization"), cookies1) == Normal(BearerToken(headers["authorization"]))
    ensures ProtectSpec(headers, cookies1, secret, verify, findById) == ProtectSpec(headers, cookies2, secret, verify, findById)
  {
  }

  /** A header of exactly "Bearer" gives an undefined token: 401 whatever cookie is sent. */
  lemma BareSchemeRejects(headers: map<string, string>, cookies: Option<map<string, string>>,
                          secret: string, verify: Verifier, findById: UserFinder)
    requires Field(headers, "authorization") == Some("Bearer")
    ensures var run := ProtectSpec(headers, cookies, secret, verify, findById);
      run.effects == [Next(Some(NotAuthorized))] && run.stored.None?
  {
    BearerTokenCases("Bearer", "", "");
  }

  /** A header that does not start with "Bearer" (such as `Basic abc`) falls back to a truthy `token` cookie. */
  lemma WrongSchemeUsesCookie(headers: map<string, string>, jar: map<string, string>)
    requires !IsBearerHeader(Field(headers, "authorization"))
    requires Truthy(Field(jar, "token"))
    ensures SelectToken(Field(headers, "authorization"), Some(jar)) == Normal(Some(jar["token"]))
  {
  }

  // ---------------------------------------------------------------------------
  // Properties of a whole run of `protect`

  /** Every error `protect` reports is the same 401 value, and it reports one exactly when it binds nothing. */
  lemma FailuresLookIdentical(headers: map<string, string>, cookies: Option<map<string, string>>,
                              secret: string, verify: Verifier, findById: UserFinder)
    ensures var run := ProtectSpec(headers, cookies, secret, verify, findById);
      forall i :: 0 <= i < |run.effects| && run.effects[i].Next? && run.effects[i].err.Some? ==>
        run.effects[i].err.value == NotAuthorized
    ensures var run := ProtectSpec(headers, cookies, secret, verify, findById);
      run.stored.Some? <==> run.effects[|run.effects| - 1] == Next(None)
  {
  }

  /**
   * `req.user` is written exactly when the verifier accepted the selected token
   * and the store did not fail; it is then the record found, or `null`, and
   * `next` is called with no error.
   */
  lemma SuccessBindsUser(headers: map<string, string>, cookies: Option<map<string, string>>,
                         secret: string, verify: Verifier, findById: UserFinder)
    ensures var run := ProtectSpec(headers, cookies, secret, verify, findById);
      var claims := VerifiedClaims(headers, cookies, secret, verify);
      run.stored.Some? <==> claims.Some? && !findById(claims.value.id).Failed?
    ensures var run := ProtectSpec(headers, cookies, secret, verify, findById);
      var claims := VerifiedClaims(headers, cookies, secret, verify);
      claims.Some? && !findById(claims.value.id).Failed? ==>
        && run.effects[|run.effects| - 1] == Next(None)
        && run.effects[|run.effects| - 2] == FindById(claims.value.id)
        && run.stored == Some(match findById(claims.value.id)
                                case Found(u) => Val(u)
                                case _ => Null)
  {
  }

  /**
   * `next` is called exactly once, as the last effect, unless `req.cookies` is
   * undefined on the cookie branch; then the handler throws instead and calls
   * `next` not at all.
   */
  lemma NextExactlyOnce(headers: map<string, string>, cookies: Option<map<string, string>>,
                        secret: string, verify: Verifier, findById: UserFinder)
    ensures var run := ProtectSpec(headers, cookies, secret, verify, findById);
      var last := run.effects[|run.effects| - 1];
      && (last.Next? || last.Raise?)
      && NextCalls(run.effects) == (if IsBearerHeader(Field(headers, "authorization")) || cookies.Some? then 1 else 0)
      && (last.Raise? ==> run.effects == [Raise(TypeError)])
  {
    var e := ProtectSpec(headers, cookies, secret, verify, findById).effects;
    if |e| >= 2 {
      assert NextCalls(e) == NextCalls(e[1..]);
      if |e| == 3 {
        assert NextCalls(e[1..]) == NextCalls(e[2..]);
      }
      assert NextCalls(e[|e|-1..]) == 1 + NextCalls([]);
    }
  }

  // ---------------------------------------------------------------------------
  // Role gate

  /** `roles.includes(role)`, scanning the role list from the front. */
  function Includes(roles: seq<string>, role: string): (r: bool)
    ensures r <==> role in roles
  {
    if roles == [] then false
    else roles[0] == role || Includes(roles[1..], role)
  }

  /**
   * The one call `authorize(...roles)` makes for the given `req.user`: `next()`
   * when its role is listed, `next` with the 403 error when it is not, and a
   * thrown `TypeError` when `req.user` is `undefined` or `null`.
   */
  function AuthorizeOutcome(roles: seq<string>, user: Slot<User>): (e: Effect)
    ensures e == Next(None) <==> user.Val? && user.v.role in roles
    ensures user.Val? && user.v.role !in roles ==> e == Next(Some(AccessLevelDenied))
    ensures roles == [] && user.Val? ==> e == Next(Some(AccessLevelDenied))
    ensures !user.Val? ==> e == Raise(TypeError)
  {
    match user
    case Val(u) => if !Includes(roles, u.role) then Next(Some(AccessLevelDenied)) else Next(None)
    case _ => Raise(TypeError)
  }

  /** `authorize(...roles)` acting on a request: it changes nothing and makes exactly one call. */
  method Authorize(roles: seq<string>, req: Request) returns (effects: seq<Effect>)
    ensures effects == [AuthorizeOutcome(roles, req.user)]
    ensures req.user.Val? ==> NextCalls(effects) == 1
  {
    if !req.user.Val? {
      effects := [Raise(TypeError)];
      return;
    }
    if !Includes(roles, req.user.v.role) {
      effects := [Next(Some(AccessLevelDenied))];
      return;
    }
    effects := [Next(None)];
  }

  /**
   * A request passes `protect` followed by `authorize(...roles)` only if the
   * verifier accepted its token and the store returned a record whose role is
   * listed; a `null` identity never passes the role gate.
   */
  lemma GateSoundness(headers: map<string, string>, cookies: Option<map<string, string>>,
                      secret: string, verify: Verifier, findById: UserFinder, roles: seq<string>)
    ensures var run := ProtectSpec(headers, cookies, secret, verify, findById);
      var claims := VerifiedClaims(headers, cookies, secret, verify);
      run.stored.Some? && AuthorizeOutcome(roles, run.stored.value) == Next(None) <==>
        claims.Some? && findById(claims.value.id).Found? && findById(claims.value.id).user.role in roles
    ensures var run := ProtectSpec(headers, cookies, secret, verify, findById);
      run.stored == Some(Null) ==> AuthorizeOutcome(roles, run.stored.value) == Raise(TypeError)
  {
    SuccessBindsUser(headers, cookies, secret, verify, findById);
  }
}
