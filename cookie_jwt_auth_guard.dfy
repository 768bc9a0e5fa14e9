/** `CookieJwtAuthGuard`: takes the access token from the httpOnly cookie, puts it
    into the Authorization header unless the request already carries one, runs
    the JWT strategy, and maps its failures to user-facing messages. */
module CookieJwtAuthGuard {
  import opened Common
  import opened CookieConfig
  import opened JwtStrategy

  /** What `@fastify/cookie`'s `unsignCookie` answers for a non-null result. */
  datatype Unsigned = Unsigned(valid: bool, value: string)

  /** `unsignCookie(value, secret)` with the secret fixed; None is a null result. */
  type UnsignFn = string -> Option<Unsigned>

  const InvalidSignatureMessage: string := "Invalid access token signature. Possible tampering."
  const ExpiredMessage: string := "Access token has expired. Please refresh your token."
  const InvalidTokenMessage: string := "Invalid access token."
  const AuthenticationRequiredMessage: string := "Authentication required."

  /** `a || b || null` over two optional sources. */
  function FirstPresent<T>(a: Option<T>, b: Option<T>): (r: Option<T>)
    ensures a.Some? ==> r == a
    ensures a.None? ==> r == b
  {
    if a.Some? then a else b
  }

  /** The cookie token `canActivate` settles on, or the exception it throws. */
  function CookieToken(source: Option<map<string, string>>, signingEnabled: bool, unsign: Option<UnsignFn>): (r: Result<Option<string>>)
    ensures r.Err? ==> signingEnabled && unsign.Some? && r.error == Unauthorized(InvalidSignatureMessage)
    ensures source.None? ==> r == Ok(None)
    ensures r.Ok? && r.value.Some? ==> source.Some?
  {
    if source.Some? && signingEnabled && unsign.Some? then
      var cookies := source.value;
      if AccessTokenName in cookies && cookies[AccessTokenName] != "" then
        match unsign.value(cookies[AccessTokenName])
        case None => Ok(None)
        case Some(u) => if u.valid then Ok(Some(u.value)) else Err(Unauthorized(InvalidSignatureMessage))
      else Ok(None)
    else if source.Some? then
      Ok(if AccessTokenName in source.value then Some(source.value[AccessTokenName]) else None)
    else Ok(None)
  }

  /** The headers after injection: `Bearer <token>` is set only for a non-empty token
      when the request has no (non-empty) Authorization header. */
  function InjectAuthorization(headers: map<string, string>, token: Option<string>): (r: map<string, string>)
    ensures "authorization" in headers && headers["authorization"] != "" ==> r == headers
    ensures forall k :: k != "authorization" ==> (k in r <==> k in headers) && (k in headers ==> r[k] == headers[k])
  {
    if token.Some? && token.value != "" && !("authorization" in headers && headers["authorization"] != "")
    then headers["authorization" := "Bearer " + token.value]
    else headers
  }

  /** `handleRequest(err, user, info)`. */
  function HandleRequest(o: StrategyOutcome): (r: Result<Principal>)
    ensures r.Ok? <==> o.err.None? && o.user.Some?
    ensures r.Ok? ==> r.value == o.user.value
    ensures r.Err? && (o.err.None? || o.err.value.status == 401) ==> r.error.status == 401
  {
    if o.err.Some? || o.user.None? then
      if o.info == Some("TokenExpiredError") then Err(Unauthorized(ExpiredMessage))
      else if o.info == Some("JsonWebTokenError") then Err(Unauthorized(InvalidTokenMessage))
      else if o.err.Some? then Err(o.err.value)
      else Err(Unauthorized(AuthenticationRequiredMessage))
    else Ok(o.user.value)
  }

  /** The guard's outcome as a function of the request: extraction, injection,
      the strategy, then `handleRequest`. */
  function CookieAuthenticate(headers: map<string, string>, source: Option<map<string, string>>, signingEnabled: bool,
                              unsign: Option<UnsignFn>, verify: Option<string> -> VerifyOutcome, store: Store): (r: Result<Principal>)
    ensures r.Ok? ==> WellFormed(r.value)
    ensures r.Err? ==> r.error.status == 401
  {
    match CookieToken(source, signingEnabled, unsign)
    case Err(e) => Err(e)
    case Ok(token) => HandleRequest(RunStrategy(Authorization(InjectAuthorization(headers, token)), verify, store))
  }

  /** The parts of a Fastify request the guard touches. Only the headers change;
      the cookies and the unsign function come from the request itself or from
      its raw Node request. */
  class Request {
    var headers: map<string, string>
    const cookies: Option<map<string, string>>
    const rawCookies: Option<map<string, string>>
    const unsignCookie: Option<UnsignFn>
    const rawUnsignCookie: Option<UnsignFn>

    constructor (headers: map<string, string>, cookies: Option<map<string, string>>, rawCookies: Option<map<string, string>>,
                 unsignCookie: Option<UnsignFn>, rawUnsignCookie: Option<UnsignFn>)
      ensures this.headers == headers && this.cookies == cookies && this.rawCookies == rawCookies
      ensures this.unsignCookie == unsignCookie && this.rawUnsignCookie == rawUnsignCookie
    {
      this.headers := headers;
      this.cookies := cookies;
      this.rawCookies := rawCookies;
      this.unsignCookie := unsignCookie;
      this.rawUnsignCookie := rawUnsignCookie;
    }

    /** `request.cookies || request.raw?.cookies || null` */
    function CookiesSource(): Option<map<string, string>>
    {
      FirstPresent(cookies, rawCookies)
    }

    /** `request.unsignCookie || request.raw?.unsignCookie || null` */
    function UnsignSource(): Option<UnsignFn>
    {
      FirstPresent(unsignCookie, rawUnsignCookie)
    }
  }

  /** `canActivate(context)`. `signingEnabled` is `CookieConfig.ENABLE_COOKIE_SIGNING`
      (false as shipped). The request's headers change only by the injection;
      the result is what the guard lets through or throws. */
  method CanActivate(request: Request, signingEnabled: bool, verify: Option<string> -> VerifyOutcome, store: Store)
    returns (r: Result<Principal>)
    modifies request
    ensures CookieToken(request.CookiesSource(), signingEnabled, request.UnsignSource()).Err? ==>
      request.headers == old(request.headers)
    ensures CookieToken(request.CookiesSource(), signingEnabled, request.UnsignSource()).Ok? ==>
      request.headers == InjectAuthorization(old(request.headers), CookieToken(request.CookiesSource(), signingEnabled, request.UnsignSource()).value)
    ensures r == CookieAuthenticate(old(request.headers), request.CookiesSource(), signingEnabled, request.UnsignSource(), verify, store)
  {
    var cookieToken: Option<string> := None;
    var cookiesSource := request.CookiesSource();
    var unsignFn := request.UnsignSource();

    if cookiesSource.Some? && signingEnabled && unsignFn.Some? {
      var cookies := cookiesSource.value;
      if AccessTokenName in cookies && cookies[AccessTokenName] != "" {
        var unsigned := unsignFn.value(cookies[AccessTokenName]);
        cookieToken := if unsigned.Some? && unsigned.value.valid then Some(unsigned.value.value) else None;
        if unsigned.Some? && !unsigned.value.valid {
          return Err(Unauthorized(InvalidSignatureMessage));
        }
      }
    } else if cookiesSource.Some? {
      cookieToken := if AccessTokenName in cookiesSource.value then Some(cookiesSource.value[AccessTokenName]) else None;
    }

    if cookieToken.Some? && cookieToken.value != "" && !("authorization" in request.headers && request.headers["authorization"] != "") {
      request.headers := request.headers["authorization" := "Bearer " + cookieToken.value];
    }

    r := HandleRequest(RunStrategy(Authorization(request.headers), verify, store));
  }

  /** With signing on, a cookie whose signature does not check is a hard failure:
      the request is refused with the tampering message whatever the token
      checks would have said, and never treated as "no cookie". */
  lemma TamperedCookieIsRefused(headers: map<string, string>, cookies: map<string, string>, unsign: UnsignFn,
                                verify: Option<string> -> VerifyOutcome, store: Store)
    requires AccessTokenName in cookies && cookies[AccessTokenName] != ""
    requires unsign(cookies[AccessTokenName]).Some? && !unsign(cookies[AccessTokenName]).value.valid
    ensures CookieToken(Some(cookies), true, Some(unsign)) == Err(Unauthorized(InvalidSignatureMessage))
    ensures CookieAuthenticate(headers, Some(cookies), true, Some(unsign), verify, store) == Err(Unauthorized(InvalidSignatureMessage))
  {
  }

  /** With signing on, a valid signature yields the unsigned value; a null unsign
      result or an absent or empty cookie yields no token and no exception. */
  lemma SignedCookieToken(cookies: map<string, string>, unsign: UnsignFn)
    ensures (AccessTokenName in cookies && cookies[AccessTokenName] != "" && unsign(cookies[AccessTokenName]).Some? &&
             unsign(cookies[AccessTokenName]).value.valid) ==>
      CookieToken(Some(cookies), true, Some(unsign)) == Ok(Some(unsign(cookies[AccessTokenName]).value.value))
    ensures AccessTokenName in cookies && cookies[AccessTokenName] != "" && unsign(cookies[AccessTokenName]).None? ==>
      CookieToken(Some(cookies), true, Some(unsign)) == Ok(None)
    ensures !(AccessTokenName in cookies && cookies[AccessTokenName] != "") ==>
      CookieToken(Some(cookies), true, Some(unsign)) == Ok(None)
  {
  }

  /** With signing off or no unsign function, the raw cookie value is the token;
      this is the path the shipped configuration takes. */
  lemma RawCookieToken(cookies: map<string, string>, signingEnabled: bool, unsign: Option<UnsignFn>)
    requires !signingEnabled || unsign.None?
    ensures CookieToken(Some(cookies), signingEnabled, unsign) ==
      Ok(if AccessTokenName in cookies then Some(cookies[AccessTokenName]) else None)
    ensures CookieToken(Some(cookies), EnableCookieSigning, unsign) == CookieToken(Some(cookies), false, None)
  {
  }

  /** Without any cookie source there is no token, so the headers stay as they are. */
  lemma NoCookiesLeaveHeadersAlone(headers: map<string, string>, signingEnabled: bool, unsign: Option<UnsignFn>)
    ensures CookieToken(None, signingEnabled, unsign) == Ok(None)
    ensures InjectAuthorization(headers, CookieToken(None, signingEnabled, unsign).value) == headers
  {
  }

  /** The Authorization header is never overwritten, and it is set to `Bearer <token>`
      exactly when a non-empty token was found and none was present; no other
      header changes. */
  lemma InjectionRules(headers: map<string, string>, token: Option<string>)
    ensures "authorization" in headers && headers["authorization"] != "" ==> InjectAuthorization(headers, token) == headers
    ensures (token.None? || token == Some("")) ==> InjectAuthorization(headers, token) == headers
    ensures token.Some? && token.value != "" && !("authorization" in headers && headers["authorization"] != "") ==>
      Authorization(InjectAuthorization(headers, token)) == Some("Bearer " + token.value)
    ensures forall k :: k != "authorization" ==>
      (k in InjectAuthorization(headers, token) <==> k in headers) &&
      (k in headers ==> InjectAuthorization(headers, token)[k] == headers[k])
  {
  }

  /** `handleRequest` passes the user through when there is no error, and
      otherwise inspects `info.name` before `err`: expiry first, then a
      malformed or badly signed token, then the error itself, then a generic refusal. */
  lemma HandleRequestOrder(o: StrategyOutcome)
    ensures o.err.None? && o.user.Some? ==> HandleRequest(o) == Ok(o.user.value)
    ensures (o.err.Some? || o.user.None?) && o.info == Some("TokenExpiredError") ==>
      HandleRequest(o) == Err(Unauthorized(ExpiredMessage))
    ensures (o.err.Some? || o.user.None?) && o.info == Some("JsonWebTokenError") ==>
      HandleRequest(o) == Err(Unauthorized(InvalidTokenMessage))
    ensures (o.err.Some? || o.user.None?) && o.info != Some("TokenExpiredError") && o.info != Some("JsonWebTokenError") ==>
      HandleRequest(o) == if o.err.Some? then Err(o.err.value) else Err(Unauthorized(AuthenticationRequiredMessage))
  {
  }

  /** An expired token is refused with the expiry message for every store. */
  lemma ExpiredTokenIsRefused(headers: map<string, string>, source: Option<map<string, string>>, signingEnabled: bool,
                              unsign: Option<UnsignFn>, verify: Option<string> -> VerifyOutcome, store: Store)
    requires CookieToken(source, signingEnabled, unsign).Ok?
    requires verify(Authorization(InjectAuthorization(headers, CookieToken(source, signingEnabled, unsign).value))) ==
      Rejected("TokenExpiredError")
    ensures CookieAuthenticate(headers, source, signingEnabled, unsign, verify, store) == Err(Unauthorized(ExpiredMessage))
  {
  }

  /** A decoded token passes the guard exactly when `validate` accepts it, and the
      principal is then exactly the token's claims; a `validate` refusal reaches
      the caller unchanged. */
  lemma DecodedTokenIsValidated(headers: map<string, string>, source: Option<map<string, string>>, signingEnabled: bool,
                                unsign: Option<UnsignFn>, verify: Option<string> -> VerifyOutcome, store: Store)
    requires CookieToken(source, signingEnabled, unsign).Ok?
    requires verify(Authorization(InjectAuthorization(headers, CookieToken(source, signingEnabled, unsign).value))).Decoded?
    ensures var p := verify(Authorization(InjectAuthorization(headers, CookieToken(source, signingEnabled, unsign).value))).payload;
      CookieAuthenticate(headers, source, signingEnabled, unsign, verify, store) == Validate(p, store)
  {
  }

  /** Whatever the other headers and the unsign function, a request that carries a
      non-empty `access_token` cookie and no Authorization header is authenticated,
      in the shipped configuration, exactly as if it had sent `Bearer <cookie>`. */
  lemma CookieOnlyRequestUsesCookie(headers: map<string, string>, cookies: map<string, string>, unsign: Option<UnsignFn>,
                                    verify: Option<string> -> VerifyOutcome, store: Store)
    requires AccessTokenName in cookies && cookies[AccessTokenName] != ""
    requires !("authorization" in headers && headers["authorization"] != "")
    ensures CookieAuthenticate(headers, Some(cookies), EnableCookieSigning, unsign, verify, store) ==
      HandleRequest(RunStrategy(Some("Bearer " + cookies[AccessTokenName]), verify, store))
  {
    RawCookieToken(cookies, EnableCookieSigning, unsign);
    InjectionRules(headers, Some(cookies[AccessTokenName]));
  }

  /** The guard method on a request built from its parts: a request with a non-empty
      `access_token` cookie and no Authorization header gets `Bearer <cookie>`
      injected and is authenticated with it. */
  method CookieOnlyRequest(headers: map<string, string>, cookies: map<string, string>, unsign: Option<UnsignFn>,
                           verify: Option<string> -> VerifyOutcome, store: Store) returns (r: Result<Principal>)
    requires AccessTokenName in cookies && cookies[AccessTokenName] != ""
    requires !("authorization" in headers && headers["authorization"] != "")
    ensures r == HandleRequest(RunStrategy(Some("Bearer " + cookies[AccessTokenName]), verify, store))
  {
    var request := new Request(headers, Some(cookies), None, unsign, None);
    r := CanActivate(request, EnableCookieSigning, verify, store);
    CookieOnlyRequestUsesCookie(headers, cookies, unsign, verify, store);
  }
}
