/** `JwtStrategy`: the startup check on the signing secret, the validation of a
    decoded token payload, and the fail-closed existence lookup of its subject.
    Signature and expiry checking belong to passport-jwt and are an oracle here:
    `verify` turns the Authorization header into a decoded payload or the name
    of the error passport reports. */
module JwtStrategy {
  import opened Common

  const MinSecretLength: nat := 32

  datatype StartupResult = Configured(secret: string) | StartupError(message: string)

  /** The constructor's checks on `process.env.JWT_SECRET`. */
  function Configure(jwtSecret: Option<string>): (r: StartupResult)
    ensures r.Configured? <==> jwtSecret.Some? && |jwtSecret.value| >= MinSecretLength
    ensures r.Configured? ==> r.secret == jwtSecret.value
    ensures jwtSecret.None? || jwtSecret == Some("") ==>
      r == StartupError("JWT_SECRET environment variable is not set")
    ensures jwtSecret.Some? && 0 < |jwtSecret.value| < MinSecretLength ==>
      r == StartupError("JWT_SECRET must be at least 32 characters long")
  {
    if jwtSecret.None? || jwtSecret.value == "" then StartupError("JWT_SECRET environment variable is not set")
    else if |jwtSecret.value| < MinSecretLength then StartupError("JWT_SECRET must be at least 32 characters long")
    else Configured(jwtSecret.value)
  }

  /** The claims of a decoded token; a claim the token lacks is None. */
  datatype Payload = Payload(sub: Option<int>, login: Option<string>, role: Option<string>)

  /** `payload.sub && payload.login && payload.role` is truthy: `sub = 0` and
      `login = ""` count as missing. */
  predicate HasRequiredClaims(p: Payload)
  {
    p.sub.Some? && p.sub.value != 0 && p.login.Some? && p.login.value != "" && p.role.Some? && p.role.value != ""
  }

  /** The lower-case roles a token may carry. */
  const ValidRoles: seq<string> := ["master", "director", "callcentre_admin", "callcentre_operator"]

  /** What `findUnique` on a table does for an id: finds a row, finds none, or throws. */
  datatype Lookup = Found | Missing | LookupFailed

  /** The database, consulted by table and id. */
  type Store = (Table, int) -> Lookup

  /** The table the `switch` in `validateUserExists` consults for a role. */
  function RoleTable(role: string): (t: Option<Table>)
    ensures t.Some? <==> role in ValidRoles
  {
    match role
    case "master" => Some(MasterTable)
    case "director" => Some(DirectorTable)
    case "callcentre_admin" => Some(CallcentreAdminTable)
    case "callcentre_operator" => Some(CallcentreOperatorTable)
    case _ => None
  }

  /** `validateUserExists(userId, role)`: true only when the role's table has the
      id; an unknown role and a failing lookup both give false. */
  function ValidateUserExists(userId: int, role: string, store: Store): (b: bool)
    ensures b ==> role in ValidRoles && store(RoleTable(role).value, userId) == Found
    ensures role in ValidRoles && store(RoleTable(role).value, userId) == Found ==> b
  {
    match RoleTable(role)
    case None => false
    case Some(t) =>
      match store(t, userId)
      case Found => true
      case Missing => false
      case LookupFailed => false
  }

  /** The lookup fails closed: an error or a missing row means "does not exist",
      and it looks at nothing but the role's table at `userId`. */
  lemma ValidateUserExistsFailsClosed(userId: int, role: string, store: Store, other: Store)
    ensures ValidateUserExists(userId, role, store) <==>
      RoleTable(role).Some? && store(RoleTable(role).value, userId) == Found
    ensures RoleTable(role).None? ==> !ValidateUserExists(userId, role, store)
    ensures RoleTable(role).Some? && store(RoleTable(role).value, userId) == LookupFailed ==>
      !ValidateUserExists(userId, role, store)
    ensures (RoleTable(role).Some? ==> store(RoleTable(role).value, userId) == other(RoleTable(role).value, userId)) ==>
      ValidateUserExists(userId, role, store) == ValidateUserExists(userId, role, other)
  {
  }

  /** `validate(payload)`: the claims checks, then the existence lookup. */
  function Validate(p: Payload, store: Store): (r: Result<Principal>)
    ensures r.Ok? ==> HasRequiredClaims(p) && r.value == Principal(p.sub.value, p.login.value, p.role.value)
    ensures r.Ok? ==> WellFormed(r.value)
    ensures r.Err? ==> r.error in {Unauthorized("Invalid token payload"), Unauthorized("Invalid role in token"),
                                   Unauthorized("User not found")}
  {
    if !HasRequiredClaims(p) then Err(Unauthorized("Invalid token payload"))
    else if p.role.value !in ValidRoles then Err(Unauthorized("Invalid role in token"))
    else if !ValidateUserExists(p.sub.value, p.role.value, store) then Err(Unauthorized("User not found"))
    else Ok(Principal(p.sub.value, p.login.value, p.role.value))
  }

  /** A principal as `validate` can produce one: a non-zero id, a non-empty login
      and one of the four lower-case roles. */
  predicate WellFormed(u: Principal)
  {
    u.userId != 0 && u.login != "" && u.role in ValidRoles
  }

  /** A payload with a falsy claim is refused without looking at the store. */
  lemma ValidateRefusesMissingClaims(p: Payload, store: Store)
    requires !HasRequiredClaims(p)
    ensures Validate(p, store) == Err(Unauthorized("Invalid token payload"))
  {
  }

  /** `sub = 0` and `login = ""` are falsy, so such tokens are refused. */
  lemma ValidateRefusesZeroSubAndEmptyLogin(login: Option<string>, sub: Option<int>, role: Option<string>, store: Store)
    ensures Validate(Payload(Some(0), login, role), store) == Err(Unauthorized("Invalid token payload"))
    ensures Validate(Payload(sub, Some(""), role), store) == Err(Unauthorized("Invalid token payload"))
  {
  }

  /** An unknown role is refused before any lookup: the answer is the same for
      every store. */
  lemma ValidateRefusesUnknownRoleBeforeLookup(p: Payload, store: Store, other: Store)
    requires HasRequiredClaims(p) && p.role.value !in ValidRoles
    ensures Validate(p, store) == Err(Unauthorized("Invalid role in token"))
    ensures Validate(p, store) == Validate(p, other)
  {
  }

  /** A payload passing the claims checks whose subject the store does not confirm
      is refused with "User not found". */
  lemma ValidateRefusesUnknownUser(p: Payload, store: Store)
    requires HasRequiredClaims(p) && p.role.value in ValidRoles
    requires store(RoleTable(p.role.value).value, p.sub.value) != Found
    ensures Validate(p, store) == Err(Unauthorized("User not found"))
  {
  }

  /** `validate` succeeds exactly when the claims are present, the role is known and
      the role's table has the subject; the principal is then exactly the claims,
      and it is well formed. */
  lemma ValidateSucceedsExactly(p: Payload, store: Store)
    ensures Validate(p, store).Ok? <==>
      HasRequiredClaims(p) && p.role.value in ValidRoles && store(RoleTable(p.role.value).value, p.sub.value) == Found
    ensures Validate(p, store).Ok? ==>
      Validate(p, store).value == Principal(p.sub.value, p.login.value, p.role.value) &&
      WellFormed(Validate(p, store).value)
    ensures Validate(p, store).Err? ==> Validate(p, store).error.status == 401
  {
  }

  /** What passport reports from a header verified and decoded by passport-jwt. */
  datatype VerifyOutcome = Decoded(payload: Payload) | Rejected(infoName: string)

  /** The `(err, user, info)` triple passport hands to `handleRequest`. */
  datatype StrategyOutcome = StrategyOutcome(err: Option<HttpError>, user: Option<Principal>, info: Option<string>)

  /** Running the strategy on the Authorization header: a rejected token yields only
      `info`; a decoded one runs `validate`, whose exception becomes `err`. */
  function RunStrategy(authorization: Option<string>, verify: Option<string> -> VerifyOutcome, store: Store): (o: StrategyOutcome)
    ensures o.info.Some? <==> verify(authorization).Rejected?
    ensures o.user.Some? <==> verify(authorization).Decoded? && Validate(verify(authorization).payload, store).Ok?
    ensures o.user.Some? ==> o.err.None? && WellFormed(o.user.value)
    ensures o.err.Some? ==> o.user.None? && o.err.value.status == 401
  {
    match verify(authorization)
    case Rejected(name) => StrategyOutcome(None, None, Some(name))
    case Decoded(p) =>
      match Validate(p, store)
      case Ok(u) => StrategyOutcome(None, Some(u), None)
      case Err(e) => StrategyOutcome(Some(e), None, None)
  }

  /** The header `authorization` of a request, if present. */
  function Authorization(headers: map<string, string>): Option<string>
  {
    if "authorization" in headers then Some(headers["authorization"]) else None
  }

  /** The default `handleRequest` of `AuthGuard('jwt')`: rethrow `err`, or refuse a
      missing user with a plain 401. */
  function DefaultHandleRequest(o: StrategyOutcome): (r: Result<Principal>)
    ensures r.Ok? <==> o.err.None? && o.user.Some?
    ensures r.Ok? ==> r.value == o.user.value
    ensures o.err.Some? ==> r == Err(o.err.value)
  {
    if o.err.Some? then Err(o.err.value)
    else if o.user.None? then Err(Unauthorized("Unauthorized"))
    else Ok(o.user.value)
  }

  /** `AuthGuard('jwt')`, the bearer-only guard of the masters, operators and
      employees routes: cookies play no part. */
  function BearerAuthenticate(headers: map<string, string>, verify: Option<string> -> VerifyOutcome, store: Store): (r: Result<Principal>)
    ensures r.Ok? ==> WellFormed(r.value)
    ensures r.Err? ==> r.error.status == 401
  {
    DefaultHandleRequest(RunStrategy(Authorization(headers), verify, store))
  }

  /** The bearer guard admits exactly the principals `validate` builds from the
      decoded header, and every refusal is a 401. */
  lemma BearerAuthenticateIsValidate(headers: map<string, string>, verify: Option<string> -> VerifyOutcome, store: Store)
    ensures verify(Authorization(headers)).Decoded? ==>
      BearerAuthenticate(headers, verify, store) == Validate(verify(Authorization(headers)).payload, store)
    ensures verify(Authorization(headers)).Rejected? ==>
      BearerAuthenticate(headers, verify, store) == Err(Unauthorized("Unauthorized"))
    ensures BearerAuthenticate(headers, verify, store).Ok? ==> WellFormed(BearerAuthenticate(headers, verify, store).value)
  {
    if verify(Authorization(headers)).Decoded? {
      ValidateSucceedsExactly(verify(Authorization(headers)).payload, store);
    }
  }
}
