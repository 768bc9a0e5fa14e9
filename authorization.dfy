/** The request pipeline of the four resource controllers put together: the
    route's authentication guard, then `RolesGuard`, then the handler's own
    ownership check. */
module Authorization {
  import opened Common
  import opened RolesGuard
  import opened RoutePolicy
  import opened JwtStrategy
  import CookieJwtAuthGuard
  import DirectorsController
  import MastersController
  import OperatorsController
  import EmployeesController

  datatype Route =
    | Directors(d: DirectorsController.Handler)
    | Masters(m: MastersController.Handler)
    | Operators(o: OperatorsController.Handler)
    | Employees(e: EmployeesController.Handler)

  function PolicyOf(route: Route): Policy
  {
    match route
    case Directors(h) => DirectorsController.PolicyOf(h)
    case Masters(h) => MastersController.PolicyOf(h)
    case Operators(h) => OperatorsController.PolicyOf(h)
    case Employees(h) => EmployeesController.PolicyOf(h)
  }

  datatype Decision = Allow | Deny(error: HttpError)

  /** The message of the exception Nest throws when a guard returns false. */
  const ForbiddenResource: string := "Forbidden resource"

  /** Whether the request reaches the handler's service call, given what the
      authentication guard concluded and the `:id` in the path. */
  function Authorize(route: Route, auth: Result<Principal>, resourceId: int): (d: Decision)
    ensures PolicyOf(route).guard == Unguarded ==> d == Allow
    ensures PolicyOf(route).guard != Unguarded && auth.Err? ==> d == Deny(auth.error)
    ensures (PolicyOf(route).guard != Unguarded && auth.Ok? &&
             !CanActivate(PolicyOf(route).handlerRoles, PolicyOf(route).classRoles, Some(auth.value))) ==>
      d == Deny(Forbidden(ForbiddenResource))
  {
    var policy := PolicyOf(route);
    if policy.guard == Unguarded then Allow
    else match auth
      case Err(e) => Deny(e)
      case Ok(user) =>
        if !CanActivate(policy.handlerRoles, policy.classRoles, Some(user)) then Deny(Forbidden(ForbiddenResource))
        else match route
          case Directors(h) =>
            (match DirectorsController.OwnershipCheck(h, user, resourceId)
             case Some(e) => Deny(e)
             case None => Allow)
          case _ => Allow
  }

  /** What the route's guard concludes from the request: the cookie guard, the
      bearer-only guard, or nothing at all. */
  function Authenticate(guard: AuthGuardKind, headers: map<string, string>, source: Option<map<string, string>>,
                        signingEnabled: bool, unsign: Option<CookieJwtAuthGuard.UnsignFn>, verify: Option<string> -> VerifyOutcome,
                        store: Store): (r: Result<Principal>)
    ensures guard == Unguarded ==> r.Err?
    ensures r.Ok? ==> WellFormed(r.value)
    ensures r.Err? ==> r.error.status == 401
  {
    match guard
    case CookieJwt => CookieJwtAuthGuard.CookieAuthenticate(headers, source, signingEnabled, unsign, verify, store)
    case BearerJwt => BearerAuthenticate(headers, verify, store)
    case Unguarded => Err(Unauthorized("Unauthorized"))
  }

  /** The whole pipeline for one request: unguarded routes always pass, a guarded
      route passes only an authenticated request, and every refusal is a 401 from
      authentication or a 403 from the roles or ownership checks. */
  function Gate(route: Route, headers: map<string, string>, source: Option<map<string, string>>, signingEnabled: bool,
                unsign: Option<CookieJwtAuthGuard.UnsignFn>, verify: Option<string> -> VerifyOutcome, store: Store,
                resourceId: int): (d: Decision)
    ensures PolicyOf(route).guard == Unguarded ==> d == Allow
    ensures PolicyOf(route).guard != Unguarded && d == Allow ==>
      Authenticate(PolicyOf(route).guard, headers, source, signingEnabled, unsign, verify, store).Ok?
    ensures d.Deny? ==> d.error.status == 401 || d.error.status == 403
  {
    Authorize(route, Authenticate(PolicyOf(route).guard, headers, source, signingEnabled, unsign, verify, store), resourceId)
  }

  /** Tokens carry lower-case roles and the declared roles are upper case, so no
      principal `validate` produces satisfies a declared `@Roles` list. */
  lemma {:induction false} WellFormedMatchesNoDeclaredRole(roles: seq<UserRole>, classRoles: Option<seq<UserRole>>, user: Principal)
    requires WellFormed(user)
    ensures !CanActivate(Some(roles), classRoles, Some(user))
  {
    forall i | 0 <= i < |roles|
      ensures !Matches(Some(user), roles[i])
    {
      assert user.role in ValidRoles;
    }
  }

  /** The consequence for the whole pipeline: on every route that declares roles,
      each request is refused, whatever its token and cookies. */
  lemma DeclaredRoutesRefuseEveryRequest(route: Route, headers: map<string, string>, source: Option<map<string, string>>,
                                         signingEnabled: bool, unsign: Option<CookieJwtAuthGuard.UnsignFn>,
                                         verify: Option<string> -> VerifyOutcome, store: Store, resourceId: int)
    requires PolicyOf(route).handlerRoles.Some?
    ensures Gate(route, headers, source, signingEnabled, unsign, verify, store, resourceId).Deny?
  {
    var policy := PolicyOf(route);
    var auth := Authenticate(policy.guard, headers, source, signingEnabled, unsign, verify, store);
    if auth.Ok? {
      WellFormedMatchesNoDeclaredRole(policy.handlerRoles.value, policy.classRoles, auth.value);
    }
  }

  /** The requests that can reach a service at all: those to the four health
      routes and those to `GET /masters/:id` from an authenticated principal. */
  lemma ReachableRoutes(route: Route, headers: map<string, string>, source: Option<map<string, string>>,
                        signingEnabled: bool, unsign: Option<CookieJwtAuthGuard.UnsignFn>,
                        verify: Option<string> -> VerifyOutcome, store: Store, resourceId: int)
    ensures Gate(route, headers, source, signingEnabled, unsign, verify, store, resourceId) == Allow <==>
      route in {Directors(DirectorsController.Health), Masters(MastersController.Health),
                Operators(OperatorsController.Health), Employees(EmployeesController.Health)} ||
      (route == Masters(MastersController.GetMaster) && BearerAuthenticate(headers, verify, store).Ok?)
  {
    match route {
      case Directors(h) => DirectorsController.RoleTable(h);
      case Masters(h) => MastersController.RoleTable(h);
      case Operators(h) => OperatorsController.RoleTable(h);
      case Employees(h) => EmployeesController.RoleTable(h);
    }
    if PolicyOf(route).handlerRoles.Some? {
      DeclaredRoutesRefuseEveryRequest(route, headers, source, signingEnabled, unsign, verify, store, resourceId);
    }
  }

  /** `GET /masters/:id` checks no role and no owner: any authenticated principal
      may read any master, and a failed authentication is refused with its own error. */
  lemma GetMasterAdmitsAnyAuthenticated(auth: Result<Principal>, resourceId: int)
    ensures Authorize(Masters(MastersController.GetMaster), auth, resourceId) ==
      if auth.Ok? then Allow else Deny(auth.error)
  {
  }

  /** A principal that does pass these roles checks carries an upper-case role, so
      the directors' ownership checks, which test for `director`, never deny it:
      a request that clears `RolesGuard` is not kept to its own record. */
  lemma OwnershipNeverApplies(h: DirectorsController.Handler, user: Principal, resourceId: int)
    requires CanActivate(DirectorsController.PolicyOf(h).handlerRoles, DirectorsController.PolicyOf(h).classRoles, Some(user))
    ensures Authorize(Directors(h), Ok(user), resourceId) == Allow
  {
    DirectorsController.RoleTable(h);
    if DirectorsController.PolicyOf(h).handlerRoles.Some? {
      DeclaredRolesAdmitExactly(DirectorsController.PolicyOf(h).handlerRoles, None, Some(user));
      DirectorsController.OthersSkipOwnership(h, user, resourceId);
    }
  }

  /** `PUT /masters/:id/documents` checks the roles and nothing else: the answer
      does not depend on the master id in the path, so no owner is compared. */
  lemma UpdateDocumentsChecksRolesOnly(user: Principal, resourceId: int, otherId: int)
    ensures Authorize(Masters(MastersController.UpdateDocuments), Ok(user), resourceId) ==
      if CanActivate(MastersController.PolicyOf(MastersController.UpdateDocuments).handlerRoles, None, Some(user))
      then Allow else Deny(Forbidden(ForbiddenResource))
    ensures Authorize(Masters(MastersController.UpdateDocuments), Ok(user), resourceId) ==
      Authorize(Masters(MastersController.UpdateDocuments), Ok(user), otherId)
  {
    MastersController.RoleTable(MastersController.UpdateDocuments);
  }
}
