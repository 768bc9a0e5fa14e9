/** What a route declares through its decorators: which authentication guard it
    runs (`@UseGuards`) and which roles it admits (`@Roles` on the handler and
    on the controller class). */
module RoutePolicy {
  import opened Common
  import opened RolesGuard

  /** No guard, the bearer-only `AuthGuard('jwt')`, or `CookieJwtAuthGuard`. */
  datatype AuthGuardKind = Unguarded | BearerJwt | CookieJwt

  /** A route's declaration. Every guarded route also runs `RolesGuard`. */
  datatype Policy = Policy(guard: AuthGuardKind, handlerRoles: Option<seq<UserRole>>, classRoles: Option<seq<UserRole>>)

  /** The health endpoint: no guard at all. */
  const Open: Policy := Policy(Unguarded, None, None)

  /** A guarded handler with the given `@Roles` list; no controller declares class-level roles. */
  function Guarded(guard: AuthGuardKind, roles: Option<seq<UserRole>>): (p: Policy)
    ensures p.guard == guard && p.handlerRoles == roles && p.classRoles == None
  {
    Policy(guard, roles, None)
  }
}
