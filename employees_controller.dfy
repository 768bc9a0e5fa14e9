/** `EmployeesController`: the bearer-guarded employee routes and their role
    lists. There is no delete route. */
module EmployeesController {
  import opened Common
  import opened RolesGuard
  import opened RoutePolicy

  datatype Handler = Health | GetEmployees | GetEmployee | CreateEmployee | UpdateEmployee

  /** The decorators of each handler: only health is unguarded, and every other
      route is bearer-only and declares roles. */
  function PolicyOf(h: Handler): (p: Policy)
    ensures p.guard == Unguarded <==> h == Health
    ensures h != Health ==> p.guard == BearerJwt && p.classRoles == None
    ensures h != Health ==> p.handlerRoles.Some?
  {
    match h
    case Health => Open
    case GetEmployees => Guarded(BearerJwt, Some([DIRECTOR, CALLCENTRE_ADMIN]))
    case GetEmployee => Guarded(BearerJwt, Some([DIRECTOR, ADMIN, CALLCENTRE_ADMIN]))
    case CreateEmployee => Guarded(BearerJwt, Some([DIRECTOR]))
    case UpdateEmployee => Guarded(BearerJwt, Some([DIRECTOR]))
  }

  /** The role strings each handler admits. */
  lemma RoleTable(h: Handler)
    ensures h in {GetEmployees, GetEmployee} ==> Names(PolicyOf(h).handlerRoles.value) == {"DIRECTOR", "CALLCENTRE_ADMIN"}
    ensures h in {CreateEmployee, UpdateEmployee} ==> Names(PolicyOf(h).handlerRoles.value) == {"DIRECTOR"}
  {
    if h == GetEmployees {
      var roles := PolicyOf(h).handlerRoles.value;
      assert Value(roles[0]).value == "DIRECTOR" && Value(roles[1]).value == "CALLCENTRE_ADMIN";
    } else if h == GetEmployee {
      var roles := PolicyOf(h).handlerRoles.value;
      assert Value(roles[0]).value == "DIRECTOR" && Value(roles[2]).value == "CALLCENTRE_ADMIN";
    } else if h in {CreateEmployee, UpdateEmployee} {
      assert Value(PolicyOf(h).handlerRoles.value[0]).value == "DIRECTOR";
    }
  }
}
