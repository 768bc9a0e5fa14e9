/** `OperatorsController`: the bearer-guarded call-centre admin/operator routes
    and their role lists. The `type` query parameter is handed to the service
    as it is. */
module OperatorsController {
  import opened Common
  import opened RolesGuard
  import opened RoutePolicy

  datatype Handler = Health | GetOperators | GetOperator | CreateOperator | UpdateOperator | DeleteOperator

  /** The decorators of each handler: only health is unguarded, and every other
      route is bearer-only and declares roles. */
  function PolicyOf(h: Handler): (p: Policy)
    ensures p.guard == Unguarded <==> h == Health
    ensures h != Health ==> p.guard == BearerJwt && p.classRoles == None
    ensures h != Health ==> p.handlerRoles.Some?
  {
    match h
    case Health => Open
    case GetOperators => Guarded(BearerJwt, Some([CALLCENTRE_ADMIN, DIRECTOR]))
    case GetOperator => Guarded(BearerJwt, Some([CALLCENTRE_ADMIN, DIRECTOR]))
    case CreateOperator => Guarded(BearerJwt, Some([CALLCENTRE_ADMIN]))
    case UpdateOperator => Guarded(BearerJwt, Some([CALLCENTRE_ADMIN]))
    case DeleteOperator => Guarded(BearerJwt, Some([CALLCENTRE_ADMIN]))
  }

  /** The role strings each handler admits. */
  lemma RoleTable(h: Handler)
    ensures h in {GetOperators, GetOperator} ==> Names(PolicyOf(h).handlerRoles.value) == {"CALLCENTRE_ADMIN", "DIRECTOR"}
    ensures h in {CreateOperator, UpdateOperator, DeleteOperator} ==> Names(PolicyOf(h).handlerRoles.value) == {"CALLCENTRE_ADMIN"}
  {
    if h in {GetOperators, GetOperator} {
      var roles := PolicyOf(h).handlerRoles.value;
      assert Value(roles[0]).value == "CALLCENTRE_ADMIN" && Value(roles[1]).value == "DIRECTOR";
    } else if h in {CreateOperator, UpdateOperator, DeleteOperator} {
      assert Value(PolicyOf(h).handlerRoles.value[0]).value == "CALLCENTRE_ADMIN";
    }
  }
}
