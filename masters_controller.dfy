/** `MastersController`: the bearer-guarded master routes and their role lists. */
module MastersController {
  import opened Common
  import opened RolesGuard
  import opened RoutePolicy

  datatype Handler = Health | GetMasters | GetMaster | CreateMaster | UpdateMaster | DeleteMaster | UpdateDocuments

  /** The decorators of each handler: only health is unguarded, every other route
      is bearer-only, and `getMaster` is the one guarded route without roles. */
  function PolicyOf(h: Handler): (p: Policy)
    ensures p.guard == Unguarded <==> h == Health
    ensures h != Health ==> p.guard == BearerJwt && p.classRoles == None
    ensures p.handlerRoles.None? <==> h in {Health, GetMaster}
  {
    match h
    case Health => Open
    case GetMasters => Guarded(BearerJwt, Some([DIRECTOR, CALLCENTRE_ADMIN]))
    case GetMaster => Guarded(BearerJwt, None)
    case CreateMaster => Guarded(BearerJwt, Some([DIRECTOR]))
    case UpdateMaster => Guarded(BearerJwt, Some([DIRECTOR]))
    case DeleteMaster => Guarded(BearerJwt, Some([DIRECTOR]))
    case UpdateDocuments => Guarded(BearerJwt, Some([DIRECTOR, MASTER]))
  }

  /** The role strings each handler admits. */
  lemma RoleTable(h: Handler)
    ensures h == GetMasters ==> Names(PolicyOf(h).handlerRoles.value) == {"DIRECTOR", "CALLCENTRE_ADMIN"}
    ensures h in {CreateMaster, UpdateMaster, DeleteMaster} ==> Names(PolicyOf(h).handlerRoles.value) == {"DIRECTOR"}
    ensures h == UpdateDocuments ==> Names(PolicyOf(h).handlerRoles.value) == {"DIRECTOR", "MASTER"}
  {
    if h == GetMasters {
      var roles := PolicyOf(h).handlerRoles.value;
      assert Value(roles[0]).value == "DIRECTOR" && Value(roles[1]).value == "CALLCENTRE_ADMIN";
    } else if h in {CreateMaster, UpdateMaster, DeleteMaster} {
      assert Value(PolicyOf(h).handlerRoles.value[0]).value == "DIRECTOR";
    } else if h == UpdateDocuments {
      var roles := PolicyOf(h).handlerRoles.value;
      assert Value(roles[0]).value == "DIRECTOR" && Value(roles[1]).value == "MASTER";
    }
  }
}
