/** `DirectorsController`: the cookie-guarded director routes, their role lists,
    and the ownership checks that keep a director to their own record. */
module DirectorsController {
  import opened Common
  import opened RolesGuard
  import opened RoutePolicy

  datatype Handler = Health | GetDirectors | GetDirector | CreateDirector | UpdateDirector | DeleteDirector

  /** The decorators of each handler: only health is unguarded, every other route
      uses the cookie guard and declares roles, and the class declares none. */
  function PolicyOf(h: Handler): (p: Policy)
    ensures p.guard == Unguarded <==> h == Health
    ensures h != Health ==> p.guard == CookieJwt && p.classRoles == None
    ensures h != Health ==> p.handlerRoles.Some?
  {
    match h
    case Health => Open
    case GetDirectors => Guarded(CookieJwt, Some([DIRECTOR, ADMIN, CALLCENTRE_ADMIN]))
    case GetDirector => Guarded(CookieJwt, Some([DIRECTOR, ADMIN, CALLCENTRE_ADMIN]))
    case CreateDirector => Guarded(CookieJwt, Some([ADMIN, CALLCENTRE_ADMIN]))
    case UpdateDirector => Guarded(CookieJwt, Some([DIRECTOR, ADMIN]))
    case DeleteDirector => Guarded(CookieJwt, Some([ADMIN, CALLCENTRE_ADMIN]))
  }

  /** The role strings each handler admits: `ADMIN` contributes none, so create
      and delete admit only `CALLCENTRE_ADMIN` and update only `DIRECTOR`. */
  lemma RoleTable(h: Handler)
    ensures h in {GetDirectors, GetDirector} ==> Names(PolicyOf(h).handlerRoles.value) == {"DIRECTOR", "CALLCENTRE_ADMIN"}
    ensures h in {CreateDirector, DeleteDirector} ==> Names(PolicyOf(h).handlerRoles.value) == {"CALLCENTRE_ADMIN"}
    ensures h == UpdateDirector ==> Names(PolicyOf(h).handlerRoles.value) == {"DIRECTOR"}
  {
    if h != Health {
      var roles := PolicyOf(h).handlerRoles.value;
      if h in {GetDirectors, GetDirector} {
        assert Value(roles[0]).value == "DIRECTOR" && Value(roles[2]).value == "CALLCENTRE_ADMIN";
      } else if h in {CreateDirector, DeleteDirector} {
        assert Value(roles[1]).value == "CALLCENTRE_ADMIN";
      } else if h == UpdateDirector {
        assert Value(roles[0]).value == "DIRECTOR";
      }
    }
  }

  const ViewOwnMessage: string := "You can only view your own profile"
  const UpdateOwnMessage: string := "You can only update your own profile"
  const DeleteSelfMessage: string := "You cannot delete yourself"

  /** The handler-level ownership checks on the `:id` routes, run once the guards
      have passed: a `director` may view and update only their own id and may
      not delete it. */
  function OwnershipCheck(h: Handler, user: Principal, id: int): (e: Option<HttpError>)
    ensures e.Some? ==> e.value.status == 403 && user.role == "director"
  {
    match h
    case GetDirector =>
      if user.role == "director" && id != user.userId then Some(Forbidden(ViewOwnMessage)) else None
    case UpdateDirector =>
      if user.role == "director" && id != user.userId then Some(Forbidden(UpdateOwnMessage)) else None
    case DeleteDirector =>
      if user.role == "director" && id == user.userId then Some(Forbidden(DeleteSelfMessage)) else None
    case _ => None
  }

  /** A director may view and update exactly their own record. */
  lemma DirectorKeptToOwnRecord(user: Principal, id: int)
    requires user.role == "director"
    ensures OwnershipCheck(GetDirector, user, id).None? <==> id == user.userId
    ensures OwnershipCheck(GetDirector, user, id).Some? ==> OwnershipCheck(GetDirector, user, id).value == Forbidden(ViewOwnMessage)
    ensures OwnershipCheck(UpdateDirector, user, id).None? <==> id == user.userId
    ensures OwnershipCheck(UpdateDirector, user, id).Some? ==> OwnershipCheck(UpdateDirector, user, id).value == Forbidden(UpdateOwnMessage)
  {
  }

  /** Deleting uses the reversed comparison: a director may delete any record but their own. */
  lemma DirectorCannotDeleteSelf(user: Principal, id: int)
    requires user.role == "director"
    ensures OwnershipCheck(DeleteDirector, user, id).Some? <==> id == user.userId
    ensures id == user.userId ==> OwnershipCheck(DeleteDirector, user, id) == Some(Forbidden(DeleteSelfMessage))
  {
  }

  /** Director 7 may view record 7 but not record 8. */
  lemma DirectorSevenExample(login: string)
    ensures OwnershipCheck(GetDirector, Principal(7, login, "director"), 7).None?
    ensures OwnershipCheck(GetDirector, Principal(7, login, "director"), 8) == Some(Forbidden(ViewOwnMessage))
  {
  }

  /** The checks apply to the `director` role only. */
  lemma OthersSkipOwnership(h: Handler, user: Principal, id: int)
    requires user.role != "director"
    ensures OwnershipCheck(h, user, id).None?
  {
  }
}
