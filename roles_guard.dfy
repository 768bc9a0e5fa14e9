/** `RolesGuard`: the declarative role check run after authentication. A route
    declares the roles it admits with `@Roles(...)`; the guard admits a request
    when no roles are declared, or when `user?.role` equals one of them. */
module RolesGuard {
  import opened Common

  /** The roles a route can declare. `ADMIN` is named by some routes but is not
      a member of the `UserRole` enum, so at run time it is `undefined`. */
  datatype UserRole = MASTER | DIRECTOR | CALLCENTRE_ADMIN | CALLCENTRE_OPERATOR | ADMIN

  /** The value of a declared role; None stands for `undefined`, the value of the
      undeclared `ADMIN`. */
  function Value(role: UserRole): Option<string>
  {
    match role
    case MASTER => Some("MASTER")
    case DIRECTOR => Some("DIRECTOR")
    case CALLCENTRE_ADMIN => Some("CALLCENTRE_ADMIN")
    case CALLCENTRE_OPERATOR => Some("CALLCENTRE_OPERATOR")
    case ADMIN => None
  }

  /** `user?.role`: `undefined` (None) when the request carries no user. */
  function RoleOf(user: Option<Principal>): Option<string>
  {
    if user.Some? then Some(user.value.role) else None
  }

  /** `user?.role === role`: strict equality, so a user's role must equal the
      declared string exactly, and a request without a user compares
      `undefined === undefined` with the undeclared `ADMIN`. */
  predicate Matches(user: Option<Principal>, role: UserRole)
    ensures user.Some? ==> (Matches(user, role) <==> role != ADMIN && Value(role) == Some(user.value.role))
    ensures user.None? ==> (Matches(user, role) <==> role == ADMIN)
  {
    RoleOf(user) == Value(role)
  }

  /** `reflector.getAllAndOverride('roles', [handler, class])`: the handler's
      metadata when it has some, otherwise the class's. */
  function RequiredRoles(handlerRoles: Option<seq<UserRole>>, classRoles: Option<seq<UserRole>>): (r: Option<seq<UserRole>>)
    ensures handlerRoles.Some? ==> r == handlerRoles
    ensures handlerRoles.None? ==> r == classRoles
  {
    if handlerRoles.Some? then handlerRoles else classRoles
  }

  /** `RolesGuard.canActivate`: it reads the metadata and `request.user` and
      changes nothing. Without metadata it admits; an empty list admits nobody. */
  predicate CanActivate(handlerRoles: Option<seq<UserRole>>, classRoles: Option<seq<UserRole>>, user: Option<Principal>)
    ensures RequiredRoles(handlerRoles, classRoles).None? ==> CanActivate(handlerRoles, classRoles, user)
    ensures RequiredRoles(handlerRoles, classRoles) == Some([]) ==> !CanActivate(handlerRoles, classRoles, user)
  {
    var required := RequiredRoles(handlerRoles, classRoles);
    required.None? || exists i :: 0 <= i < |required.value| && Matches(user, required.value[i])
  }

  /** The role strings a list of declared roles admits. */
  function Names(roles: seq<UserRole>): set<string>
  {
    set i | 0 <= i < |roles| && Value(roles[i]).Some? :: Value(roles[i]).value
  }

  /** Without any `roles` metadata every request passes, with or without a user. */
  lemma NoMetadataAdmitsAll(user: Option<Principal>)
    ensures CanActivate(None, None, user)
  {
  }

  /** With roles declared, a request with a user passes exactly when the user's
      role string is one of the declared names, and a request without a user
      passes exactly when the list names the undeclared `ADMIN`. */
  lemma DeclaredRolesAdmitExactly(handlerRoles: Option<seq<UserRole>>, classRoles: Option<seq<UserRole>>, user: Option<Principal>)
    requires RequiredRoles(handlerRoles, classRoles).Some?
    ensures user.Some? ==> (CanActivate(handlerRoles, classRoles, user) <==>
      user.value.role in Names(RequiredRoles(handlerRoles, classRoles).value))
    ensures user.None? ==> (CanActivate(handlerRoles, classRoles, user) <==>
      ADMIN in RequiredRoles(handlerRoles, classRoles).value)
  {
    var roles := RequiredRoles(handlerRoles, classRoles).value;
    if user.Some? && user.value.role in Names(roles) {
      var i :| 0 <= i < |roles| && Value(roles[i]).Some? && Value(roles[i]).value == user.value.role;
      assert Matches(user, roles[i]);
    }
    if user.None? && ADMIN in roles {
      var i :| 0 <= i < |roles| && roles[i] == ADMIN;
      assert Matches(user, roles[i]);
    }
  }

  /** With roles declared, a request without a user is refused by a list of real
      roles and admitted by a list that names `ADMIN`. */
  lemma AnonymousPassesOnlyAdminLists(handlerRoles: Option<seq<UserRole>>, classRoles: Option<seq<UserRole>>)
    requires RequiredRoles(handlerRoles, classRoles).Some?
    ensures ADMIN !in RequiredRoles(handlerRoles, classRoles).value ==> !CanActivate(handlerRoles, classRoles, None)
    ensures ADMIN in RequiredRoles(handlerRoles, classRoles).value ==> CanActivate(handlerRoles, classRoles, None)
  {
    DeclaredRolesAdmitExactly(handlerRoles, classRoles, None);
  }

  /** A declared but empty list refuses everyone: `[]` is truthy and `some` on it is false. */
  lemma EmptyRoleListRefusesAll(classRoles: Option<seq<UserRole>>, user: Option<Principal>)
    ensures !CanActivate(Some([]), classRoles, user)
  {
  }

  /** Handler metadata overrides whatever the class declares. */
  lemma HandlerMetadataOverridesClass(handlerRoles: seq<UserRole>, classRoles: Option<seq<UserRole>>, user: Option<Principal>)
    ensures CanActivate(Some(handlerRoles), classRoles, user) == CanActivate(Some(handlerRoles), None, user)
  {
  }

  /** `ADMIN` matches exactly the requests without a user, and the names that
      users can match are the four upper-case strings. */
  lemma AdminMatchesOnlyAnonymous(user: Option<Principal>)
    ensures Matches(user, ADMIN) <==> user.None?
    ensures Names([MASTER, DIRECTOR, CALLCENTRE_ADMIN, CALLCENTRE_OPERATOR, ADMIN]) ==
      {"MASTER", "DIRECTOR", "CALLCENTRE_ADMIN", "CALLCENTRE_OPERATOR"}
  {
    var roles := [MASTER, DIRECTOR, CALLCENTRE_ADMIN, CALLCENTRE_OPERATOR, ADMIN];
    assert Value(roles[0]).value == "MASTER";
    assert Value(roles[1]).value == "DIRECTOR";
    assert Value(roles[2]).value == "CALLCENTRE_ADMIN";
    assert Value(roles[3]).value == "CALLCENTRE_OPERATOR";
  }
}
