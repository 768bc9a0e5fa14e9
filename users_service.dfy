/** `UsersService.getProfile`: the caller's own profile, looked up by login in the
    table its role names. */
module UsersService {
  import opened Common
  import opened Js
  import opened Queries

  const UserNotFound: string := "User not found"

  /** The lookup `getProfile` performs for a role, on the `login` column. */
  datatype ProfileTable = MasterProfiles | DirectorProfiles | OperatorProfiles

  /** The if-chain on `role`: only `master`, `director` and `operator` name a table. */
  function ProfileTableOf(role: string): (t: Option<ProfileTable>)
    ensures t.Some? <==> role == "master" || role == "director" || role == "operator"
  {
    if role == "master" then Some(MasterProfiles)
    else if role == "director" then Some(DirectorProfiles)
    else if role == "operator" then Some(OperatorProfiles)
    else None
  }

  /** `getProfile(user)`. `findByLogin(table, login)` is `findUnique({ where: { login } })`
      on that table. A missing profile is a `success: false` reply, not an exception. */
  function GetProfile(user: Principal, findByLogin: (ProfileTable, string) -> Option<Dict>): (r: Reply)
    ensures !r.success <==> r == Reply(false, Some(UserNotFound), NoData)
  {
    var profile := match ProfileTableOf(user.role)
      case Some(t) => findByLogin(t, user.login)
      case None => None;
    if profile.None? then Reply(false, Some(UserNotFound), NoData)
    else Success(Row(profile.value["role" := Str(user.role)]))
  }

  /** A known role finds its profile by login: success with the row and `role` set
      to the caller's role; a login the table lacks gives `User not found`. */
  lemma ProfileByLogin(user: Principal, findByLogin: (ProfileTable, string) -> Option<Dict>)
    requires ProfileTableOf(user.role).Some?
    ensures var row := findByLogin(ProfileTableOf(user.role).value, user.login);
      GetProfile(user, findByLogin) ==
        if row.Some? then Success(Row(row.value["role" := Str(user.role)])) else Reply(false, Some(UserNotFound), NoData)
  {
  }

  /** Any other role performs no lookup: the reply is `User not found` whatever the
      tables hold. The principals the JWT strategy produces for the call centre
      carry `callcentre_admin` and `callcentre_operator`, so they always get it. */
  lemma OtherRolesFindNothing(user: Principal, findByLogin: (ProfileTable, string) -> Option<Dict>)
    requires ProfileTableOf(user.role).None?
    ensures GetProfile(user, findByLogin) == Reply(false, Some(UserNotFound), NoData)
    ensures ProfileTableOf("callcentre_operator").None? && ProfileTableOf("callcentre_admin").None?
  {
  }

  /** The profile depends on the caller's login and role only, never on its id:
      two callers differing only in id get the same reply. */
  lemma ProfileIgnoresUserId(user: Principal, otherId: int, findByLogin: (ProfileTable, string) -> Option<Dict>)
    ensures GetProfile(user, findByLogin) == GetProfile(Principal(otherId, user.login, user.role), findByLogin)
  {
  }

  /** Only the row at the caller's login in the caller's table matters. */
  lemma ProfileReadsOneRow(user: Principal, f: (ProfileTable, string) -> Option<Dict>, g: (ProfileTable, string) -> Option<Dict>)
    requires ProfileTableOf(user.role).Some? ==>
      f(ProfileTableOf(user.role).value, user.login) == g(ProfileTableOf(user.role).value, user.login)
    ensures GetProfile(user, f) == GetProfile(user, g)
  {
  }
}
