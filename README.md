# users-service request gating, modelled in Dafny

This project models the core of `users-service`. The service is a NestJS user-management API over four personnel tables: masters, directors, call-centre admins and call-centre operators. The model covers:

- how a request is authenticated:
  - the JWT strategy's startup check and `validate`;
  - the fail-closed existence lookup;
  - the cookie-to-header injection of `CookieJwtAuthGuard` and its error mapping;
  - the bearer-only `AuthGuard('jwt')`;
- how it is authorized: the route role tables, `RolesGuard`, and the directors' ownership checks, composed in `Authorization.Gate`;
- what the global exception filter logs and replies: the recursive redaction of request bodies, and the status, message and ≥ 500 logging rule;
- what the services write and return:
  - `where` filters;
  - create defaults;
  - truthiness-driven partial-update maps;
  - `type` dispatch with BadRequest;
  - the employee merge, tag and filter;
  - the role-to-profile dispatch;
- the cookie name per origin and the database-URL parameter appending.

There is one module per source file. `Js` holds JavaScript values with their truthiness (`undefined`, `null`, `false`, `0` and `""` are falsy; every array and object is truthy), spreads of the form `...(x && {k: x})`, `includes` and `toLowerCase`. `Common` holds the HTTP errors and the principal. `Queries` holds the Prisma `where`, write and reply shapes.

The JWT library, the database, `unsignCookie` and URL parsing appear as function parameters: oracles whose answers the model takes as given.

Two properties of the code as written are proved here and not altered:

- **No declared role can be met.** Tokens carry lower-case roles (`director`), while `UserRole` values are upper case (`DIRECTOR`). `UserRole.ADMIN`, named by several routes, is not a member of the enum, so at run time it is `undefined` and matches no user's role (`RolesGuard.Value` gives it no string). It does match a request without a user (`undefined === undefined`, `RolesGuard.AdminMatchesOnlyAnonymous`), but in this service `RolesGuard` always runs after an authentication guard, which refuses such requests first. As a result, every route that declares `@Roles` refuses every principal `validate` can produce (`Authorization.DeclaredRoutesRefuseEveryRequest`). The only reachable routes of the four resource controllers (directors, masters, operators, employees) are their four health endpoints and `GET /masters/:id` (`Authorization.ReachableRoutes`).
- **The ownership checks are inert.** The directors' checks test for `role === 'director'`. A principal that clears `RolesGuard` carries an upper-case role, so these checks never deny anyone (`Authorization.OwnershipNeverApplies`). On their own, they hold a director to their own record (`DirectorsController.DirectorKeptToOwnRecord`).

`validateUserExists` queries the database on every request (src/auth/jwt.strategy.ts:52); there is no cache.

A few behaviours come from the framework libraries rather than from this repository. They are modelled as follows:

- Nest throws `ForbiddenException('Forbidden resource')` when a guard returns false.
- The default `handleRequest` of `AuthGuard('jwt')` rethrows the strategy's error, and otherwise throws `UnauthorizedException('Unauthorized')`.
- passport reports why a token was rejected through `info.name`: for example `TokenExpiredError`, `JsonWebTokenError`, `NotBeforeError`, or `Error` when no token was sent. The model takes any name (`JwtStrategy.Rejected(infoName)`); the first two get their own messages, and every other name falls through to `Authentication required.`

## Model

| member | source | states |
|---|---|---|
| Js.PickTruthy | src/masters/masters.service.ts:154-155 | a spread run `...(dto.k && {k: dto.k})` has exactly the truthy keys among those listed, each with the DTO's value |
| Js.PatchData | src/operators/operators.service.ts:188-194 | a partial-update map has the truthy listed fields, plus `note` exactly when it is not `undefined`, with the DTO's values |
| PrismaService.JoinedParamsStartWithLimit | src/prisma/prisma.service.ts:16-21 | the joined pool parameters begin with `connection_limit=20&` and mention `connection_limit` |
| PrismaService.DatabaseUrl | src/prisma/prisma.service.ts:13 | a missing or empty `DATABASE_URL` gives the empty URL, any other value is kept |
| PrismaService.EnhancedUrl | src/prisma/prisma.service.ts:14-26 | the original URL is always a prefix of the result, and a URL already containing `connection_limit` is returned unchanged |
| PrismaService.EnhancedUrlAppends | src/prisma/prisma.service.ts:14-25 | otherwise the result is url + separator + the four parameters joined by `&`, the separator being `&` iff the URL contains `?` |
| PrismaService.EnhancedUrlOfEmpty | src/prisma/prisma.service.ts:13-25 | an unset URL gives `?` followed by the parameters, starting `?connection_limit=20&` |
| PrismaService.EnhancedUrlIdempotent | src/prisma/prisma.service.ts:23-26 | the result always sets `connection_limit`, so augmenting twice equals augmenting once |
| CookieConfig.ShouldUseCookiesExact | src/config/cookie.config.ts:36-38 | cookie mode iff the `x-use-cookies` header is exactly `true`; no headers or no entry gives false |
| CookieConfig.SplitJoin | src/config/cookie.config.ts:63 | joining the parts of `split('.')` gives the hostname back, and no part contains a dot |
| CookieConfig.SplitShape | src/config/cookie.config.ts:63-64 | there are at least two parts iff the hostname has a dot; the first part is what precedes the first dot |
| CookieConfig.GetCookieNameCases | src/config/cookie.config.ts:48-73 | no origin, an unparsable origin or a single-label host give the base name; the apex domain gives `_masters`; any other dotted host gives `_` plus its first label |
| CookieConfig.GetCookieName | src/config/cookie.config.ts:48-73 | every cookie name begins with the base name, and no origin or an empty one gives the base name itself |
| CookieConfig.SubdomainCookieName | src/config/cookie.config.ts:62-67 | a host `p.q` other than the apex gets `baseName_p` (so `core.lead-schem.ru` gives `access_token_core`) |
| RolesGuard.Matches | src/auth/roles.guard.ts:27-30 | a user matches a role iff the role is not `ADMIN` and its string equals the user's role; a request without a user matches exactly `ADMIN` (`undefined === undefined`) |
| RolesGuard.RequiredRoles | src/auth/roles.guard.ts:18-21 | the handler's roles metadata when it has some, otherwise the class's |
| RolesGuard.CanActivate | src/auth/roles.guard.ts:17-31 | no metadata admits every request; a declared empty list admits none |
| RolesGuard.NoMetadataAdmitsAll | src/auth/roles.guard.ts:23-25 | without roles metadata every request passes, with or without a user |
| RolesGuard.DeclaredRolesAdmitExactly | src/auth/roles.guard.ts:27-30 | with roles declared, a request with a user passes iff the user's role string equals one of the declared names exactly; a request without a user passes iff the list names `ADMIN` |
| RolesGuard.AnonymousPassesOnlyAdminLists | src/auth/roles.guard.ts:27-30 | with roles declared, a request without a user is refused by a list of real roles and admitted by a list naming `ADMIN` |
| RolesGuard.EmptyRoleListRefusesAll | src/auth/roles.guard.ts:23-30 | a declared empty list refuses everyone |
| RolesGuard.HandlerMetadataOverridesClass | src/auth/roles.guard.ts:18-21 | handler metadata overrides class metadata |
| RolesGuard.AdminMatchesOnlyAnonymous | src/auth/roles.guard.ts:4-9 | `ADMIN` (`undefined`) matches exactly the requests without a user, and the names a user can match are the four upper-case strings |
| JwtStrategy.Configure | src/auth/jwt.strategy.ts:20-28 | startup succeeds iff the secret is set and has at least 32 characters, with the two distinct error messages otherwise |
| JwtStrategy.RoleTable | src/auth/jwt.strategy.ts:68-98 | a role names a table iff it is one of the four lower-case roles |
| JwtStrategy.ValidateUserExists | src/auth/jwt.strategy.ts:66-104 | true exactly when the role is one of the four and its table has a row at the id |
| JwtStrategy.ValidateUserExistsFailsClosed | src/auth/jwt.strategy.ts:66-104 | existence holds iff the role's table has a row at the id; unknown roles and failing lookups give false; only that row is consulted |
| JwtStrategy.Validate | src/auth/jwt.strategy.ts:37-64 | an accepted payload passes the claims checks and yields exactly `{userId: sub, login, role}`, which is well formed; a refusal is one of the three 401s `Invalid token payload`, `Invalid role in token`, `User not found` |
| JwtStrategy.ValidateRefusesMissingClaims | src/auth/jwt.strategy.ts:39-42 | a falsy `sub`, `login` or `role` gives `Invalid token payload` |
| JwtStrategy.ValidateRefusesZeroSubAndEmptyLogin | src/auth/jwt.strategy.ts:39-42 | `sub = 0` and `login = ""` are refused as missing |
| JwtStrategy.ValidateRefusesUnknownRoleBeforeLookup | src/auth/jwt.strategy.ts:45-49 | an unknown role gives `Invalid role in token` whatever the database holds |
| JwtStrategy.ValidateRefusesUnknownUser | src/auth/jwt.strategy.ts:52-57 | a subject missing from its role's table gives `User not found` |
| JwtStrategy.ValidateSucceedsExactly | src/auth/jwt.strategy.ts:37-64 | `validate` succeeds iff claims, role and lookup all pass; the principal is exactly `{userId: sub, login, role}`; every refusal is a 401 |
| JwtStrategy.RunStrategy | src/auth/jwt.strategy.ts:30-64 | `info` is set iff passport rejected the token; a user is handed on iff the token decoded and `validate` accepted it, and is then well formed with no error; an error is a 401 from `validate` |
| JwtStrategy.DefaultHandleRequest | src/masters/masters.controller.ts:25 | `AuthGuard('jwt')` lets a user through iff there is no error and a user; a strategy error is rethrown as it is |
| JwtStrategy.BearerAuthenticate | src/masters/masters.controller.ts:24-38 | on the bearer-only routes an admitted principal is well formed and every refusal is a 401 |
| JwtStrategy.BearerAuthenticateIsValidate | src/auth/jwt.strategy.ts:30-64 | the bearer guard admits exactly what `validate` builds from the decoded header; a rejected token is a plain 401 |
| CookieJwtAuthGuard.FirstPresent | src/auth/guards/cookie-jwt-auth.guard.ts:24-25 | the request's own cookies (unsign function) are preferred to the raw request's |
| CookieJwtAuthGuard.CookieToken | src/auth/guards/cookie-jwt-auth.guard.ts:21-42 | the only exception is the tampering 401, raised only with signing on and an unsign function; no cookie source gives no token |
| CookieJwtAuthGuard.InjectAuthorization | src/auth/guards/cookie-jwt-auth.guard.ts:44-48 | a non-empty Authorization header is kept as it is, and no other header is added, removed or changed |
| CookieJwtAuthGuard.HandleRequest | src/auth/guards/cookie-jwt-auth.guard.ts:54-65 | the result is the user iff there is no error and a user; a refusal is a 401 unless the strategy threw a non-401 error, which is rethrown |
| CookieJwtAuthGuard.CookieAuthenticate | src/auth/guards/cookie-jwt-auth.guard.ts:17-65 | any principal the guard admits is well formed (non-zero id, non-empty login, lower-case role), and every refusal is a 401 |
| CookieJwtAuthGuard.CanActivate | src/auth/guards/cookie-jwt-auth.guard.ts:17-52 | the header map changes only by the injection (not at all after the tampering error), and the result is the cookie-authentication outcome of the original headers |
| CookieJwtAuthGuard.TamperedCookieIsRefused | src/auth/guards/cookie-jwt-auth.guard.ts:27-37 | with signing on, a cookie with an invalid signature is refused with the tampering message, never treated as absent |
| CookieJwtAuthGuard.SignedCookieToken | src/auth/guards/cookie-jwt-auth.guard.ts:27-38 | with signing on, a valid signature yields the unsigned value; a null result or an absent or empty cookie yields no token |
| CookieJwtAuthGuard.RawCookieToken | src/auth/guards/cookie-jwt-auth.guard.ts:39-42 | with signing off (as shipped) the raw cookie value is the token |
| CookieJwtAuthGuard.NoCookiesLeaveHeadersAlone | src/auth/guards/cookie-jwt-auth.guard.ts:21-48 | no cookie source gives no token and unchanged headers |
| CookieJwtAuthGuard.InjectionRules | src/auth/guards/cookie-jwt-auth.guard.ts:45-48 | a present Authorization header is never overwritten; `Bearer <token>` is set iff a non-empty token was found and none was present; other headers are untouched |
| CookieJwtAuthGuard.HandleRequestOrder | src/auth/guards/cookie-jwt-auth.guard.ts:54-65 | the user passes through when there is no error; otherwise expiry, then a bad token, then the error itself, then `Authentication required.` |
| CookieJwtAuthGuard.ExpiredTokenIsRefused | src/auth/guards/cookie-jwt-auth.guard.ts:54-58 | an expired token is refused with the expiry message whatever the database holds |
| CookieJwtAuthGuard.DecodedTokenIsValidated | src/auth/guards/cookie-jwt-auth.guard.ts:45-51 | a decoded token passes exactly when `validate` accepts it, with its refusal unchanged otherwise |
| CookieJwtAuthGuard.CookieOnlyRequestUsesCookie | src/auth/guards/cookie-jwt-auth.guard.ts:39-51 | for all headers without Authorization, all cookie maps with a non-empty `access_token` and any unsign function, the shipped guard authenticates as if the request had sent `Authorization: Bearer <cookie>` |
| CookieJwtAuthGuard.CookieOnlyRequest | src/auth/guards/cookie-jwt-auth.guard.ts:17-51 | the guard method, run on a request built from any such headers and cookies, returns the outcome of `Bearer <cookie>` |
| DirectorsController.PolicyOf | src/directors/directors.controller.ts:14-72 | health is the only unguarded route; every other route uses the cookie guard and declares roles, and the class declares none |
| DirectorsController.RoleTable | src/directors/directors.controller.ts:25-72 | list and get admit `DIRECTOR`/`CALLCENTRE_ADMIN`, create and delete only `CALLCENTRE_ADMIN`, update only `DIRECTOR` |
| DirectorsController.OwnershipCheck | src/directors/directors.controller.ts:41-77 | an ownership refusal is a 403 and only ever applies to the `director` role |
| DirectorsController.DirectorKeptToOwnRecord | src/directors/directors.controller.ts:41-64 | a director may view and update exactly their own id, with the two distinct messages |
| DirectorsController.DirectorCannotDeleteSelf | src/directors/directors.controller.ts:76-78 | a director's delete is refused exactly for their own id |
| DirectorsController.DirectorSevenExample | src/directors/directors.controller.ts:41-43 | director 7 may read record 7 and not record 8 |
| DirectorsController.OthersSkipOwnership | src/directors/directors.controller.ts:41-77 | no other role is subject to the ownership checks |
| MastersController.PolicyOf | src/masters/masters.controller.ts:13-71 | health is unguarded and the rest are bearer-only; the class declares no roles; only health and `GET /masters/:id` declare none |
| MastersController.RoleTable | src/masters/masters.controller.ts:24-71 | list admits `DIRECTOR`/`CALLCENTRE_ADMIN`, create/update/delete `DIRECTOR`, documents `DIRECTOR`/`MASTER` |
| OperatorsController.PolicyOf | src/operators/operators.controller.ts:13-67 | health is unguarded; every other route is bearer-only and declares roles, and the class declares none |
| OperatorsController.RoleTable | src/operators/operators.controller.ts:24-67 | list and get admit `CALLCENTRE_ADMIN`/`DIRECTOR`, create/update/delete only `CALLCENTRE_ADMIN` |
| EmployeesController.PolicyOf | src/employees/employees.controller.ts:13-54 | health is unguarded; every other route is bearer-only and declares roles, and the class declares none |
| EmployeesController.RoleTable | src/employees/employees.controller.ts:13-54 | list and get admit `DIRECTOR`/`CALLCENTRE_ADMIN`, create and update only `DIRECTOR`; there is no delete route |
| Authorization.Authorize | src/directors/directors.controller.ts:34-44 | unguarded routes pass; a failed authentication is refused with its own error; a false `RolesGuard` gives 403 `Forbidden resource` |
| Authorization.Authenticate | src/masters/masters.controller.ts:25 | whichever guard runs, an authenticated principal is well formed and a refusal is a 401 |
| Authorization.Gate | src/directors/directors.controller.ts:34-44 | unguarded routes always pass; a guarded route passes only an authenticated request; every refusal is a 401 or a 403 |
| Authorization.WellFormedMatchesNoDeclaredRole | src/auth/roles.guard.ts:4-30 | no principal with a lower-case role satisfies any declared role list |
| Authorization.DeclaredRoutesRefuseEveryRequest | src/auth/roles.guard.ts:30 | on every route declaring roles, every request is refused whatever its token, cookies and database |
| Authorization.ReachableRoutes | src/masters/masters.controller.ts:13-38 | a request is allowed iff it targets a health route, or `GET /masters/:id` with a bearer token that authenticates |
| Authorization.GetMasterAdmitsAnyAuthenticated | src/masters/masters.controller.ts:33-38 | `GET /masters/:id` admits every authenticated principal for every id |
| Authorization.OwnershipNeverApplies | src/directors/directors.controller.ts:37-41 | whoever clears the directors' role check is never denied by the ownership check |
| Authorization.UpdateDocumentsChecksRolesOnly | src/masters/masters.controller.ts:68-77 | `PUT /masters/:id/documents` is decided by `RolesGuard` alone, the same for every id in the path |
| GlobalExceptionFilter.Sanitize | src/filters/global-exception.filter.ts:18-36 | primitives and null come back unchanged; arrays keep their length and objects their key sequence |
| GlobalExceptionFilter.SanitizeEntry | src/filters/global-exception.filter.ts:27-33 | an entry keeps its key |
| GlobalExceptionFilter.SanitizeObject | src/filters/global-exception.filter.ts:18-36 | the loop with recursive calls computes exactly the sanitized tree |
| GlobalExceptionFilter.SanitizeArray | src/filters/global-exception.filter.ts:21-23 | arrays are sanitized element-wise in order |
| GlobalExceptionFilter.SanitizeEntries | src/filters/global-exception.filter.ts:26-34 | a sensitive key gets `[REDACTED]`; other keys keep primitive and null values and have object values sanitized |
| GlobalExceptionFilter.SanitizeIdempotent | src/filters/global-exception.filter.ts:25-35 | sanitizing twice equals sanitizing once |
| GlobalExceptionFilter.SanitizeHidesSecrets | src/filters/global-exception.filter.ts:13-35 | after sanitizing, no sensitive key at any depth carries anything but `[REDACTED]` |
| GlobalExceptionFilter.SensitiveFragments | src/filters/global-exception.filter.ts:13-27 | a key is sensitive iff its lower-case form contains `password`, `token`, `secret` or `apikey` |
| GlobalExceptionFilter.FirstTruthy | src/filters/global-exception.filter.ts:82-83 | `a \|\| b \|\| null`: the first value when it is non-empty, else the second when it is non-empty, else `null` exactly when both are empty or absent |
| GlobalExceptionFilter.LogRow | src/filters/global-exception.filter.ts:67-88 | the logged body holds no secret and is already sanitized; params, query, error type, message, method and URL are as given; the user's id and role, logged exactly when truthy; the ip is `request.ip \|\| x-forwarded-for \|\| null` and the user agent `user-agent \|\| null` |
| GlobalExceptionFilter.Catch | src/filters/global-exception.filter.ts:44-108 | the reply has `success: false` and the request path; a log row is attempted iff the status is at least 500, holds no secret and carries the reply's message |
| GlobalExceptionFilter.CatchResponse | src/filters/global-exception.filter.ts:49-107 | the reply always has `success: false`, the request path, the HttpException status (else 500), and its message (else `Unknown error`) |
| GlobalExceptionFilter.LogOnlyServerErrors | src/filters/global-exception.filter.ts:67-94 | a log row is attempted iff the status is at least 500, so every non-HttpException is logged and no 4xx is |
| GlobalExceptionFilter.LoggedRowRedacted | src/filters/global-exception.filter.ts:70-88 | the logged body is the sanitized body and holds no secret; params and query are logged as they are; the user's id and role, logged exactly when truthy |
| Queries.SearchClauses | src/masters/masters.service.ts:22-28 | the search OR has one case-insensitive `contains` per column, in column order |
| MastersService.GetMastersWhere | src/masters/masters.service.ts:9-28 | `cities has city`, `statusWork` equality and the name/login/phone OR are present iff their query value is truthy; nothing else is; an empty query gives `{}` |
| MastersService.GetMaster | src/masters/masters.service.ts:53-77 | a found master is returned, a missing one raises NotFound `Master not found` |
| MastersService.CreateMaster | src/masters/masters.service.ts:80-106 | the seven columns are written, `cities` defaulting to `[]` and `statusWork` to `active` when falsy |
| MastersService.UpdateMaster | src/masters/masters.service.ts:109-136 | the update targets the master `id` with its own message |
| MastersService.UpdateMasterWrites | src/masters/masters.service.ts:112-120 | the listed fields are written iff truthy, `note` iff not `undefined` (a `null` note is written); documents and id never |
| MastersService.MutationsTargetOneMaster | src/masters/masters.service.ts:109-169 | update, document update and delete act on the path's id alone, with distinct messages |
| MastersService.UpdateDocuments | src/masters/masters.service.ts:150-169 | the document update targets the master `id` |
| MastersService.UpdateDocumentsWrites | src/masters/masters.service.ts:153-156 | only truthy `contractDoc`/`passportDoc` are written; with neither, the data map is empty |
| MastersService.DeleteMaster | src/masters/masters.service.ts:139-148 | a delete on the masters table at the path's id |
| OperatorsService.ParseType | src/operators/operators.service.ts:84-130 | only the exact strings `admin` and `operator` name a table |
| OperatorsService.TableOf | src/operators/operators.service.ts:239-263 | `admin` selects the admin table and `operator` the operator table, and no type selects both |
| OperatorsService.Noun | src/operators/operators.service.ts:239-263 | the replies of `admin` start with `Admin` and those of `operator` with `Operator` |
| OperatorsService.GetOperators | src/operators/operators.service.ts:9-81 | `admin` gives only admins, `operator` only operators, anything else both as `{admins, operators}` |
| OperatorsService.GetOperator | src/operators/operators.service.ts:83-131 | the row from the named table, NotFound `Admin not found`/`Operator not found`, or BadRequest for any other type |
| OperatorsService.CreateOperator | src/operators/operators.service.ts:133-185 | BadRequest iff the type is unknown; otherwise the named table, its message, the five columns, `statusWork` defaulting to `active` |
| OperatorsService.UpdateData | src/operators/operators.service.ts:188-194 | `updateData` has the truthy name/login/password/statusWork, plus `note` iff not `undefined`, and never `type` |
| OperatorsService.UpdateOperator | src/operators/operators.service.ts:187-237 | BadRequest iff the type is unknown; otherwise `updateData` on the named table with its message |
| OperatorsService.DeleteOperator | src/operators/operators.service.ts:239-263 | BadRequest iff the type is unknown; otherwise a delete on the named table with its message |
| OperatorsService.TypeDispatch | src/operators/operators.service.ts:196-237 | `admin` acts on the admin table and `operator` on the operator table; `Admin` or an absent type is a 400; create and update accept the same types |
| OperatorsService.UpdateDataIndependentOfType | src/operators/operators.service.ts:188-233 | both tables receive the same update data |
| DirectorsService.GetDirector | src/directors/directors.service.ts:31-55 | a found director is returned, a missing one raises NotFound `Director not found` |
| DirectorsService.CreateDirector | src/directors/directors.service.ts:57-86 | eight columns are written with `cities` defaulting to `[]`, and never `statusWork` |
| DirectorsService.UpdateDirector | src/directors/directors.service.ts:88-112 | the update targets the director `id` with its own message |
| DirectorsService.UpdateDirectorWrites | src/directors/directors.service.ts:91-97 | name, login, password and cities are written iff truthy, `note` iff not `undefined`; `tgId`, documents and `statusWork` never |
| DirectorsService.DeleteDirector | src/directors/directors.service.ts:114-123 | a delete on the directors table at the path's id |
| DirectorsService.MutationsTargetOneDirector | src/directors/directors.service.ts:88-123 | update and delete act on the path's id with distinct messages |
| EmployeesService.SearchWhere | src/employees/employees.service.ts:14-19 | a truthy search gives exactly the name/login OR, otherwise `{}` |
| EmployeesService.Tag | src/employees/employees.service.ts:51-54 | every row is kept in order with `role` set |
| EmployeesService.AllEmployees | src/employees/employees.service.ts:51-54 | the masters, each tagged `master`, then the directors, each tagged `director`, and nothing else: every row has one of the two tags |
| EmployeesService.FilterByRole | src/employees/employees.service.ts:57-59 | the output keeps only items with the role, and drops none of them |
| EmployeesService.FilterByRoleCons | src/employees/employees.service.ts:57-59 | the first item is kept exactly when it has the role, ahead of the filtered rest, so order and repeats are kept |
| EmployeesService.GetEmployees | src/employees/employees.service.ts:8-64 | the reply is a success carrying a list |
| EmployeesService.NoRoleListsEveryone | src/employees/employees.service.ts:51-59 | without a role, the tagged masters then the tagged directors, `|masters| + |directors|` of them |
| EmployeesService.FilterAllTagged | src/employees/employees.service.ts:57-59 | filtering tagged rows on their own tag keeps all of them in order |
| EmployeesService.FilterNoneTagged | src/employees/employees.service.ts:57-59 | filtering tagged rows on another value keeps none |
| EmployeesService.FilterAppend | src/employees/employees.service.ts:51-59 | filtering the merged list is filtering each part and concatenating |
| EmployeesService.RoleFilter | src/employees/employees.service.ts:57-59 | with a role, the items are exactly the merged items having it; `master` gives the tagged masters, `director` the tagged directors, any other role nothing |
| UsersService.ProfileTableOf | src/users/users.service.ts:15-48 | only `master`, `director` and `operator` name a profile table |
| UsersService.GetProfile | src/users/users.service.ts:8-74 | an unsuccessful reply is exactly `{success: false, message: 'User not found'}` |
| UsersService.ProfileByLogin | src/users/users.service.ts:15-73 | a known role looks up the caller's login; found gives success with the row plus the caller's role, missing gives `User not found` |
| UsersService.OtherRolesFindNothing | src/users/users.service.ts:60-65 | any other role, including `callcentre_admin` and `callcentre_operator`, gets `User not found` whatever the tables hold |
| UsersService.ProfileIgnoresUserId | src/users/users.service.ts:10-17 | the reply does not depend on the caller's id |
| UsersService.ProfileReadsOneRow | src/users/users.service.ts:15-57 | only the row at the caller's login in the caller's table matters |

## Left out

- Database access (Prisma `findMany`, `findUnique`, `create`, `update`, `delete`):
  - lookups are parameters that answer a row or nothing;
  - list results are given row sequences, and `select` projections and `orderBy` are not modelled;
  - a mutation is modelled as the write it requests (table, id, data) with its success message; database errors on writes (unique violations, a missing row on update or delete) are not modelled.
- The `where` filters are modelled as data. Prisma's case-insensitive matching (`mode: 'insensitive'`) is not evaluated.
- Token signature and expiry checking by passport-jwt is an oracle from the Authorization header to a decoded payload or an error name. The bearer extraction (`fromAuthHeaderAsBearerToken`) is inside that oracle.
- `unsignCookie` is an oracle. Cookie parsing by `@fastify/cookie` is not modelled. `COOKIE_SECRET` and `COOKIE_OPTIONS` are not modelled beyond the constants used here.
- `new URL(origin).hostname` is an oracle answering None where the constructor throws. The concrete host `core.lead-schem.ru` is covered by `CookieConfig.SubdomainCookieName` rather than by a lemma on that literal.
- `toLowerCase` folds ASCII letters only. String lengths count characters, not UTF-16 code units.
- Numbers are unbounded integers. `+id` conversion, NaN and `ParseIntPipe` failures are not modelled; ids are taken as integers.
- Header values are strings. Repeated headers (`string[]`) are not modelled.
- Object keys of a sanitized body are assumed distinct, as `Object.entries` yields them.
- Logging (`Logger`, `console.log`), the error-log database write itself, the stack trace and the reply timestamp are I/O and left out. The write's failure is swallowed, so the reply is a function of the exception and the request alone (`GlobalExceptionFilter.Catch`).
- `Promise.all` concurrency in `getOperators` and `getEmployees`: the two reads are independent, so only their results are modelled.
- The health handlers' bodies and the controllers' delegation to the services are plain pass-through. The `{success: true, data}` envelopes of the list endpoints (`getDirectors`, `getMasters`) are not modelled beyond their filters.
- `EmployeesController` calls `getEmployee`, `createEmployee` and `updateEmployee`, which `EmployeesService` does not define. Those routes are modelled up to their guards only.
- `DirectorsController.getDirectors` passes a query DTO that `DirectorsService.getDirectors` ignores.
- DTO validation, Swagger, CORS and Helmet, bootstrap (`main.ts`, modules), `UsersController` and the `PrismaService` lifecycle hooks and logging are not part of this model.
