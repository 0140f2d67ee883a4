# Reimbursement system — a Dafny model of its rules

The system is an employee-reimbursement web application. It has two parts:

- a Spring backend: accounts, roles and permissions, a reimbursement ledger, and JWT login and logout;
- a React frontend: the session store, the route gates, and the forms and hooks that call the backend.

This project models the parts that decide something:

- **Roles and permissions.** The role → permission table, an account's derived permissions, the permission evaluator's decision tree, and `requirePermission`.
- **Reimbursement ledger.** A class over a table of rows keyed by id. It supports create (always `PENDING`), filtered and ordered listing, update of pending records, and resolution, with the checks in the source's order.
- **Accounts.** Unique emails, default `RESTRICTED` role, the `RESTRICTED` → `EMPLOYEE` upgrade, deletion, and the DTO mappers.
- **Authentication.** The password policy, register and authenticate with their error order, the token blacklist (grow-only), Bearer extraction (section 2.1 of RFC 6750), the `sub`/`iat`/`exp` claim rules (sections 4.1.2, 4.1.4 and 4.1.6 of RFC 7519), the JWT filter's admission decision, and the security configuration's permit table.
- **Frontend session.** The versioned, expiring `storageUtils` store over a string map, the raw `authUtils` keys and their expiry check, `sessionUtils`, and the `AuthProvider` state.
- **Frontend routing.** `ROLE_REDIRECT`, the protected-route gate, the dashboard redirects, and the sidebar's menu filter and logout order.
- **Frontend forms and hooks.** Registration, login, creating, listing and resolving reimbursements, and the role upgrade. Each is a class whose methods take the API call's outcome as an input.
- **Frontend API clients.** The case-sensitive substring rules that turn server messages into the messages users see.

Inputs the model cannot see are parameters or uninterpreted functions:

- the clock, as integer readings in milliseconds;
- BCrypt hashing and matching;
- JWT signing and decoding, over a claims record;
- `jwt-decode` and `JSON.parse`;
- each HTTP call's outcome.

Where the code and its design notes disagree, the model follows the code:

- `AuthProvider` has no restore step, no `isLoading` and no `updateUser`. The gates therefore read `isLoading` as undefined, and the upgrade hook fails at its `updateUser` call.
- `authUtils` stores the token and the user as raw strings, not as `storageUtils` items.
- `DashboardRouter` has no fallback route beyond its sub-route table.
- The reimbursement mapper copies an `amount` that neither the entity nor the request DTO declares. The model carries it as an optional opaque value that is copied and never computed with.
- `UserAccountRepoImpl` is a non-compiling stub. The account store follows the `UserAccountRepository` interface instead.
- `Roles` grants permissions that the `Permissions` enum does not declare. The permission datatype is the union of the two.

## Model

| member | source | states |
|---|---|---|
| Roles.Permissions | core/src/main/java/com/ddjproj/revature/domain/enums/Roles.java:9-43 | every role but GUEST holds LOGOUT; MANAGER does not hold CREATE_REIMBURSEMENT_REQUEST |
| Roles.PermissionNames | core/src/main/java/com/ddjproj/revature/domain/enums/Roles.java:41-43 | the name set contains exactly the names of the role's permissions |
| Roles.NamesDistinct | core/src/main/java/com/ddjproj/revature/domain/enums/Permissions.java:59-61 | two different permissions never share a name |
| Roles.RoleNamesDistinct | core/src/main/java/com/ddjproj/revature/domain/enums/Roles.java:8-34 | two different roles never share a name |
| Roles.GuestPermissionsExact | core/src/main/java/com/ddjproj/revature/domain/enums/Roles.java:9-12 | GUEST holds exactly CREATE_ACCOUNT and LOGIN |
| Roles.RestrictedPermissionsExact | core/src/main/java/com/ddjproj/revature/domain/enums/Roles.java:13-16 | RESTRICTED holds exactly REQUEST_EMPLOYEE_ACCOUNT and LOGOUT |
| Roles.EmployeePermissionsExact | core/src/main/java/com/ddjproj/revature/domain/enums/Roles.java:17-23 | EMPLOYEE holds exactly its five listed permissions |
| Roles.ManagerPermissionsExact | core/src/main/java/com/ddjproj/revature/domain/enums/Roles.java:24-33 | MANAGER holds exactly its eight permissions, and not CREATE_REIMBURSEMENT_REQUEST |
| Roles.PermissionCounts | core/src/main/java/com/ddjproj/revature/domain/enums/Roles.java:9-33 | the four sets have 2, 2, 5 and 8 distinct members |
| Roles.PermissionNamesCount | backend/src/main/java/com/ddjproj/revature/dto/UserAccountMapper.java:25-27 | naming a role's permissions loses none of them: as many names as permissions |
| Roles.NamesPreserveCount | backend/src/main/java/com/ddjproj/revature/dto/UserAccountMapper.java:25-27 | any set of permissions has as many names as members |
| UserAccountEntity.UserAccount.constructor | core/src/main/java/com/ddjproj/revature/domain/entity/UserAccount.java:17-33 | the no-argument constructor leaves every column unset except the default role RESTRICTED |
| UserAccountEntity.UserAccount.WithCredentials | core/src/main/java/com/ddjproj/revature/domain/entity/UserAccount.java:39-43 | email and the given password string stored verbatim, role RESTRICTED, no id |
| UserAccountEntity.UserAccount.Loaded | core/src/main/java/com/ddjproj/revature/domain/entity/UserAccount.java:18-33 | the entity the persistence layer loads holds exactly the row's columns |
| UserAccountEntity.UserAccount.Permissions | core/src/main/java/com/ddjproj/revature/domain/entity/UserAccount.java:46-49 | always the current role's permission set, so LOGOUT exactly when the role is not GUEST |
| UserAccountEntity.UserAccount.SetEmail | core/src/main/java/com/ddjproj/revature/domain/entity/UserAccount.java:16 | the setter changes the email and no other field |
| UserAccountEntity.UserAccount.SetPasswordHash | core/src/main/java/com/ddjproj/revature/domain/entity/UserAccount.java:16 | the setter changes the hash and no other field |
| UserAccountEntity.UserAccount.SetRole | core/src/main/java/com/ddjproj/revature/domain/entity/UserAccount.java:16 | the setter changes the role (and with it the derived permissions) and no other field |
| UserAccountEntity.UserAccount.SetUserAccountId | core/src/main/java/com/ddjproj/revature/domain/entity/UserAccount.java:16 | the setter changes the id and no other field |
| UserAccountEntity.UserAccount.Row | core/src/main/java/com/ddjproj/revature/domain/entity/UserAccount.java:19-33 | the persisted row carries the entity's id, email, hash and role |
| ReimbursementEntity.Reimbursement.constructor | core/src/main/java/com/ddjproj/revature/domain/entity/Reimbursement.java:37-39 | a new reimbursement has only its status set, to PENDING |
| ReimbursementEntity.Reimbursement.Loaded | core/src/main/java/com/ddjproj/revature/domain/entity/Reimbursement.java:16-34 | the entity the persistence layer loads holds exactly the row's columns |
| ReimbursementEntity.Reimbursement.SetUserId | core/src/main/java/com/ddjproj/revature/domain/entity/Reimbursement.java:15 | the setter changes the owner and no other field |
| ReimbursementEntity.Reimbursement.SetId | core/src/main/java/com/ddjproj/revature/domain/entity/Reimbursement.java:15 | the setter changes the id and no other field |
| ReimbursementEntity.Reimbursement.SetStatus | core/src/main/java/com/ddjproj/revature/domain/entity/Reimbursement.java:15 | the setter changes the status and no other field |
| ReimbursementEntity.Reimbursement.SetDetails | backend/src/main/java/com/ddjproj/revature/dto/ReimbursementMapper.java:38-40 | the three setters a DTO drives change description, amount and type and nothing else |
| ReimbursementEntity.Reimbursement.Row | core/src/main/java/com/ddjproj/revature/domain/entity/Reimbursement.java:17-34 | the persisted row carries the entity's fields under the given id |
| AccountRepository.KeyedValue | core/src/main/java/com/ddjproj/revature/repository/UserAccountRepository.java:16 | a stored row is found under its own id |
| AccountRepository.LookupEmail | core/src/main/java/com/ddjproj/revature/repository/UserAccountRepository.java:10 | the row holding the email when there is one, and none for a null email |
| AccountRepository.UserAccountRepository.constructor | core/src/main/java/com/ddjproj/revature/repository/UserAccountRepository.java:9 | an empty table that satisfies the column constraints |
| AccountRepository.UserAccountRepository.FindByEmail | core/src/main/java/com/ddjproj/revature/repository/UserAccountRepository.java:10 | agrees with the email lookup, so present exactly when some row holds the email |
| AccountRepository.UserAccountRepository.ExistsByEmail | core/src/main/java/com/ddjproj/revature/repository/UserAccountRepository.java:11 | true exactly when some row holds the email |
| AccountRepository.UserAccountRepository.FindById | core/src/main/java/com/ddjproj/revature/repository/UserAccountRepository.java:16 | present exactly when the id is stored, and then that row |
| AccountRepository.UserAccountRepository.FindAll | core/src/main/java/com/ddjproj/revature/repository/UserAccountRepository.java:17 | every stored row, each exactly once |
| AccountRepository.UserAccountRepository.Save | core/src/main/java/com/ddjproj/revature/repository/UserAccountRepository.java:15 | refuses null columns and a duplicate email and then changes nothing; otherwise inserts with the next sequence id or overwrites the entity's row, keeping email uniqueness |
| AccountRepository.UserAccountRepository.DeleteById | core/src/main/java/com/ddjproj/revature/repository/UserAccountRepository.java:18 | removes exactly the row with that id |
| ReimbursementRepository.MaxExists | backend/src/main/java/com/ddjproj/revature/repository/JpaReimbursementRepository.java:21-25 | every non-empty id set has a largest id, which the descending order starts from |
| ReimbursementRepository.ReimbursementRepository.constructor | core/src/main/java/com/ddjproj/revature/repository/ReimbursementRepository.java:9 | an empty, well-keyed table |
| ReimbursementRepository.ReimbursementRepository.FindById | backend/src/main/java/com/ddjproj/revature/repository/ReimbursementRepoImpl.java:26-29 | present exactly when the id is stored, and then that row |
| ReimbursementRepository.ReimbursementRepository.Select | backend/src/main/java/com/ddjproj/revature/repository/JpaReimbursementRepository.java:21-25 | exactly the rows meeting the condition, strictly descending by id |
| ReimbursementRepository.ReimbursementRepository.FindAll | backend/src/main/java/com/ddjproj/revature/repository/ReimbursementRepoImpl.java:31-34 | every row, ordered by id descending |
| ReimbursementRepository.ReimbursementRepository.FindByUserId | backend/src/main/java/com/ddjproj/revature/repository/ReimbursementRepoImpl.java:36-39 | exactly the owner's rows, ordered by id descending |
| ReimbursementRepository.ReimbursementRepository.FindByStatus | backend/src/main/java/com/ddjproj/revature/repository/ReimbursementRepoImpl.java:41-44 | exactly the rows with that status, each once |
| ReimbursementRepository.ReimbursementRepository.FindByUserIdAndStatus | backend/src/main/java/com/ddjproj/revature/repository/ReimbursementRepoImpl.java:46-49 | exactly the owner's rows with that status, each once |
| ReimbursementRepository.ReimbursementRepository.Save | backend/src/main/java/com/ddjproj/revature/repository/ReimbursementRepoImpl.java:21-24 | inserts with the next sequence id or overwrites the entity's row; the entity gets its id and keeps every other field |
| ReimbursementMapper.ToResponseDto | backend/src/main/java/com/ddjproj/revature/dto/ReimbursementMapper.java:14-27 | null for null; otherwise describes exactly the stored row, with no email yet |
| ReimbursementMapper.StoredRow | backend/src/main/java/com/ddjproj/revature/dto/reimbursement/ReimbursementResponseDTO.java:15-33 | a response names a row exactly when every non-null column is present |
| ReimbursementMapper.RowResponse | backend/src/main/java/com/ddjproj/revature/dto/ReimbursementMapper.java:19-26 | the response for a row loses no column |
| ReimbursementMapper.LoadedResponse | backend/src/main/java/com/ddjproj/revature/dto/ReimbursementMapper.java:14-27 | mapping a loaded entity gives the response for its row |
| ReimbursementMapper.ToEntity | backend/src/main/java/com/ddjproj/revature/dto/ReimbursementMapper.java:32-45 | null for null; otherwise a fresh PENDING entity with the DTO's description, amount and type and no id or owner |
| ReimbursementMapper.UpdateEntityFromDto | backend/src/main/java/com/ddjproj/revature/dto/ReimbursementMapper.java:50-59 | no effect with a null argument; otherwise overwrites description, amount and type, keeping id, owner and status |
| UserAccountMapper.ToDto | backend/src/main/java/com/ddjproj/revature/dto/UserAccountMapper.java:15-29 | null for null; otherwise id, email, role and permission names, and never the password |
| UserAccountMapper.RowDto | backend/src/main/java/com/ddjproj/revature/dto/UserAccountMapper.java:21-28 | a stored account's DTO, which lists LOGOUT exactly when the role is not GUEST |
| UserAccountMapper.PermissionNamesLogout | backend/src/main/java/com/ddjproj/revature/dto/UserAccountMapper.java:25-27 | "LOGOUT" is among a role's permission names exactly when the role is not GUEST |
| UserAccountMapper.LoadedDto | backend/src/main/java/com/ddjproj/revature/dto/UserAccountMapper.java:15-29 | mapping a loaded entity gives its row's DTO |
| UserAccountMapper.ToEntity | backend/src/main/java/com/ddjproj/revature/dto/UserAccountMapper.java:34-48 | null for null; otherwise a fresh entity with the DTO's email, its role or RESTRICTED, and no id or hash |
| UserAccountMapper.UpdateEntityFromDto | backend/src/main/java/com/ddjproj/revature/dto/UserAccountMapper.java:53-65 | no effect with a null argument; only non-null email and role are copied; id and hash are never touched |
| PermissionEvaluator.HasPermission | backend/src/main/java/com/ddjproj/revature/service/PermissionEvaluatorImpl.java:22-37 | MANAGER always; otherwise no without the base permission, yes with it and no resource, else the resource rules decide |
| PermissionEvaluator.EvaluateResourcePermission | backend/src/main/java/com/ddjproj/revature/service/PermissionEvaluatorImpl.java:39-84 | ownership rules for the four reimbursement permissions, pending-only edits, no self-delete; only a reimbursement or an account can be refused |
| PermissionEvaluator.EmployeeEditsOnlyOwnPending | backend/src/main/java/com/ddjproj/revature/service/PermissionEvaluatorImpl.java:61-64 | an EMPLOYEE may edit exactly its own PENDING reimbursements |
| PermissionEvaluator.EmployeeViewsOnlyOwn | backend/src/main/java/com/ddjproj/revature/service/PermissionEvaluatorImpl.java:50-59 | an EMPLOYEE sees a single or submitted reimbursement exactly when it owns it |
| PermissionEvaluator.OnlyManagersViewAllOrDelete | backend/src/main/java/com/ddjproj/revature/service/PermissionEvaluatorImpl.java:43-48 | VIEW_ALL and DELETE_USER are granted exactly to a MANAGER, on any resource |
| PermissionEvaluator.ManagerMayDeleteSelf | backend/src/main/java/com/ddjproj/revature/service/PermissionEvaluatorImpl.java:24-26 | a MANAGER may delete its own account although the self-delete rule would refuse it |
| PermissionEvaluator.ManagerCreatesWithoutThePermission | backend/src/main/java/com/ddjproj/revature/service/PermissionEvaluatorImpl.java:24-26 | a MANAGER may create a reimbursement without holding that permission |
| PermissionEvaluator.BasePermissionSuffices | backend/src/main/java/com/ddjproj/revature/service/PermissionEvaluatorImpl.java:66-83 | outside the guarded cases the base permission is enough |
| PermissionService.GetCurrentUser | backend/src/main/java/com/ddjproj/revature/service/PermissionService.java:28-37 | the two Unauthorized messages for no authentication and an unknown name; otherwise the account whose email is the name |
| PermissionService.HasPermissionOn | backend/src/main/java/com/ddjproj/revature/service/PermissionService.java:49-52 | the current-account error, or the evaluator's answer for that account |
| PermissionService.HasPermission | backend/src/main/java/com/ddjproj/revature/service/PermissionService.java:42-44 | true exactly for a MANAGER or a role holding the permission |
| PermissionService.RequirePermissionOn | backend/src/main/java/com/ddjproj/revature/service/PermissionService.java:64-68 | succeeds exactly when permission is granted; "Permission denied: NAME" when refused |
| PermissionService.RequirePermission | backend/src/main/java/com/ddjproj/revature/service/PermissionService.java:57-59 | succeeds exactly for a MANAGER or a role holding the permission |
| PermissionService.RequireFailsIffDenied | backend/src/main/java/com/ddjproj/revature/service/PermissionService.java:64-68 | with a known current account, the requirement fails exactly when the evaluator refuses |
| ReimbursementService.Enriched | backend/src/main/java/com/ddjproj/revature/service/ReimbursementService.java:166-174 | describes exactly the row, with the owner's email exactly when the owner's account exists |
| ReimbursementService.EnrichAll | backend/src/main/java/com/ddjproj/revature/service/ReimbursementService.java:95-97 | one enriched response per row, position by position |
| ReimbursementService.EnrichedListing | backend/src/main/java/com/ddjproj/revature/service/ReimbursementService.java:88-97 | enriching a query result lists exactly the selected rows, newest first when the query orders by id descending |
| ReimbursementService.SelectedByStatus | backend/src/main/java/com/ddjproj/revature/service/ReimbursementService.java:89-93 | the status filter keeps exactly the unfiltered rows with that status |
| ReimbursementService.ReimbursementService.constructor | backend/src/main/java/com/ddjproj/revature/service/ReimbursementService.java:36-45 | the service works over the given reimbursement and account tables |
| ReimbursementService.ReimbursementService.CreateReimbursement | backend/src/main/java/com/ddjproj/revature/service/ReimbursementService.java:47-68 | a refused permission stores nothing; otherwise a new PENDING row owned by the caller under the next id, answered with the caller's email |
| ReimbursementService.ReimbursementService.GetReimbursementById | backend/src/main/java/com/ddjproj/revature/service/ReimbursementService.java:70-80 | not found before any permission check; then the permission on that row; then its enriched response |
| ReimbursementService.ReimbursementService.GetMyReimbursements | backend/src/main/java/com/ddjproj/revature/service/ReimbursementService.java:82-98 | the permission error, or exactly the caller's rows (of the status when given), newest first without a filter |
| ReimbursementService.ReimbursementService.GetAllReimbursements | backend/src/main/java/com/ddjproj/revature/service/ReimbursementService.java:100-115 | the permission error, or exactly every row (of the status when given), newest first without a filter |
| ReimbursementService.ReimbursementService.UpdateReimbursement | backend/src/main/java/com/ddjproj/revature/service/ReimbursementService.java:117-133 | not found, then the edit permission on that row; success changes only its description, amount and type |
| ReimbursementService.ReimbursementService.ResolveReimbursement | backend/src/main/java/com/ddjproj/revature/service/ReimbursementService.java:135-164 | not found, then no current account, then "Only managers ...", then "Can only resolve pending ..."; success changes only the status; every error changes nothing |
| UserAccountService.UserAccountService.constructor | backend/src/main/java/com/ddjproj/revature/service/accounts/UserAccountService.java:31-38 | the service works over the given account table and encoder |
| UserAccountService.UserAccountService.CreateUserAccount | backend/src/main/java/com/ddjproj/revature/service/accounts/UserAccountService.java:40-65 | a taken email is refused with "Email already exists" and nothing is stored; otherwise a missing email or password is a constraint violation with nothing stored; otherwise a new account with the encoded password and the DTO's role, or RESTRICTED, is stored under a fresh id and its DTO returned |
| UserAccountService.UserAccountService.GetUserById | backend/src/main/java/com/ddjproj/revature/service/accounts/UserAccountService.java:67-74 | the stored account's DTO, or "User not found with id: N" |
| UserAccountService.UserAccountService.GetUserByEmail | backend/src/main/java/com/ddjproj/revature/service/accounts/UserAccountService.java:76-83 | the account holding the email, or "User not found with email: E" |
| UserAccountService.UserAccountService.GetAllUsers | backend/src/main/java/com/ddjproj/revature/service/accounts/UserAccountService.java:85-93 | the DTO of every stored account, each once, and nothing else |
| UserAccountService.UserAccountService.UpdateUserRole | backend/src/main/java/com/ddjproj/revature/service/accounts/UserAccountService.java:95-107 | not found for an unknown id; otherwise only that account's role changes |
| UserAccountService.UserAccountService.ProcessUpgradeRequest | backend/src/main/java/com/ddjproj/revature/service/accounts/UserAccountService.java:109-122 | a null id is refused by the repository; then not found; then "Only RESTRICTED users ..." for any other role; otherwise the role becomes EMPLOYEE and nothing else changes; errors change nothing |
| UserAccountService.UserAccountService.DeleteUser | backend/src/main/java/com/ddjproj/revature/service/accounts/UserAccountService.java:125-134 | not found for an unknown id; otherwise exactly that account is removed |
| AuthenticationService.LookaheadMeaning | backend/src/main/java/com/ddjproj/revature/service/auth/AuthenticationService.java:54-55 | on a line without terminators, a `(?=.*[k])` lookahead succeeds exactly when some character is of class k |
| AuthenticationService.ValidPatternMeaning | backend/src/main/java/com/ddjproj/revature/service/auth/AuthenticationService.java:54-55 | the password pattern accepts exactly the passwords of the plain rule: eight or more characters, a digit, a lower-case and an upper-case letter, a special character, no whitespace |
| AuthenticationService.ValidatePassword | backend/src/main/java/com/ddjproj/revature/service/auth/AuthenticationService.java:75-90 | the blank, length and pattern messages in that order; accepted exactly when the plain rule holds, and then unchanged |
| AuthenticationService.EightCharactersSuffice | backend/src/main/java/com/ddjproj/revature/service/auth/AuthenticationService.java:80-83 | an eight-character password passes although the message says "greater than 8" |
| AuthenticationService.AuthResponse | backend/src/main/java/com/ddjproj/revature/service/auth/AuthenticationService.java:165-175 | the response carries the token and the account's role name, id, email and permission names |
| AuthenticationService.AuthenticationService.constructor | backend/src/main/java/com/ddjproj/revature/service/auth/AuthenticationService.java:59-67 | the service shares the account service's table |
| AuthenticationService.AuthenticationService.Register | backend/src/main/java/com/ddjproj/revature/service/auth/AuthenticationService.java:100-134 | a taken email is refused before the password is checked; then the password rule; then a RESTRICTED account with the encoded password and a token for its email; refusals store nothing |
| AuthenticationService.AuthenticationService.Authenticate | backend/src/main/java/com/ddjproj/revature/service/auth/AuthenticationService.java:142-185 | a null password fails first; then an unknown email, then a wrong password, each with its message; a stored account whose hash matches always succeeds, with that account's response and a token for its email; no other request succeeds |
| JwtService.NumericDate | backend/src/main/java/com/ddjproj/revature/service/auth/JwtService.java:105-106 | a stored claim instant is a whole second, at most the instant and less than a second before it |
| JwtService.NumericDateMonotone | backend/src/main/java/com/ddjproj/revature/service/auth/JwtService.java:105-106 | storing instants keeps their order |
| JwtService.Parse | backend/src/main/java/com/ddjproj/revature/service/auth/JwtService.java:146-149 | the claims the library decodes, refused when their expiry is before now |
| JwtService.BuildClaims | backend/src/main/java/com/ddjproj/revature/service/auth/JwtService.java:101-109 | subject the username, issued at the first clock reading and expiring the lifetime after the second, each cut to its whole second, so the expiry falls less than a second before the configured end and never before the issue time |
| JwtService.ExtractUsername | backend/src/main/java/com/ddjproj/revature/service/auth/JwtService.java:50-52 | the parser's rejection, an expired token included, or the token's subject, which may be null |
| JwtService.IsTokenExpired | backend/src/main/java/com/ddjproj/revature/service/auth/JwtService.java:127-138 | the rejection, a missing expiry, or whether the expiry is strictly before now; never true, because the parser throws for an expired token first |
| JwtService.IsTokenValid | backend/src/main/java/com/ddjproj/revature/service/auth/JwtService.java:117-120 | true exactly when the subject is the username and now is not after the expiry; false exactly for a readable token with a different subject; an expired token throws; a null subject throws |
| JwtService.GeneratedTokenValidUntilExpiry | backend/src/main/java/com/ddjproj/revature/service/auth/JwtService.java:72-120 | a generated token that the library reads back names its user and is valid for it exactly until its expiry second, after which every check throws |
| JwtService.ExpiresOnTheWholeSecond | backend/src/main/java/com/ddjproj/revature/service/auth/JwtService.java:105-106 | a token whose lifetime ends at 1 000 500 ms is refused at 1 000 200 ms |
| JwtService.ValidForOneUserOnly | backend/src/main/java/com/ddjproj/revature/service/auth/JwtService.java:117-120 | a token is never valid for two different users |
| JwtService.ValidityIsAnInterval | backend/src/main/java/com/ddjproj/revature/service/auth/JwtService.java:117-129 | a token valid at some time was valid at every earlier time |
| TokenBlacklist.RevokedGrows | backend/src/main/java/com/ddjproj/revature/service/auth/TokenBlacklistService.java:23-25 | revoking more tokens never un-revokes one |
| TokenBlacklist.RevokedExactly | backend/src/main/java/com/ddjproj/revature/service/auth/TokenBlacklistService.java:23-25 | after a series of revocations exactly the earlier and the added tokens are revoked |
| TokenBlacklist.TokenBlacklistService.constructor | backend/src/main/java/com/ddjproj/revature/service/auth/TokenBlacklistService.java:17 | no token is revoked at first |
| TokenBlacklist.TokenBlacklistService.BlacklistToken | backend/src/main/java/com/ddjproj/revature/service/auth/TokenBlacklistService.java:23-25 | adds exactly that token; revoking twice changes nothing |
| TokenBlacklist.TokenBlacklistService.IsTokenBlackListed | backend/src/main/java/com/ddjproj/revature/service/auth/TokenBlacklistService.java:32-34 | true exactly for a revoked token |
| AuthenticationController.BearerCredential | backend/src/main/java/com/ddjproj/revature/controller/auth/AuthenticationController.java:138-139 | a credential exactly for a `Bearer ` header, and the header is the prefix followed by it |
| AuthenticationController.BearerRoundTrip | backend/src/main/java/com/ddjproj/revature/controller/auth/AuthenticationController.java:138-139 | the credential sent behind the prefix is the one extracted |
| AuthenticationController.Field | backend/src/main/java/com/ddjproj/revature/controller/auth/AuthenticationController.java:155-156 | the body's value for a key, or none when absent |
| AuthenticationController.AuthenticationController.constructor | backend/src/main/java/com/ddjproj/revature/controller/auth/AuthenticationController.java:49-55 | the controller shares the service's table and encoder |
| AuthenticationController.AuthenticationController.Register | backend/src/main/java/com/ddjproj/revature/controller/auth/AuthenticationController.java:65-82 | the service's answer unchanged: a taken email, then a password-rule error, is relayed with nothing stored; a free email with a valid password stores the new RESTRICTED account and answers 200 with its response and token |
| AuthenticationController.AuthenticationController.Login | backend/src/main/java/com/ddjproj/revature/controller/auth/AuthenticationController.java:92-126 | status 200 with the service's answer exactly when it succeeds, otherwise its error unchanged |
| AuthenticationController.AuthenticationController.Logout | backend/src/main/java/com/ddjproj/revature/controller/auth/AuthenticationController.java:134-149 | revokes exactly a Bearer credential, nothing otherwise, and always answers 200 with the same message |
| AuthenticationController.AuthenticationController.ResetPassword | backend/src/main/java/com/ddjproj/revature/controller/auth/AuthenticationController.java:153-180 | 404 for an unknown email, 500 for a missing password, both changing nothing; otherwise only that account's hash changes, with no password rule |
| JwtAuthenticationFilter.SecurityContext.constructor | backend/src/main/java/com/ddjproj/revature/config/SecurityBeansConfig.java:65 | a stateless request starts unauthenticated |
| JwtAuthenticationFilter.FilterChain.constructor | backend/src/main/java/com/ddjproj/revature/controller/auth/JwtAuthenticationFilter.java:44 | no request forwarded yet |
| JwtAuthenticationFilter.FilterChain.DoFilter | backend/src/main/java/com/ddjproj/revature/controller/auth/JwtAuthenticationFilter.java:100 | the request is appended to what was forwarded |
| JwtAuthenticationFilter.Decide | backend/src/main/java/com/ddjproj/revature/controller/auth/JwtAuthenticationFilter.java:55-99 | only a non-skipped, unrevoked Bearer token whose subject names an account, with no authentication yet and valid now, authenticates, as that subject |
| JwtAuthenticationFilter.AdmitsLiveToken | backend/src/main/java/com/ddjproj/revature/controller/auth/JwtAuthenticationFilter.java:83-93 | every condition met, the request is authenticated as the token's subject |
| JwtAuthenticationFilter.IssuedTokenAuthenticates | backend/src/main/java/com/ddjproj/revature/controller/auth/JwtAuthenticationFilter.java:71-93 | a token issued for an existing account authenticates exactly while unrevoked and not past its expiry second |
| JwtAuthenticationFilter.RevokedNeverAuthenticates | backend/src/main/java/com/ddjproj/revature/controller/auth/JwtAuthenticationFilter.java:76-80 | a revoked token never authenticates |
| JwtAuthenticationFilter.JwtAuthenticationFilter.constructor | backend/src/main/java/com/ddjproj/revature/controller/auth/JwtAuthenticationFilter.java:37-41 | the filter uses the given settings, account table and blacklist |
| JwtAuthenticationFilter.JwtAuthenticationFilter.DoFilterInternal | backend/src/main/java/com/ddjproj/revature/controller/auth/JwtAuthenticationFilter.java:43-102 | forwards the request exactly once on every path and installs exactly the authentication the decision names |
| SecurityConfig.Admitted | backend/src/main/java/com/ddjproj/revature/config/SecurityBeansConfig.java:61-64 | registration, login and the H2 console are open; anything else needs an authenticated principal |
| SecurityConfig.CorsAllows | backend/src/main/java/com/ddjproj/revature/config/SecurityBeansConfig.java:90-105 | only the two listed origins with the five listed methods; PATCH never |
| SecurityConfig.AuthEndpointsRefusedAsWritten | backend/src/main/java/com/ddjproj/revature/controller/auth/JwtAuthenticationFilter.java:55-60 | every other `/api/auth/` path is refused, as no request to it is ever authenticated |
| SecurityConfig.LogoutRefusedAsWritten | backend/src/main/java/com/ddjproj/revature/config/SecurityBeansConfig.java:61-64 | logout is refused even with a live token for an existing account |
| SecurityConfig.LogoutAdmittedCorrected | backend/src/main/java/com/ddjproj/revature/config/SecurityBeansConfig.java:61-67 | with the skip limited to the open paths, an unrevoked token not past its expiry second reaches logout |
| SecurityConfig.CorrectedKeepsOpenPaths | backend/src/main/java/com/ddjproj/revature/config/SecurityBeansConfig.java:62-63 | the corrected skip still leaves the open paths open and unauthenticated by the filter |
| StorageUtil.LocalStorage.constructor | frontend/src/util/storage.util.ts:28 | the store holds the given entries |
| StorageUtil.LocalStorage.RemoveItem | frontend/src/util/storage.util.ts:111-114 | exactly that key is removed |
| StorageUtil.LocalStorage.GetItem | frontend/src/util/storage.util.ts:79 | the stored string exactly when the key is set |
| StorageUtil.ExpiryFor | frontend/src/util/storage.util.ts:51-53 | an expiry exactly for a truthy time-to-live, that many minutes after now |
| StorageUtil.SetEntries | frontend/src/util/storage.util.ts:46-61 | the key holds the wrapped value at version 1 and every other key is unchanged |
| StorageUtil.Classify | frontend/src/util/storage.util.ts:77-103 | absent for a missing or empty entry, unparsable when parsing throws, discarded for a wrong version or a past expiry, else found with the stored value |
| StorageUtil.GetValue | frontend/src/util/storage.util.ts:77-103 | the default whenever the entry is not found |
| StorageUtil.GetEntries | frontend/src/util/storage.util.ts:85-96 | only a discarded entry is removed |
| StorageUtil.Set | frontend/src/util/storage.util.ts:46-61 | the store becomes the entries after setting |
| StorageUtil.Get | frontend/src/util/storage.util.ts:77-103 | answers the value the lookup gives and leaves the entries a read leaves |
| StorageUtil.Remove | frontend/src/util/storage.util.ts:111-114 | exactly that key is removed |
| StorageUtil.Preserved | frontend/src/util/storage.util.ts:130-134 | exactly the listed keys that hold a non-empty string, with their strings |
| StorageUtil.Clear | frontend/src/util/storage.util.ts:129-143 | afterwards the store holds exactly the preserved entries |
| StorageUtil.SetThenGet | frontend/src/util/storage.util.ts:46-103 | before its expiry, reading what was set gives the value back and keeps the entry |
| StorageUtil.ExpiredIsDiscarded | frontend/src/util/storage.util.ts:91-96 | after its expiry, reading gives the default and removes the entry |
| StorageUtil.ClearIdempotent | frontend/src/util/storage.util.ts:129-143 | clearing twice with the same list leaves what clearing once left |
| AuthUtil.Stored | frontend/src/util/auth.util.ts:27 | the record read back from a user's JSON has every field of the user |
| AuthUtil.SetAuthData | frontend/src/util/auth.util.ts:23-32 | the token is stored verbatim under `authToken` and the user's JSON under `authUser`; nothing else changes |
| AuthUtil.GetToken | frontend/src/util/auth.util.ts:39-41 | the raw entry exactly when one is stored |
| AuthUtil.GetUser | frontend/src/util/auth.util.ts:47-55 | none for a missing or empty entry; otherwise what parsing gives, none when it throws |
| AuthUtil.ClearedEntries | frontend/src/util/auth.util.ts:60-64 | the two keys are gone and every other entry is kept |
| AuthUtil.ClearAuthData | frontend/src/util/auth.util.ts:60-64 | the store becomes the cleared entries |
| AuthUtil.ClearIdempotent | frontend/src/util/auth.util.ts:60-64 | clearing twice is clearing once |
| AuthUtil.NowSeconds | frontend/src/util/auth.util.ts:82 | the whole second containing the millisecond clock reading |
| AuthUtil.IsAuthenticated | frontend/src/util/auth.util.ts:71-97 | true exactly for a stored non-empty token that decodes with a non-zero expiry after the current second, where both that expiry and the current second are within the range a `Date` can format; otherwise false |
| AuthUtil.NeedsRefresh | frontend/src/util/auth.util.ts:105-112 | false without a token; the decode error propagates; true exactly when a non-zero expiry is less than the threshold away |
| AuthUtil.RefreshCoversExpiry | frontend/src/util/auth.util.ts:71-112 | for an expiry in the `Date` range and a positive threshold, a token that no longer authenticates needs a refresh, and one that needs none still authenticates; an expiry outside the range never authenticates |
| AuthUtil.SetThenRead | frontend/src/util/auth.util.ts:23-55 | what was stored reads back: the token verbatim and the user record |
| AuthUtil.RawTokenNotWrapped | frontend/src/util/auth.util.ts:26 | the raw token is not a versioned storage item, so the versioned reader never finds it |
| SessionUtil.FetchSession | frontend/src/util/session.util.ts:21-52 | fails with "No matching user data could be found." exactly when no user is stored; otherwise the stored fields, with 0, "", "GUEST" and [] for missing ones |
| SessionUtil.GetSession | frontend/src/util/session.util.ts:60-63 | the stored token exactly when there is one |
| SessionUtil.StoredSessionRoundTrip | frontend/src/util/session.util.ts:21-63 | after storing, the session gives back the token and the user (an empty role as GUEST) |
| SessionUtil.ClearedHasNoSession | frontend/src/util/session.util.ts:21-63 | after clearing there is neither user nor token |
| FrontendCommon.Rejection | frontend/src/service/auth.api.service.ts:93-103 | a service's rejection reaches the caller's `catch` as an `Error` with the service's message, and a success unchanged |
| FrontendCommon.ServerText | frontend/src/service/auth.api.service.ts:98 | the server's non-empty `error` text, else the operation's fallback |
| FrontendCommon.CaughtMessage | frontend/src/hooks/useLogin.ts:87-90 | an `Error`'s message, else the hook's fallback |
| FrontendCommon.Rewrite | frontend/src/service/auth.api.service.ts:137-144 | the replacement of the first rule whose key occurs in the text, or the text itself when none does |
| FrontendCommon.FailureMessage | frontend/src/service/auth.api.service.ts:129-148 | the network message for a non-axios failure; otherwise the server's text or the fallback, rewritten |
| FrontendCommon.Navigator.constructor | frontend/src/hooks/useLogin.ts:48 | no navigation yet |
| FrontendCommon.Navigator.Navigate | frontend/src/hooks/useLogin.ts:80 | the navigation is appended to the history |
| AuthContext.AuthProvider.constructor | frontend/src/context/AuthContext.tsx:53-54 | user and token start as null, so not authenticated |
| AuthContext.AuthProvider.IsAuthenticated | frontend/src/context/AuthContext.tsx:81 | true exactly for a non-empty token and a user |
| AuthContext.AuthProvider.Login | frontend/src/context/AuthContext.tsx:63-68 | the session holds exactly the new token and user; authenticated exactly when the token is non-empty |
| AuthContext.AuthProvider.Logout | frontend/src/context/AuthContext.tsx:74-78 | both cleared, so not authenticated |
| Routes.RoleRedirect | frontend/src/constant/routes.constant.ts:21-26 | a landing page exactly for the four upper-case role names, each its own page |
| Routes.LandingOrDashboard | frontend/src/hooks/useLogin.ts:77 | the role's landing page, or the dashboard for an unmapped role |
| Routes.ConfigFor | frontend/src/constant/routes.constant.ts:28-57 | a configuration entry exactly for a configured path, and it is for that path |
| Routes.LandingMatchesConfig | frontend/src/constant/routes.constant.ts:21-57 | each backend role lands on a configured page: GUEST on the open login page, the others on a protected page under `/dashboard/` allowing exactly that role |
| Routes.LowerCaseRolesUnmapped | frontend/src/constant/routes.constant.ts:21-26 | the lower-case role strings have no landing page |
| ProtectedRoute.Guard | frontend/src/components/auth/ProtectedRoute.tsx:41-72 | waiting exactly while loading; then the children exactly when authenticated, else a replacing redirect to login that remembers the location |
| ProtectedRoute.GuardedByProvider | frontend/src/components/auth/ProtectedRoute.tsx:42-68 | the context has no loading flag: the children render exactly for a provider with a non-empty token and a user |
| Dashboard.DashboardEffect | frontend/src/pages/dashboard/Dashboard.tsx:30-52 | nothing while loading; login without a user; otherwise a replacing navigation exactly when the role has a landing page |
| Dashboard.ShowsLoading | frontend/src/pages/dashboard/Dashboard.tsx:55-62 | the loading screen exactly while loading or without a user |
| Dashboard.BackendRoleLands | frontend/src/pages/dashboard/Dashboard.tsx:43-48 | a backend role name is always sent on: GUEST to login, the others under `/dashboard/` |
| DashboardRouter.RouterEffect | frontend/src/pages/dashboard/DashboardRouter.tsx:22-27 | a replacing navigation exactly for a user on `/dashboard`, to the role's landing page or `undefined` |
| DashboardRouter.SubRoute | frontend/src/pages/dashboard/DashboardRouter.tsx:30-34 | a selected sub-route is one of the three and the path is that sub-route |
| DashboardRouter.LandingIsSubRoute | frontend/src/pages/dashboard/DashboardRouter.tsx:30-34 | every non-guest landing page is one of the sub-routes |
| DashboardRouter.AgreesWithDashboard | frontend/src/pages/dashboard/DashboardRouter.tsx:22-27 | on `/dashboard` the router and the dashboard page go to the same place for a mapped role; for an unmapped one the router navigates to `undefined` and the page stays |
| AuthApi.MapAuthResponseToUser | frontend/src/service/auth.api.service.ts:58-65 | the user keeps the response's id, email, role and permissions exactly |
| AuthApi.Login | frontend/src/service/auth.api.service.ts:78-104 | success gives the token and the mapped user; an axios failure the server's text or "Invalid credentials"; any other failure the network message |
| AuthApi.Register | frontend/src/service/auth.api.service.ts:114-149 | success as for login; a server text mentioning `email` becomes the already-registered message, else one mentioning `password` the password-rules message, else the text itself; a non-axios failure the network message |
| AuthApi.TakenEmailMessage | frontend/src/service/auth.api.service.ts:137-140 | the backend's taken-email refusal reaches the form as "This email is already registered" |
| AuthApi.LoginCarriesBackendRole | frontend/src/service/auth.api.service.ts:58-65 | a session built from a backend login response carries the token, the account's role name, which has a landing page, and exactly its permissions |
| AuthApi.LogoutHeader | frontend/src/service/auth.api.service.ts:166-168 | the header starts with `Bearer ` and is seven characters longer than the token |
| AuthApi.LogoutSendsToken | frontend/src/service/auth.api.service.ts:158-177 | the backend's logout reads back exactly the token the client sent |
| AuthApi.AxiosDefaults.constructor | frontend/src/service/auth.api.service.ts:187-195 | no default headers at start |
| AuthApi.AxiosDefaults.SetAuthToken | frontend/src/service/auth.api.service.ts:187-195 | a non-empty token sets `Authorization` to its Bearer header, which the backend reads back as that token; anything else deletes the header; other headers unchanged |
| ReimbursementApi.StatusParams | frontend/src/service/reimbursement.api.service.ts:128 | the query has a `status` key exactly when a non-empty status is given, holding that status, and no other key |
| ReimbursementApi.Settle | frontend/src/service/reimbursement.api.service.ts:97-108 | a success passes through unchanged; a failure becomes its client message |
| ReimbursementApi.Create | frontend/src/service/reimbursement.api.service.ts:86-108 | the created reimbursement, or the server's text or "Failed to create reimbursement", or the network message |
| ReimbursementApi.List | frontend/src/service/reimbursement.api.service.ts:124-179 | the list, or the server's text or "Failed to fetch reimbursements", or the network message (both `getMy` and `getAll`) |
| ReimbursementApi.GetById | frontend/src/service/reimbursement.api.service.ts:188-208 | the reimbursement, or the server's text or "Failed to fetch reimbursement", or the network message |
| ReimbursementApi.Update | frontend/src/service/reimbursement.api.service.ts:218-245 | the updated reimbursement; a server text mentioning `pending` becomes "Can only edit pending reimbursements", any other text is kept; a non-axios failure the network message |
| ReimbursementApi.Resolve | frontend/src/service/reimbursement.api.service.ts:267-297 | the resolved reimbursement; a text mentioning `Only managers` becomes the managers-only message, else one mentioning `pending` the pending-only message, else the text itself; a non-axios failure the network message |
| ReimbursementApi.ResolveRefusalsKeepWording | frontend/src/service/reimbursement.api.service.ts:285-290 | the backend's managers-only and not-pending refusals reach the page with the client's wording |
| UserApi.ToUser | frontend/src/service/user.api.service.ts:60-82 | the user keeps the account's id, email, role and permissions exactly |
| UserApi.RequestEmployeeAccess | frontend/src/service/user.api.service.ts:60-103 | the updated account; a text mentioning `RESTRICTED` becomes the restricted-only message, else one mentioning `already` the already-upgraded message, else the text itself; a non-axios failure the network message |
| UserApi.RestrictedRefusalMessage | frontend/src/service/user.api.service.ts:91-93 | the backend's restricted-only refusal reaches the page as "Only restricted users can request employee access" |
| UserApi.GrantedUpgradeIsEmployee | frontend/src/service/user.api.service.ts:60-82 | a granted upgrade returns a user whose role is `EMPLOYEE`, whose landing page is the employee page |
| UserApi.GetAllUsers | frontend/src/service/user.api.service.ts:111-137 | one user per account, in order, each mapped field for field; a failure the server's text or "Failed to fetch users", or the network message |
| UserApi.DeleteUser | frontend/src/service/user.api.service.ts:146-170 | success exactly on success; a text mentioning `own account` becomes "Cannot delete your own account", else the server's text or "Failed to delete user"; a non-axios failure the network message |
| UseLogin.LoginHook.constructor | frontend/src/hooks/useLogin.ts:45-46 | not loading, no error |
| UseLogin.LoginHook.HandleLogin | frontend/src/hooks/useLogin.ts:58-97 | true exactly on success; on success the session holds the token and user and the page moves to the role's landing page, or the dashboard; on failure the thrown message or "Login failed. Please try again." is shown and nothing else changes; loading ends false |
| UseLogin.RefusedLoginMessage | frontend/src/hooks/useLogin.ts:83-93 | a refused login shows the network message for a non-axios failure, else the server's text or "Invalid credentials" |
| UseCreateReimbursement.CreateError | frontend/src/hooks/useCreateReimbursement.ts:69-77 | no error exactly when the trimmed description has at least 10 characters and a type is chosen; otherwise the description message first, then the type message |
| UseCreateReimbursement.CreateReimbursementHook.constructor | frontend/src/hooks/useCreateReimbursement.ts:55-57 | not loading, no error, no success |
| UseCreateReimbursement.CreateReimbursementHook.Create | frontend/src/hooks/useCreateReimbursement.ts:65-108 | a request is sent exactly when validation passes, with the trimmed description; a refused form only shows its error; a sent request succeeds exactly when the call does, returning the reimbursement, else shows the thrown message or the fallback |
| UseCreateReimbursement.CreateReimbursementHook.Reset | frontend/src/hooks/useCreateReimbursement.ts:116-119 | error and success cleared, loading unchanged |
| UseCreateReimbursement.SentDescriptionIsTrimmed | frontend/src/hooks/useCreateReimbursement.ts:69-86 | a sent description has at least 10 characters and starts and ends with a non-space |
| UseReimbursement.ListPath | frontend/src/service/reimbursement.api.service.ts:124-179 | an employee's own list is read from `/reimbursements/self` and a manager's from `/reimbursements`, and only from those |
| UseReimbursement.ReimbursementList.constructor | frontend/src/hooks/useReimbursement.ts:49-52 | an empty list, loading, no error, no filter |
| UseReimbursement.ReimbursementList.FetchParams | frontend/src/hooks/useReimbursement.ts:69 | the query carries the current filter as `status` exactly when one is set, and nothing else |
| UseReimbursement.ReimbursementList.Fetch | frontend/src/hooks/useReimbursement.ts:62-86 | afterwards not loading and the filter unchanged; a success replaces the list and clears the error; a failure empties the list and shows the thrown message or "Failed to load reimbursements. Please try again." |
| UseReimbursement.ReimbursementList.Effect | frontend/src/hooks/useReimbursement.ts:91-95 | without a user nothing changes; with one, the list is fetched as above |
| UseReimbursement.ReimbursementList.FilterByStatus | frontend/src/hooks/useReimbursement.ts:115-118 | only the filter changes, and a settled list stays settled |
| UseReimbursement.FailedFetchMessage | frontend/src/hooks/useReimbursement.ts:77-83 | a failed list fetch shows the network message for a non-axios failure, else the server's text or "Failed to fetch reimbursements" |
| UseManagerReimbursement.ManagerReimbursements.constructor | frontend/src/hooks/useManagerReimbursement.ts:53-60 | a fresh list over all reimbursements, empty, loading and unfiltered; not resolving, no resolve error |
| UseManagerReimbursement.ManagerReimbursements.Resolve | frontend/src/hooks/useManagerReimbursement.ts:138-176 | true exactly for `APPROVED` or `DENIED` with a successful call; another status only sets "Status must be APPROVED or DENIED"; a success refetches the list; a failure shows the thrown message or the fallback; resolving ends false and the filter is unchanged |
| UseUpgradeRequest.Refusal | frontend/src/hooks/useUpgradeRequest.ts:60-68 | "No user logged in" exactly without a user, the restricted-only message exactly for a user of another role |
| UseUpgradeRequest.ReportAsWritten | frontend/src/hooks/useUpgradeRequest.ts:58-108 | as written the request never reports success: a refusal, the caught message, or the TypeError from the missing `updateUser` |
| UseUpgradeRequest.ReportCorrected | frontend/src/hooks/useUpgradeRequest.ts:58-108 | success exactly when a restricted user's call succeeds, and then no error; otherwise the refusal or the caught message |
| UseUpgradeRequest.GrantedUpgradeReportedAsFailureAsWritten | frontend/src/hooks/useUpgradeRequest.ts:83 | a granted upgrade is reported as the `updateUser` TypeError as written, and as success when corrected |
| UseUpgradeRequest.CorrectedAgreesOffTheGrant | frontend/src/hooks/useUpgradeRequest.ts:58-108 | the correction changes nothing except the granted case |
| UseUpgradeRequest.RefusedForRoleMessage | frontend/src/hooks/useUpgradeRequest.ts:95-104 | the backend's restricted-only refusal reaches the page as the client's restricted-only message |
| UseUpgradeRequest.UpgradeRequestHook.constructor | frontend/src/hooks/useUpgradeRequest.ts:44-46 | not loading, no error, no success |
| UseUpgradeRequest.UpgradeRequestHook.RequestUpgradeAsWritten | frontend/src/hooks/useUpgradeRequest.ts:58-108 | the state reports exactly what `ReportAsWritten` says; success stays false |
| UseUpgradeRequest.UpgradeRequestHook.RequestUpgrade | frontend/src/hooks/useUpgradeRequest.ts:58-108 | the state reports exactly what `ReportCorrected` says; on success the session holds the upgraded user and the page moves to the employee page; otherwise the session and history are unchanged |
| Sidebar.FilterByRole | frontend/src/components/navigation/Sidebar.tsx:124 | exactly the items listing the role, no more than were given, all of them when every item does |
| Sidebar.FilterByRoleAppend | frontend/src/components/navigation/Sidebar.tsx:124 | the filter keeps order and multiplicity: a concatenation is filtered part by part, and one item survives exactly when it lists the role |
| Sidebar.VisibleNavItems | frontend/src/components/navigation/Sidebar.tsx:121-125 | nothing without a user; otherwise exactly the items listing the user's role |
| Sidebar.Renders | frontend/src/components/navigation/Sidebar.tsx:132-134 | the sidebar shows exactly when authenticated with a user |
| Sidebar.HandleLogout | frontend/src/components/navigation/Sidebar.tsx:95-115 | the backend is called exactly when a non-empty token is held, with that token; the session is cleared and the page moves to the login page, whether or not the call succeeds |
| Sidebar.BackendRolesSeeNothingAsWritten | frontend/src/components/navigation/Sidebar.tsx:64-76 | as written a user with any backend role name sees no menu item |
| Sidebar.BackendRolesSeeMenuCorrected | frontend/src/components/navigation/Sidebar.tsx:64-76 | with the role names the backend sends, every signed-in role but GUEST sees the whole menu |
| Registration.ValidatePasswordClient | frontend/src/pages/auth/Registration.tsx:87-104 | the first failed rule's message in order (length, uppercase, lowercase, digit, special), none exactly when all hold |
| Registration.BackendAcceptedIsClientAccepted | frontend/src/pages/auth/Registration.tsx:87-104 | every password the backend accepts passes the form's check |
| Registration.ClientAcceptsWhitespaceAsWritten | frontend/src/pages/auth/Registration.tsx:87-104 | a password with a space passes the form's check and is refused by the backend |
| Registration.ValidatePasswordCorrected | frontend/src/pages/auth/Registration.tsx:87-104 | the form's messages where it refuses, and acceptance exactly under the backend's rule |
| Registration.CorrectedAgreesWithBackend | frontend/src/pages/auth/Registration.tsx:87-104 | the corrected check accepts exactly the passwords the backend accepts |
| Registration.EmailPatternMeaning | frontend/src/pages/auth/Registration.tsx:126-127 | the email pattern holds exactly for a non-empty run, an `@`, a run, a dot and a non-empty run, none holding `@` or a space |
| Registration.SubmitError | frontend/src/pages/auth/Registration.tsx:117-143 | the missing-field, email, password and mismatch messages in that order, none exactly when all checks pass |
| Registration.MountRedirect | frontend/src/pages/auth/Registration.tsx:71-79 | a replacing redirect exactly when authenticated with a user, to the role's landing page or the dashboard |
| Registration.RegistrationForm.constructor | frontend/src/pages/auth/Registration.tsx:60-61 | not loading, no error |
| Registration.RegistrationForm.HandleSubmit | frontend/src/pages/auth/Registration.tsx:113-173 | the backend is called exactly when the form passes; a refused form only shows its error; a success signs in and moves to the restricted page; a failure shows the thrown message or the fallback and changes nothing else |

## Left out

- Rendering and layout are not modelled, because they are presentation only. This covers the dashboard pages, `Layout`, `App` route composition and the Tailwind configuration.
- `Login.tsx` is not modelled: it does not parse and holds no logic.
- `useRegister.ts` is not modelled: it imports a module that does not exist and only duplicates the registration page's flow.
- `validation.util.ts` is not part of this model: it is unused by the modelled code and depends on zod and date-fns.
- `types.constant.ts` is not part of this model because it does not parse. The sidebar's role values are taken from its declared lower-case strings.
- HTTP transport and axios interceptors are left out. Each call is an abstract success or failure.
- React state scheduling, effects and re-renders are left out. Each hook's state is a class, and each setter is a field update that takes effect at once.
- Async interleaving is left out: overlapping calls of one hook, and a response arriving after unmount. Each call runs to completion.
- The 1.5-second `setTimeout` before the upgrade hook's navigation is left out. The navigation is recorded as happening.
- Logging (`console.*`, SLF4J) is left out where it cannot throw. Two logs that can throw are modelled: `isAuthenticated` formats dates with `toISOString`, which throws outside the `Date` range, and `authenticate` logs the password length, which throws for a null password.
- `ReimbursementController` and `UserAccountController` are left out: they are pass-throughs to the modelled services.
- The global exception handler's response shape is left out. The frontend reads a server error as an optional `error` text.
- The JPA repositories and `ReimbursementRepoImpl` are left out. Only the unfiltered listing's descending-id order is kept.
- `findByRole`/`existsByRole` are left out because no modelled operation uses them.
- `UserDetailService` and `UserAccountRepoImpl` are not part of this model.
- Spring Security internals are left out: `AuthenticationManager`, the security-context holder and CORS processing. The permit table and the CORS lists are values.
- Bean Validation annotations on the DTOs are left out. Only the checks the services perform themselves are modelled. The reimbursement service's preconditions (a create or edit body with a description and a type, a resolve body with a status) stand for the controller's `@Valid` checks, which reject such bodies before the service runs.
- A logout request with no `Authorization` header gets a framework 400 before the handler runs. That case is left out.
- The jjwt parser is split into a clock-free decoding step, an uninterpreted function, and the expiry rejection it applies with no clock skew. Only the second is modelled.
- One clock reading serves a whole request. The source reads the clock again for each parse and for `new Date()` in `isTokenExpired`; readings a few milliseconds apart are not modelled.
- String lengths are counted in code points, not UTF-16 code units. They differ only outside the Basic Multilingual Plane.
- A quota error from `localStorage.setItem` is left out. Writes always succeed.
- A `JSON.parse` result with fields of the wrong type is left out. The stored user record is read back field for field or not at all.
- `ROLE_REDIRECT` lookups of inherited object keys (such as `constructor`) are left out. Only the four own keys are answered.
- The sidebar's `import type { RoleType }`, which would erase the enum at run time, is left out. The item roles are the lower-case strings the enum declares.
- The exact text of the JavaScript `TypeError` raised by the missing `updateUser` is an assumption: "updateUser is not a function".

## Findings

| source | as written | input that shows it | evidently intended | confidence | as-written member | corrected member |
|---|---|---|---|---|---|---|
| frontend/src/components/navigation/Sidebar.tsx:64-76 | the menu item lists lower-case role values, and the filter compares them with the upper-case role names the backend sends | a signed-in `EMPLOYEE` | every signed-in role except `GUEST` sees the Dashboard item | not executed | Sidebar.BackendRolesSeeNothingAsWritten | Sidebar.BackendRolesSeeMenuCorrected |
| frontend/src/hooks/useUpgradeRequest.ts:83 | a granted upgrade calls `updateUser`, which the auth context does not provide; the throw is caught and reported as a failure | a `RESTRICTED` user whose upgrade the backend grants | the session takes the upgraded user and success is reported | not executed | UseUpgradeRequest.GrantedUpgradeReportedAsFailureAsWritten | UseUpgradeRequest.UpgradeRequestHook.RequestUpgrade |
| backend/src/main/java/com/ddjproj/revature/controller/auth/JwtAuthenticationFilter.java:55-60 | the filter skips every `/api/auth/` path without authenticating, while the permit table requires authentication for `/api/auth/logout` | a logout with a live token for an existing account | logout admitted for an authenticated caller | not executed | SecurityConfig.LogoutRefusedAsWritten | SecurityConfig.LogoutAdmittedCorrected |
| frontend/src/pages/auth/Registration.tsx:87-104 | the form's password check has no rule against whitespace, but the backend's pattern forbids it | `Passw0rd! x` | the form refuses what the backend refuses | not executed | Registration.ClientAcceptsWhitespaceAsWritten | Registration.CorrectedAgreesWithBackend |
