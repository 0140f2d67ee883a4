/**
 * `PermissionService`: finds the current account from the security context
 * and turns the evaluator's answer into an `UnauthorizedException`. The
 * security context's authentication is an input, and the account table is
 * read, never changed.
 */
module PermissionService {
  import opened Common
  import opened Roles
  import opened UserAccountEntity
  import opened AccountRepository
  import opened PermissionEvaluator
  import opened Errors

  /** The authentication in the security context: its name is the account's email. */
  datatype Authentication = Authentication(name: string, authenticated: bool)

  predicate HasAccount(rows: map<int, AccountRow>, email: string)
  {
    exists i :: i in rows && rows[i].email == email
  }

  /**
   * `getCurrentUser`: Unauthorized when there is no authentication or it is
   * not authenticated, Unauthorized when no account has its name as email,
   * otherwise that account.
   */
  function GetCurrentUser(auth: Option<Authentication>, rows: map<int, AccountRow>): (r: Result<AccountRow, ServiceError>)
    requires UniqueEmails(rows)
    ensures auth.None? || !auth.value.authenticated ==> r == Err(Unauthorized("No authenticated user found"))
    ensures auth.Some? && auth.value.authenticated && !HasAccount(rows, auth.value.name) ==>
      r == Err(Unauthorized("User not found: " + auth.value.name))
    ensures r.Ok? <==> auth.Some? && auth.value.authenticated && HasAccount(rows, auth.value.name)
    ensures r.Ok? ==> r.value in rows.Values && r.value.email == auth.value.name
  {
    if auth.None? || !auth.value.authenticated then
      Err(Unauthorized("No authenticated user found"))
    else
      match LookupEmail(rows, Some(auth.value.name))
      case Some(account) => Ok(account)
      case None => Err(Unauthorized("User not found: " + auth.value.name))
  }

  /** `hasPermission(permission, resource)`: the evaluator applied to the current account. */
  function HasPermissionOn(auth: Option<Authentication>, rows: map<int, AccountRow>, p: Permission, resource: Resource)
    : (r: Result<bool, ServiceError>)
    requires UniqueEmails(rows)
    ensures r.Err? <==> GetCurrentUser(auth, rows).Err?
    ensures r.Err? ==> r.error == GetCurrentUser(auth, rows).error
    ensures r.Ok? ==> r.value == PermissionEvaluator.HasPermission(GetCurrentUser(auth, rows).value, p, resource)
  {
    match GetCurrentUser(auth, rows)
    case Err(e) => Err(e)
    case Ok(user) => Ok(PermissionEvaluator.HasPermission(user, p, resource))
  }

  /**
   * `hasPermission(permission)`, the same as passing a null resource: true
   * exactly for a MANAGER or a role holding the permission.
   */
  function HasPermission(auth: Option<Authentication>, rows: map<int, AccountRow>, p: Permission): (r: Result<bool, ServiceError>)
    requires UniqueEmails(rows)
    ensures r.Err? <==> GetCurrentUser(auth, rows).Err?
    ensures r.Ok? ==> var user := GetCurrentUser(auth, rows).value;
      (r.value <==> user.role == Manager || p in Permissions(user.role))
  {
    HasPermissionOn(auth, rows, p, NoResource)
  }

  /**
   * `requirePermission(permission, resource)`: the current-account error, or
   * "Permission denied: <name>" when the evaluator says no, or success with
   * no effect.
   */
  function RequirePermissionOn(auth: Option<Authentication>, rows: map<int, AccountRow>, p: Permission, resource: Resource)
    : (r: Result<(), ServiceError>)
    requires UniqueEmails(rows)
    ensures r.Ok? <==> HasPermissionOn(auth, rows, p, resource) == Ok(true)
    ensures HasPermissionOn(auth, rows, p, resource) == Ok(false) ==> r == Err(Unauthorized("Permission denied: " + p.Name()))
    ensures GetCurrentUser(auth, rows).Err? ==> r == Err(GetCurrentUser(auth, rows).error)
  {
    match HasPermissionOn(auth, rows, p, resource)
    case Err(e) => Err(e)
    case Ok(granted) => if !granted then Err(Unauthorized("Permission denied: " + p.Name())) else Ok(())
  }

  /** `requirePermission(permission)`, the same as passing a null resource. */
  function RequirePermission(auth: Option<Authentication>, rows: map<int, AccountRow>, p: Permission): (r: Result<(), ServiceError>)
    requires UniqueEmails(rows)
    ensures r.Ok? <==> HasPermission(auth, rows, p) == Ok(true)
    ensures r.Ok? ==> var user := GetCurrentUser(auth, rows).value;
      user.role == Manager || p in Permissions(user.role)
    ensures HasPermission(auth, rows, p) == Ok(false) ==> r == Err(Unauthorized("Permission denied: " + p.Name()))
  {
    RequirePermissionOn(auth, rows, p, NoResource)
  }

  /** Once the current account is found, the requirement fails exactly when the evaluator says no. */
  lemma RequireFailsIffDenied(auth: Option<Authentication>, rows: map<int, AccountRow>, p: Permission, resource: Resource)
    requires UniqueEmails(rows) && GetCurrentUser(auth, rows).Ok?
    ensures RequirePermissionOn(auth, rows, p, resource).Err?
        <==> !PermissionEvaluator.HasPermission(GetCurrentUser(auth, rows).value, p, resource)
  {
  }
}
