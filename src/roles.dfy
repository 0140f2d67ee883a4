/**
 * The fixed role -> permission table of the core domain (`Roles`), over the
 * permission constants it names. The permission type is the union of the
 * constants declared by `Permissions` and the four more the table uses
 * (LOGIN, VIEW_SINGLE_REIMBURSEMENT_REQUEST, EDIT_PENDING_REIMBURSEMENT,
 * VIEW_ALL_USERACCOUNTS).
 */
module Roles {

  datatype Permission =
    | EditUserRole
    | UpgradeAccountRole
    | DeleteUser
    | ViewAllReimbursementRequests
    | CreateReimbursementRequest
    | ViewSubmittedReimbursementRequests
    | Logout
    | RequestEmployeeAccount
    | CreateAccount
    | Login
    | ViewSingleReimbursementRequest
    | EditPendingReimbursement
    | ViewAllUserAccounts
  {
    /** The enum constant's `name()`, as the backend sends it and as error messages quote it. */
    function Name(): string
    {
      match this
      case EditUserRole => "EDIT_USER_ROLE"
      case UpgradeAccountRole => "UPGRADE_ACCOUNT_ROLE"
      case DeleteUser => "DELETE_USER"
      case ViewAllReimbursementRequests => "VIEW_ALL_REIMBURSEMENT_REQUESTS"
      case CreateReimbursementRequest => "CREATE_REIMBURSEMENT_REQUEST"
      case ViewSubmittedReimbursementRequests => "VIEW_SUBMITTED_REIMBURSEMENT_REQUESTS"
      case Logout => "LOGOUT"
      case RequestEmployeeAccount => "REQUEST_EMPLOYEE_ACCOUNT"
      case CreateAccount => "CREATE_ACCOUNT"
      case Login => "LOGIN"
      case ViewSingleReimbursementRequest => "VIEW_SINGLE_REIMBURSEMENT_REQUEST"
      case EditPendingReimbursement => "EDIT_PENDING_REIMBURSEMENT"
      case ViewAllUserAccounts => "VIEW_ALL_USERACCOUNTS"
    }
  }

  datatype Role = Guest | Restricted | Employee | Manager
  {
    /** The enum constant's `name()`: the upper-case role string the backend sends. */
    function Name(): string
    {
      match this
      case Guest => "GUEST"
      case Restricted => "RESTRICTED"
      case Employee => "EMPLOYEE"
      case Manager => "MANAGER"
    }
  }

  /**
   * `role.getPermissions()`: the role's declared set. Java hands out a fresh
   * copy each time; here the set is a value, so no caller can change the
   * table through the result.
   */
  function Permissions(r: Role): (ps: set<Permission>)
    ensures (Logout in ps) <==> r != Guest
    ensures r == Manager ==> CreateReimbursementRequest !in ps
  {
    match r
    case Guest => {CreateAccount, Login}
    case Restricted => {RequestEmployeeAccount, Logout}
    case Employee =>
      {CreateReimbursementRequest, ViewSubmittedReimbursementRequests,
       ViewSingleReimbursementRequest, EditPendingReimbursement, Logout}
    case Manager =>
      {ViewSubmittedReimbursementRequests, ViewAllReimbursementRequests,
       ViewSingleReimbursementRequest, ViewAllUserAccounts, EditUserRole,
       UpgradeAccountRole, DeleteUser, Logout}
  }

  /** The names of a role's permissions, as the account DTO and the login response carry them. */
  function PermissionNames(r: Role): (names: set<string>)
    ensures forall p :: p in Permissions(r) ==> p.Name() in names
    ensures forall n :: n in names ==> exists p :: p in Permissions(r) && p.Name() == n
  {
    set p | p in Permissions(r) :: p.Name()
  }

  /** Two different permissions never share a name, so naming loses nothing. */
  lemma NamesDistinct(p: Permission, q: Permission)
    requires p != q
    ensures p.Name() != q.Name()
  {
  }

  /** Two different roles never share a name. */
  lemma RoleNamesDistinct(a: Role, b: Role)
    requires a != b
    ensures a.Name() != b.Name()
  {
  }

  lemma GuestPermissionsExact(p: Permission)
    ensures p in Permissions(Guest) <==> p == CreateAccount || p == Login
  {
  }

  lemma RestrictedPermissionsExact(p: Permission)
    ensures p in Permissions(Restricted) <==> p == RequestEmployeeAccount || p == Logout
  {
  }

  lemma EmployeePermissionsExact(p: Permission)
    ensures p in Permissions(Employee) <==>
      p in {CreateReimbursementRequest, ViewSubmittedReimbursementRequests,
            ViewSingleReimbursementRequest, EditPendingReimbursement, Logout}
  {
  }

  /** A manager holds its eight permissions and no other; creating a request is not among them. */
  lemma ManagerPermissionsExact(p: Permission)
    ensures p in Permissions(Manager) <==>
      p in {ViewSubmittedReimbursementRequests, ViewAllReimbursementRequests,
            ViewSingleReimbursementRequest, ViewAllUserAccounts, EditUserRole,
            UpgradeAccountRole, DeleteUser, Logout}
    ensures CreateReimbursementRequest !in Permissions(Manager)
  {
  }

  /** The table sizes: 2, 2, 5 and 8 distinct permissions. */
  lemma PermissionCounts()
    ensures |Permissions(Guest)| == 2 && |Permissions(Restricted)| == 2
    ensures |Permissions(Employee)| == 5 && |Permissions(Manager)| == 8
  {
  }

  /** A role's name set has exactly as many names as the role has permissions. */
  lemma {:induction false} PermissionNamesCount(r: Role)
    ensures |PermissionNames(r)| == |Permissions(r)|
  {
    NamesPreserveCount(Permissions(r));
  }

  lemma {:induction false} NamesPreserveCount(ps: set<Permission>)
    ensures |set p | p in ps :: p.Name()| == |ps|
    decreases |ps|
  {
    if ps != {} {
      var q :| q in ps;
      var rest := ps - {q};
      NamesPreserveCount(rest);
      var restNames := set p | p in rest :: p.Name();
      assert (set p | p in ps :: p.Name()) == restNames + {q.Name()};
      assert q.Name() !in restNames by {
        forall p | p in rest ensures p.Name() != q.Name() {
          NamesDistinct(p, q);
        }
      }
    }
  }
}
