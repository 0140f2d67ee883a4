/**
 * `PermissionEvaluatorImpl`: whether an account may use a permission, on an
 * optional resource. A MANAGER may do everything; anyone else needs the
 * permission in their role's set, and then ownership and status rules apply
 * to a reimbursement, and the no-self-delete rule to an account.
 */
module PermissionEvaluator {
  import opened Roles
  import opened UserAccountEntity
  import opened ReimbursementEntity

  /** The `Object resourceObject` argument: null, a reimbursement, an account, or anything else. */
  datatype Resource =
    | NoResource
    | OnReimbursement(reimbursement: ReimbursementRow)
    | OnAccount(account: AccountRow)
    | OtherObject

  /** `hasPermission(userAccount, permission, resource)`. */
  function HasPermission(user: AccountRow, p: Permission, resource: Resource): (granted: bool)
    ensures user.role == Manager ==> granted
    ensures user.role != Manager && p !in Permissions(user.role) ==> !granted
    ensures user.role != Manager && p in Permissions(user.role) && resource == NoResource ==> granted
    ensures user.role != Manager && p in Permissions(user.role) && resource != NoResource ==>
      granted == EvaluateResourcePermission(user, p, resource)
  {
    if user.role == Manager then true
    else if p !in Permissions(user.role) then false
    else if resource != NoResource then EvaluateResourcePermission(user, p, resource)
    else true
  }

  /** Owns: the reimbursement's owner is this account. */
  predicate Owns(user: AccountRow, r: ReimbursementRow)
  {
    r.userId == user.id
  }

  /** `evaluateResourcePermission`: the per-resource rules once the base permission is held. */
  function EvaluateResourcePermission(user: AccountRow, p: Permission, resource: Resource): (granted: bool)
    ensures resource.OnReimbursement? && p == ViewSubmittedReimbursementRequests ==>
      (granted <==> Owns(user, resource.reimbursement))
    ensures resource.OnReimbursement? && p == EditPendingReimbursement ==>
      (granted <==> Owns(user, resource.reimbursement) && resource.reimbursement.status == Pending)
    ensures resource.OnReimbursement? && user.role == Employee
              && (p == ViewAllReimbursementRequests || p == ViewSingleReimbursementRequest) ==>
      (granted <==> Owns(user, resource.reimbursement))
    ensures resource.OnAccount? && p == DeleteUser ==> (granted <==> user.id != resource.account.id)
    ensures !granted ==> resource.OnReimbursement? || resource.OnAccount?
  {
    match resource
    case OnReimbursement(r) =>
      (match p
       case ViewAllReimbursementRequests => if user.role == Employee then Owns(user, r) else true
       case ViewSubmittedReimbursementRequests => Owns(user, r)
       case ViewSingleReimbursementRequest => if user.role == Employee then Owns(user, r) else true
       case EditPendingReimbursement => Owns(user, r) && r.status == Pending
       case _ => true)
    case OnAccount(target) =>
      if p == DeleteUser then user.id != target.id else true
    case _ => true
  }

  /** An employee may edit a reimbursement exactly when it owns it and it is still PENDING. */
  lemma EmployeeEditsOnlyOwnPending(user: AccountRow, r: ReimbursementRow)
    requires user.role == Employee
    ensures HasPermission(user, EditPendingReimbursement, OnReimbursement(r)) <==> Owns(user, r) && r.status == Pending
  {
    assert EditPendingReimbursement in Permissions(Employee);
  }

  /** An employee sees a single reimbursement, or a submitted one, exactly when it owns it. */
  lemma EmployeeViewsOnlyOwn(user: AccountRow, r: ReimbursementRow, p: Permission)
    requires user.role == Employee
    requires p == ViewSingleReimbursementRequest || p == ViewSubmittedReimbursementRequests
    ensures HasPermission(user, p, OnReimbursement(r)) <==> Owns(user, r)
  {
    EmployeePermissionsExact(p);
  }

  /**
   * No role but MANAGER holds VIEW_ALL or DELETE_USER, so the EMPLOYEE branch
   * of VIEW_ALL and the no-self-delete rule are never consulted.
   */
  lemma OnlyManagersViewAllOrDelete(user: AccountRow, p: Permission, resource: Resource)
    requires p == ViewAllReimbursementRequests || p == DeleteUser
    ensures HasPermission(user, p, resource) <==> user.role == Manager
  {
    if user.role != Manager {
      GuestPermissionsExact(p);
      RestrictedPermissionsExact(p);
      EmployeePermissionsExact(p);
    }
  }

  /** A MANAGER may even delete its own account: the self-delete rule is dead for every caller. */
  lemma ManagerMayDeleteSelf(user: AccountRow)
    requires user.role == Manager
    ensures HasPermission(user, DeleteUser, OnAccount(user))
    ensures !EvaluateResourcePermission(user, DeleteUser, OnAccount(user))
  {
  }

  /**
   * A MANAGER may create a reimbursement, although CREATE_REIMBURSEMENT_REQUEST
   * is not in its permission set: the short-circuit comes first.
   */
  lemma ManagerCreatesWithoutThePermission(user: AccountRow)
    requires user.role == Manager
    ensures CreateReimbursementRequest !in Permissions(user.role)
    ensures HasPermission(user, CreateReimbursementRequest, NoResource)
  {
  }

  /**
   * Outside reimbursements with the four guarded permissions and DELETE_USER
   * on an account, holding the base permission is enough.
   */
  lemma BasePermissionSuffices(user: AccountRow, p: Permission, resource: Resource)
    requires p in Permissions(user.role)
    requires resource.OnReimbursement? ==>
      p !in {ViewAllReimbursementRequests, ViewSubmittedReimbursementRequests,
             ViewSingleReimbursementRequest, EditPendingReimbursement}
    requires resource.OnAccount? ==> p != DeleteUser
    ensures HasPermission(user, p, resource)
  {
  }
}
