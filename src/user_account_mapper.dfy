/**
 * `UserAccountMapper`: the account DTO never carries the password on the way
 * out, and a DTO only ever sets an entity's email and role.
 */
module UserAccountMapper {
  import opened Common
  import opened Roles
  import opened UserAccountEntity

  /** `UserAccountDTO`: `password` is only read on creation and never returned. */
  datatype UserAccountDto = UserAccountDto(
    userAccountId: Option<int>,
    email: Option<string>,
    password: Option<string>,
    role: Option<Role>,
    permissions: Option<set<string>>)

  /**
   * `toDto`: null for null; otherwise id, email, role and the names of the
   * role's permissions, and no password.
   */
  function ToDto(e: UserAccount?): (r: Option<UserAccountDto>)
    reads e
    ensures r.None? <==> e == null
    ensures r.Some? ==> r.value.password.None? && r.value.role == Some(e.role)
    ensures r.Some? ==> r.value.userAccountId == e.userAccountId && r.value.email == e.email
    ensures r.Some? ==> r.value.permissions == Some(PermissionNames(e.role))
  {
    if e == null then None
    else Some(UserAccountDto(e.userAccountId, e.email, None, Some(e.role), Some(PermissionNames(e.role))))
  }

  /** The DTO of a stored account: its id, email, role and permission names. */
  function RowDto(row: AccountRow): (dto: UserAccountDto)
    ensures dto.password.None? && dto.userAccountId == Some(row.id) && dto.email == Some(row.email)
    ensures dto.role == Some(row.role) && dto.permissions == Some(PermissionNames(row.role))
    ensures (Permission.Logout.Name() in dto.permissions.value) <==> row.role != Guest
  {
    PermissionNamesLogout(row.role);
    UserAccountDto(Some(row.id), Some(row.email), None, Some(row.role), Some(PermissionNames(row.role)))
  }

  /** A role's permission names contain "LOGOUT" exactly when the role is not GUEST. */
  lemma PermissionNamesLogout(r: Role)
    ensures (Permission.Logout.Name() in PermissionNames(r)) <==> r != Guest
  {
    if r != Guest {
      assert Permission.Logout in Permissions(r);
    } else {
      forall p | p in Permissions(r) ensures p.Name() != Permission.Logout.Name() {
        NamesDistinct(p, Permission.Logout);
      }
    }
  }

  /** `toDto` of the entity the persistence layer loads for `row` is `RowDto(row)`. */
  lemma LoadedDto(e: UserAccount, row: AccountRow)
    requires e.Persisted() && e.Row() == row
    ensures ToDto(e) == Some(RowDto(row))
  {
  }

  /**
   * `toEntity`: null for null; otherwise a fresh entity with the DTO's email,
   * the DTO's role or RESTRICTED when it has none, and no id or password hash.
   */
  method ToEntity(dto: Option<UserAccountDto>) returns (e: UserAccount?)
    ensures e == null <==> dto.None?
    ensures e != null ==> fresh(e)
    ensures e != null ==> e.email == dto.value.email && e.userAccountId.None? && e.passwordHash.None?
    ensures e != null ==> e.role == (if dto.value.role.Some? then dto.value.role.value else Restricted)
  {
    if dto.None? {
      return null;
    }
    e := new UserAccount();
    e.SetEmail(dto.value.email);
    if dto.value.role.Some? {
      e.SetRole(dto.value.role.value);
    }
  }

  /**
   * `updateEntityFromDto`: nothing happens when either argument is null;
   * otherwise email and role are overwritten only by non-null DTO values, and
   * the id and password hash are never touched.
   */
  method UpdateEntityFromDto(e: UserAccount?, dto: Option<UserAccountDto>)
    modifies e
    ensures e != null && dto.None? ==> unchanged(e)
    ensures e != null ==> e.userAccountId == old(e.userAccountId) && e.passwordHash == old(e.passwordHash)
    ensures e != null && dto.Some? ==>
      e.email == (if dto.value.email.Some? then dto.value.email else old(e.email))
    ensures e != null && dto.Some? ==>
      e.role == (if dto.value.role.Some? then dto.value.role.value else old(e.role))
  {
    if e == null || dto.None? {
      return;
    }
    if dto.value.email.Some? {
      e.SetEmail(dto.value.email);
    }
    if dto.value.role.Some? {
      e.SetRole(dto.value.role.value);
    }
  }
}
