/**
 * `UserAccountService`: creation with unique emails and hashed passwords,
 * lookups, role changes, the RESTRICTED to EMPLOYEE upgrade and deletion,
 * over the account table. The password encoder is an opaque function.
 */
module UserAccountService {
  import opened Common
  import opened Roles
  import opened UserAccountEntity
  import opened AccountRepository
  import opened UserAccountMapper
  import opened Errors

  /** The refusal of an upgrade request from a role other than RESTRICTED. */
  const OnlyRestrictedText: string := "Only " + "RESTRICTED" + " users can request role upgrades"

  function UserNotFoundById(id: int): string
  {
    "User not found with id: " + IntToString(id)
  }

  predicate HasEmail(rows: map<int, AccountRow>, email: string)
  {
    exists i :: i in rows && rows[i].email == email
  }

  class UserAccountService {
    const accounts: UserAccountRepository
    /** `passwordEncoder.encode`. */
    const encode: string -> string

    ghost predicate Valid()
      reads this, accounts
    {
      accounts.Valid()
    }

    constructor (accounts: UserAccountRepository, encode: string -> string)
      requires accounts.Valid()
      ensures Valid() && this.accounts == accounts && this.encode == encode
    {
      this.accounts := accounts;
      this.encode := encode;
    }

    /**
     * `createUserAcount`: an email already in use is a ValidationException and
     * nothing is stored; otherwise a new account with the DTO's email, the
     * encoded password and the DTO's role (RESTRICTED when absent) is stored
     * under the next id. A missing email or password violates a non-null
     * column. The answer is the stored account's DTO, without the password.
     */
    method CreateUserAccount(dto: UserAccountDto) returns (r: Result<UserAccountDto, ServiceError>)
      requires Valid()
      modifies accounts
      ensures Valid()
      ensures r.Err? ==> accounts.rows == old(accounts.rows)
      ensures dto.email.Some? && HasEmail(old(accounts.rows), dto.email.value) ==>
        r == Err(Validation("Email already exists: " + dto.email.value))
      ensures dto.email.None? || (dto.password.None? && !HasEmail(old(accounts.rows), dto.email.value)) ==>
        r == Err(ConstraintViolation)
      ensures dto.email.Some? && dto.password.Some? && !HasEmail(old(accounts.rows), dto.email.value) ==>
        var row := AccountRow(old(accounts.nextId), dto.email.value, encode(dto.password.value),
                              if dto.role.Some? then dto.role.value else Restricted);
        row.id !in old(accounts.rows) && accounts.rows == old(accounts.rows)[row.id := row] && r == Ok(RowDto(row))
    {
      var taken := accounts.ExistsByEmail(dto.email);
      if taken {
        return Err(Validation("Email already exists: " + dto.email.value));
      }
      var e := UserAccountMapper.ToEntity(Some(dto));
      if dto.password.Some? {
        e.SetPasswordHash(Some(encode(dto.password.value)));
      }
      var saved := accounts.Save(e);
      if saved.Err? {
        return Err(ConstraintViolation);
      }
      r := Ok(RowDto(saved.value));
    }

    /** `getUserById`: the account's DTO, or NotFound; nothing changes. */
    method GetUserById(id: int) returns (r: Result<UserAccountDto, ServiceError>)
      requires Valid()
      ensures id !in accounts.rows ==> r == Err(ResourceNotFound(UserNotFoundById(id)))
      ensures id in accounts.rows ==> r == Ok(RowDto(accounts.rows[id])) && r.value.userAccountId == Some(id)
    {
      var found := accounts.FindById(id);
      if found.None? {
        return Err(ResourceNotFound(UserNotFoundById(id)));
      }
      r := Ok(RowDto(found.value));
    }

    /** `getUserByEmail`: the account's DTO, or NotFound; nothing changes. */
    method GetUserByEmail(email: string) returns (r: Result<UserAccountDto, ServiceError>)
      requires Valid()
      ensures !HasEmail(accounts.rows, email) ==> r == Err(ResourceNotFound("User not found with email: " + email))
      ensures HasEmail(accounts.rows, email) ==>
        r.Ok? && r.value.email == Some(email) && exists i :: i in accounts.rows && r.value == RowDto(accounts.rows[i])
    {
      var found := accounts.FindByEmail(Some(email));
      if found.None? {
        return Err(ResourceNotFound("User not found with email: " + email));
      }
      KeyedValue(accounts.rows, found.value);
      r := Ok(RowDto(found.value));
    }

    /** `getAllUsers`: the DTO of every account, once each. */
    method GetAllUsers() returns (dtos: seq<UserAccountDto>)
      requires Valid()
      ensures forall id :: id in accounts.rows ==> RowDto(accounts.rows[id]) in dtos
      ensures forall dto :: dto in dtos ==>
        dto.userAccountId.Some? && dto.userAccountId.value in accounts.rows
        && dto == RowDto(accounts.rows[dto.userAccountId.value])
      ensures forall i, j :: 0 <= i < j < |dtos| ==> dtos[i].userAccountId != dtos[j].userAccountId
    {
      var all := accounts.FindAll();
      dtos := seq(|all|, i requires 0 <= i < |all| => RowDto(all[i]));
      forall id | id in accounts.rows ensures RowDto(accounts.rows[id]) in dtos {
        var row := accounts.rows[id];
        assert row in all;
        var i :| 0 <= i < |all| && all[i] == row;
        assert dtos[i] == RowDto(row);
      }
      forall dto | dto in dtos
        ensures dto.userAccountId.Some? && dto.userAccountId.value in accounts.rows
        ensures dto == RowDto(accounts.rows[dto.userAccountId.value])
      {
        var i :| 0 <= i < |dtos| && dtos[i] == dto;
        assert all[i] in all;
        KeyedValue(accounts.rows, all[i]);
      }
    }

    /** `updateUserRole`: NotFound for an unknown id; otherwise only that account's role changes. */
    method UpdateUserRole(id: int, role: Role) returns (r: Result<UserAccountDto, ServiceError>)
      requires Valid()
      modifies accounts
      ensures Valid()
      ensures id !in old(accounts.rows) ==>
        r == Err(ResourceNotFound(UserNotFoundById(id))) && accounts.rows == old(accounts.rows)
      ensures id in old(accounts.rows) ==>
        var after := old(accounts.rows)[id].(role := role);
        accounts.rows == old(accounts.rows)[id := after] && r == Ok(RowDto(after))
    {
      var found := accounts.FindById(id);
      if found.None? {
        return Err(ResourceNotFound(UserNotFoundById(id)));
      }
      var e := new UserAccount.Loaded(found.value);
      e.SetRole(role);
      var saved := accounts.Save(e);
      if saved.Err? {
        // the row keeps its own email, which no other row holds
        assert false;
      }
      r := Ok(RowDto(saved.value));
    }

    /**
     * `processUpgradeRequest`: the request's id may be null, which the
     * repository refuses; then NotFound for an unknown id, a
     * ValidationException unless the account is RESTRICTED, and otherwise
     * the role becomes EMPLOYEE.
     */
    method ProcessUpgradeRequest(userAccountId: Option<int>) returns (r: Result<UserAccountDto, ServiceError>)
      requires Valid()
      modifies accounts
      ensures Valid()
      ensures r.Err? ==> accounts.rows == old(accounts.rows)
      ensures userAccountId.None? ==> r == Err(NullId)
      ensures userAccountId.Some? && userAccountId.value !in old(accounts.rows) ==>
        r == Err(ResourceNotFound(UserNotFoundById(userAccountId.value)))
      ensures userAccountId.Some? && userAccountId.value in old(accounts.rows)
              && old(accounts.rows)[userAccountId.value].role != Restricted ==>
        r == Err(Validation(OnlyRestrictedText))
      ensures userAccountId.Some? && userAccountId.value in old(accounts.rows)
              && old(accounts.rows)[userAccountId.value].role == Restricted ==>
        var after := old(accounts.rows)[userAccountId.value].(role := Employee);
        accounts.rows == old(accounts.rows)[userAccountId.value := after] && r == Ok(RowDto(after))
    {
      if userAccountId.None? {
        return Err(NullId);
      }
      var found := accounts.FindById(userAccountId.value);
      if found.None? {
        return Err(ResourceNotFound(UserNotFoundById(userAccountId.value)));
      }
      if found.value.role != Restricted {
        return Err(Validation(OnlyRestrictedText));
      }
      r := UpdateUserRole(found.value.id, Employee);
    }

    /** `deleteUser`: NotFound for an unknown id; otherwise exactly that account is removed. */
    method DeleteUser(id: int) returns (r: Result<(), ServiceError>)
      requires Valid()
      modifies accounts
      ensures Valid()
      ensures id !in old(accounts.rows) ==>
        r == Err(ResourceNotFound(UserNotFoundById(id))) && accounts.rows == old(accounts.rows)
      ensures id in old(accounts.rows) ==> r == Ok(()) && accounts.rows == old(accounts.rows) - {id}
    {
      var found := accounts.FindById(id);
      if found.None? {
        return Err(ResourceNotFound(UserNotFoundById(id)));
      }
      accounts.DeleteById(id);
      r := Ok(());
    }
  }
}
