/**
 * The `UserAccount` entity: an id the database assigns, a unique email, a
 * password hash and a role that defaults to RESTRICTED. Its Lombok setters
 * change fields in place, so it is a class; what the account table stores is
 * the value `AccountRow`.
 */
module UserAccountEntity {
  import opened Common
  import opened Roles

  /** One persisted account: every column is non-null. */
  datatype AccountRow = AccountRow(id: int, email: string, passwordHash: string, role: Role)

  class UserAccount {
    var userAccountId: Option<int>
    var email: Option<string>
    var passwordHash: Option<string>
    var role: Role

    /** The no-argument constructor: nothing set except the default role RESTRICTED. */
    constructor ()
      ensures userAccountId == None && email == None && passwordHash == None
      ensures role == Restricted
    {
      userAccountId := None;
      email := None;
      passwordHash := None;
      role := Restricted;
    }

    /** The account-creation constructor: stores the given string as the hash verbatim, role RESTRICTED. */
    constructor WithCredentials(email: string, password: string)
      ensures userAccountId == None
      ensures this.email == Some(email) && passwordHash == Some(password)
      ensures role == Restricted
    {
      userAccountId := None;
      this.email := Some(email);
      passwordHash := Some(password);
      role := Restricted;
    }

    /** What the persistence layer hands back for a stored row. */
    constructor Loaded(row: AccountRow)
      ensures Persisted() && Row() == row
    {
      userAccountId := Some(row.id);
      email := Some(row.email);
      passwordHash := Some(row.passwordHash);
      role := row.role;
    }

    /**
     * `getPermissions()`: always the permission set of the current role, so an
     * account holds LOGOUT exactly when its role is not GUEST.
     */
    function Permissions(): (ps: set<Permission>)
      reads this
      ensures (Logout in ps) <==> role != Guest
    {
      Roles.Permissions(role)
    }

    method SetEmail(e: Option<string>)
      modifies this
      ensures email == e
      ensures userAccountId == old(userAccountId) && passwordHash == old(passwordHash) && role == old(role)
    {
      email := e;
    }

    method SetPasswordHash(h: Option<string>)
      modifies this
      ensures passwordHash == h
      ensures userAccountId == old(userAccountId) && email == old(email) && role == old(role)
    {
      passwordHash := h;
    }

    /** Changing the role changes the derived permissions and nothing else. */
    method SetRole(r: Role)
      modifies this
      ensures role == r && Permissions() == Roles.Permissions(r)
      ensures userAccountId == old(userAccountId) && email == old(email) && passwordHash == old(passwordHash)
    {
      role := r;
    }

    method SetUserAccountId(id: int)
      modifies this
      ensures userAccountId == Some(id)
      ensures email == old(email) && passwordHash == old(passwordHash) && role == old(role)
    {
      userAccountId := Some(id);
    }

    /** Every non-null column is set and the id has been assigned. */
    predicate Persisted()
      reads this
    {
      userAccountId.Some? && email.Some? && passwordHash.Some?
    }

    /** The row this entity stands for once persisted. */
    function Row(): (row: AccountRow)
      reads this
      requires Persisted()
      ensures Some(row.id) == userAccountId && Some(row.email) == email
      ensures Some(row.passwordHash) == passwordHash && row.role == role
    {
      AccountRow(userAccountId.value, email.value, passwordHash.value, role)
    }
  }
}
