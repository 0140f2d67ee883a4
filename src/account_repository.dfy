/**
 * The account table behind `UserAccountRepository`: rows keyed by their
 * generated id, with the column constraints the entity declares (email unique
 * and non-null, password hash non-null). Only the queries the services use
 * are modelled: findByEmail, existsByEmail, findById, findAll, save and
 * deleteById.
 */
module AccountRepository {
  import opened Common
  import opened Roles
  import opened UserAccountEntity

  /** The unique-email constraint on the `email` column. */
  predicate UniqueEmails(rows: map<int, AccountRow>)
  {
    forall i, j :: i in rows && j in rows && rows[i].email == rows[j].email ==> i == j
  }

  /** Each row is stored under its own id. */
  predicate WellKeyed(rows: map<int, AccountRow>)
  {
    forall i :: i in rows ==> rows[i].id == i
  }

  /** Some row other than the one with id `self` already uses `email`. */
  predicate EmailTakenByOther(rows: map<int, AccountRow>, email: string, self: Option<int>)
  {
    exists k :: k in rows && rows[k].email == email && Some(k) != self
  }

  /** A row of a well-keyed table is stored under its own id. */
  lemma KeyedValue(rows: map<int, AccountRow>, row: AccountRow)
    requires WellKeyed(rows) && row in rows.Values
    ensures row.id in rows && rows[row.id] == row
  {
    if forall k :: k in rows ==> rows[k] != row {
      assert false;
    }
  }

  /**
   * `findByEmail`: the one row holding `email`, if any. A null email matches
   * nothing, since the column is non-null.
   */
  function LookupEmail(rows: map<int, AccountRow>, email: Option<string>): (r: Option<AccountRow>)
    requires UniqueEmails(rows)
    ensures r.Some? <==> email.Some? && exists i :: i in rows && rows[i].email == email.value
    ensures r.Some? ==> r.value in rows.Values && Some(r.value.email) == email
  {
    if email.Some? && exists i :: i in rows && rows[i].email == email.value then
      var i :| i in rows && rows[i].email == email.value;
      Some(rows[i])
    else
      None
  }

  /** Why the database refuses a `save`. */
  datatype StoreError =
    | NullColumn      // email or passwordHash is null
    | DuplicateEmail  // the unique constraint on email

  class UserAccountRepository {
    var rows: map<int, AccountRow>
    /** The next value of the id sequence. */
    var nextId: int

    ghost predicate Valid()
      reads this
    {
      WellKeyed(rows) && UniqueEmails(rows) && forall i :: i in rows ==> i < nextId
    }

    constructor ()
      ensures Valid() && rows == map[]
    {
      rows := map[];
      nextId := 1;
    }

    method FindByEmail(email: Option<string>) returns (r: Option<AccountRow>)
      requires Valid()
      ensures r == LookupEmail(rows, email)
    {
      if email.Some? && exists i :: i in rows && rows[i].email == email.value {
        var i :| i in rows && rows[i].email == email.value;
        r := Some(rows[i]);
      } else {
        r := None;
      }
    }

    method ExistsByEmail(email: Option<string>) returns (b: bool)
      requires Valid()
      ensures b <==> email.Some? && exists i :: i in rows && rows[i].email == email.value
    {
      b := email.Some? && exists i :: i in rows && rows[i].email == email.value;
    }

    method FindById(id: int) returns (r: Option<AccountRow>)
      requires Valid()
      ensures r.Some? <==> id in rows
      ensures r.Some? ==> r.value == rows[id] && r.value.id == id
    {
      r := if id in rows then Some(rows[id]) else None;
    }

    /** `findAll`: every row exactly once, in no promised order. */
    method FindAll() returns (all: seq<AccountRow>)
      requires Valid()
      ensures forall row :: row in all <==> row in rows.Values
      ensures forall i, j :: 0 <= i < j < |all| ==> all[i].id != all[j].id
    {
      all := [];
      var left := rows.Keys;
      while left != {}
        invariant left <= rows.Keys
        invariant forall k :: k in rows && k !in left ==> rows[k] in all
        invariant forall i :: 0 <= i < |all| ==> all[i].id in rows && all[i].id !in left && rows[all[i].id] == all[i]
        invariant forall i, j :: 0 <= i < j < |all| ==> all[i].id != all[j].id
        decreases left
      {
        if forall j :: j !in left {
          assert false;
        }
        var k :| k in left;
        all := all + [rows[k]];
        left := left - {k};
      }
      forall row | row in rows.Values ensures row in all {
        if forall k :: k in rows ==> rows[k] != row {
          assert false;
        }
      }
    }

    /**
     * `save`: a new entity (no id yet) gets the next id of the sequence and is
     * inserted; an entity with an id overwrites its row. The database refuses
     * null columns and an email another row already uses.
     */
    method Save(e: UserAccount) returns (r: Result<AccountRow, StoreError>)
      requires Valid()
      requires e.userAccountId.Some? ==> e.userAccountId.value in rows
      modifies this, e
      ensures Valid()
      ensures e.email == old(e.email) && e.passwordHash == old(e.passwordHash) && e.role == old(e.role)
      ensures old(e.email).None? || old(e.passwordHash).None? ==> r == Err(NullColumn)
      ensures old(e.email).Some? && old(e.passwordHash).Some?
                && EmailTakenByOther(old(rows), old(e.email).value, old(e.userAccountId))
              ==> r == Err(DuplicateEmail)
      ensures r.Err? ==> rows == old(rows) && e.userAccountId == old(e.userAccountId)
      ensures r.Err? ==> old(e.email).None? || old(e.passwordHash).None?
                         || EmailTakenByOther(old(rows), old(e.email).value, old(e.userAccountId))
      ensures r.Ok? ==> e.Persisted() && r.value == e.Row() && rows == old(rows)[r.value.id := r.value]
      ensures r.Ok? && old(e.userAccountId).None? ==> r.value.id == old(nextId) && r.value.id !in old(rows)
      ensures r.Ok? && old(e.userAccountId).Some? ==> Some(r.value.id) == old(e.userAccountId)
    {
      if e.email.None? || e.passwordHash.None? {
        return Err(NullColumn);
      }
      if exists k :: k in rows && rows[k].email == e.email.value && Some(k) != e.userAccountId {
        return Err(DuplicateEmail);
      }
      if e.userAccountId.None? {
        e.SetUserAccountId(nextId);
        nextId := nextId + 1;
      }
      var row := e.Row();
      rows := rows[row.id := row];
      r := Ok(row);
    }

    /** `deleteById`: the row with that id is gone, every other row stays. */
    method DeleteById(id: int)
      requires Valid()
      modifies this
      ensures Valid() && rows == old(rows) - {id} && nextId == old(nextId)
    {
      rows := rows - {id};
    }
  }
}
