/**
 * The `Reimbursement` entity: an owner id, a description, an expense type and
 * a status that starts PENDING. Its setters change fields in place, so it is
 * a class; the reimbursement table stores the value `ReimbursementRow`.
 *
 * The mapper also copies an `amount` that no entity or DTO class declares;
 * it is kept here as an optional value of the opaque type `Amount`, copied
 * and never computed with.
 */
module ReimbursementEntity {
  import opened Common

  datatype ReimbursementStatus = Pending | Approved | Denied
  {
    function Name(): string
    {
      match this
      case Pending => "PENDING"
      case Approved => "APPROVED"
      case Denied => "DENIED"
    }
  }

  datatype ReimbursementType = Food | Airline | Gas | Hotel | Supplies | Other

  /** A monetary amount, carried as its decimal text and never computed with. */
  datatype Amount = Amount(decimal: string)

  /** One persisted reimbursement: id, owner, description and type are non-null columns. */
  datatype ReimbursementRow = ReimbursementRow(
    id: int,
    userId: int,
    description: string,
    amount: Option<Amount>,
    kind: ReimbursementType,
    status: ReimbursementStatus)

  class Reimbursement {
    var id: Option<int>
    var userId: Option<int>
    var description: Option<string>
    var amount: Option<Amount>
    var kind: Option<ReimbursementType>
    var status: ReimbursementStatus

    /** The constructor: nothing set except status PENDING. */
    constructor ()
      ensures id == None && userId == None && description == None && amount == None && kind == None
      ensures status == Pending
    {
      id := None;
      userId := None;
      description := None;
      amount := None;
      kind := None;
      status := Pending;
    }

    /** What the persistence layer hands back for a stored row. */
    constructor Loaded(row: ReimbursementRow)
      ensures Persistable() && id == Some(row.id) && Row(row.id) == row
    {
      id := Some(row.id);
      userId := Some(row.userId);
      description := Some(row.description);
      amount := row.amount;
      kind := Some(row.kind);
      status := row.status;
    }

    method SetUserId(u: int)
      modifies this
      ensures userId == Some(u)
      ensures id == old(id) && description == old(description) && amount == old(amount)
      ensures kind == old(kind) && status == old(status)
    {
      userId := Some(u);
    }

    method SetId(i: int)
      modifies this
      ensures id == Some(i)
      ensures userId == old(userId) && description == old(description) && amount == old(amount)
      ensures kind == old(kind) && status == old(status)
    {
      id := Some(i);
    }

    method SetStatus(s: ReimbursementStatus)
      modifies this
      ensures status == s
      ensures id == old(id) && userId == old(userId) && description == old(description)
      ensures amount == old(amount) && kind == old(kind)
    {
      status := s;
    }

    /** Sets exactly the three fields a create DTO carries. */
    method SetDetails(d: Option<string>, a: Option<Amount>, k: Option<ReimbursementType>)
      modifies this
      ensures description == d && amount == a && kind == k
      ensures id == old(id) && userId == old(userId) && status == old(status)
    {
      description := d;
      amount := a;
      kind := k;
    }

    /** Every non-null column other than the generated id is set. */
    predicate Persistable()
      reads this
    {
      userId.Some? && description.Some? && kind.Some?
    }

    /** The row this entity is stored as under the id `key`. */
    function Row(key: int): (row: ReimbursementRow)
      reads this
      requires Persistable()
      ensures row.id == key && Some(row.userId) == userId && Some(row.description) == description
      ensures row.amount == amount && Some(row.kind) == kind && row.status == status
    {
      ReimbursementRow(key, userId.value, description.value, amount, kind.value, status)
    }
  }
}
