/**
 * `ReimbursementMapper`: builds the response DTO from an entity, builds a new
 * entity from a create DTO, and copies an edit DTO into an existing entity.
 * A null argument is `null` (entities) or `None` (DTOs).
 */
module ReimbursementMapper {
  import opened Common
  import opened ReimbursementEntity

  /** The body of a create or edit request. */
  datatype CreateReimbursementDto = CreateReimbursementDto(
    description: Option<string>,
    amount: Option<Amount>,
    kind: Option<ReimbursementType>)

  /** What the API returns for one reimbursement; the service fills `userEmail`. */
  datatype ReimbursementResponseDto = ReimbursementResponseDto(
    id: Option<int>,
    userId: Option<int>,
    userEmail: Option<string>,
    description: Option<string>,
    amount: Option<Amount>,
    kind: Option<ReimbursementType>,
    status: ReimbursementStatus)

  /**
   * `toResponseDto`: null for null; otherwise every field of the entity is
   * copied and the owner's email is left unset.
   */
  function ToResponseDto(e: Reimbursement?): (r: Option<ReimbursementResponseDto>)
    reads e
    ensures r.None? <==> e == null
    ensures r.Some? ==> r.value.userEmail.None?
    ensures r.Some? && e.Persistable() && e.id.Some? ==> StoredRow(r.value) == Some(e.Row(e.id.value))
  {
    if e == null then None
    else Some(ReimbursementResponseDto(e.id, e.userId, None, e.description, e.amount, e.kind, e.status))
  }

  /** The row a response describes, when it names every non-null column. */
  function StoredRow(dto: ReimbursementResponseDto): (row: Option<ReimbursementRow>)
    ensures row.Some? <==> dto.id.Some? && dto.userId.Some? && dto.description.Some? && dto.kind.Some?
    ensures row.Some? ==> Some(row.value.id) == dto.id && row.value.status == dto.status
  {
    if dto.id.Some? && dto.userId.Some? && dto.description.Some? && dto.kind.Some? then
      Some(ReimbursementRow(dto.id.value, dto.userId.value, dto.description.value, dto.amount, dto.kind.value, dto.status))
    else
      None
  }

  /** The response for a stored row, before the service adds the email: it loses no column. */
  function RowResponse(row: ReimbursementRow): (dto: ReimbursementResponseDto)
    ensures StoredRow(dto) == Some(row) && dto.userEmail.None?
  {
    ReimbursementResponseDto(Some(row.id), Some(row.userId), None, Some(row.description), row.amount, Some(row.kind), row.status)
  }

  /** `toResponseDto` of the entity the persistence layer loads for `row`. */
  lemma LoadedResponse(e: Reimbursement, row: ReimbursementRow)
    requires e.Persistable() && e.id == Some(row.id) && e.Row(row.id) == row
    ensures ToResponseDto(e) == Some(RowResponse(row))
  {
  }

  /**
   * `toEntity`: null for null; otherwise a fresh entity holding the DTO's
   * description, amount and type, status PENDING, and no id or owner yet.
   */
  method ToEntity(dto: Option<CreateReimbursementDto>) returns (e: Reimbursement?)
    ensures e == null <==> dto.None?
    ensures e != null ==> fresh(e)
    ensures e != null ==> e.description == dto.value.description && e.amount == dto.value.amount && e.kind == dto.value.kind
    ensures e != null ==> e.status == Pending && e.id.None? && e.userId.None?
  {
    if dto.None? {
      return null;
    }
    e := new Reimbursement();
    e.SetDetails(dto.value.description, dto.value.amount, dto.value.kind);
  }

  /**
   * `updateEntityFromDto`: nothing happens when either argument is null;
   * otherwise description, amount and type are overwritten and id, owner and
   * status are kept.
   */
  method UpdateEntityFromDto(e: Reimbursement?, dto: Option<CreateReimbursementDto>)
    modifies e
    ensures e != null && dto.None? ==> unchanged(e)
    ensures e != null && dto.Some? ==>
      e.description == dto.value.description && e.amount == dto.value.amount && e.kind == dto.value.kind
    ensures e != null ==> e.id == old(e.id) && e.userId == old(e.userId) && e.status == old(e.status)
  {
    if e == null || dto.None? {
      return;
    }
    e.SetDetails(dto.value.description, dto.value.amount, dto.value.kind);
  }
}
