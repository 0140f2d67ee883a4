/**
 * `ReimbursementService`: the reimbursement ledger. Every operation first
 * checks the caller's permission through `PermissionService` (the caller's
 * authentication is an input), reads or changes the reimbursement table, and
 * answers with response DTOs enriched with the owner's email.
 *
 * The request bodies reach the service only after the controller's bean
 * validation, so a create or edit body always has a description and a type
 * and a resolve body always has a status.
 */
module ReimbursementService {
  import opened Common
  import opened Roles
  import opened UserAccountEntity
  import opened AccountRepository
  import opened ReimbursementEntity
  import opened ReimbursementRepository
  import opened ReimbursementMapper
  import PermissionEvaluator
  import opened PermissionService
  import opened Errors

  /** `enrichResponseDto`: the row's response, with the owner's email when the owner's account exists. */
  function Enriched(row: ReimbursementRow, accountRows: map<int, AccountRow>): (dto: ReimbursementResponseDto)
    ensures StoredRow(dto) == Some(row)
    ensures dto.userEmail.Some? <==> row.userId in accountRows
    ensures dto.userEmail.Some? ==> dto.userEmail.value == accountRows[row.userId].email
  {
    RowResponse(row).(userEmail := if row.userId in accountRows then Some(accountRows[row.userId].email) else None)
  }

  /** The stream `map(this::enrichResponseDto)` over a query result. */
  function EnrichAll(found: seq<ReimbursementRow>, accountRows: map<int, AccountRow>): (dtos: seq<ReimbursementResponseDto>)
    ensures |dtos| == |found|
    ensures forall i :: 0 <= i < |found| ==> dtos[i] == Enriched(found[i], accountRows)
  {
    seq(|found|, i requires 0 <= i < |found| => Enriched(found[i], accountRows))
  }

  /** A row passes the owner filter (when there is one) and the status filter (when there is one). */
  predicate Selected(row: ReimbursementRow, owner: Option<int>, status: Option<ReimbursementStatus>)
  {
    (owner.None? || row.userId == owner.value) && (status.None? || row.status == status.value)
  }

  /** The list holds the enriched response of exactly the selected rows of the table. */
  ghost predicate ListsExactly(
    dtos: seq<ReimbursementResponseDto>, table: map<int, ReimbursementRow>, accountRows: map<int, AccountRow>,
    owner: Option<int>, status: Option<ReimbursementStatus>)
  {
    (forall dto :: dto in dtos ==>
      StoredRow(dto).Some? && StoredRow(dto).value in table.Values && Selected(StoredRow(dto).value, owner, status)
      && dto == Enriched(StoredRow(dto).value, accountRows))
    && (forall row :: row in table.Values && Selected(row, owner, status) ==> Enriched(row, accountRows) in dtos)
  }

  /** Largest id first. */
  predicate NewestFirst(dtos: seq<ReimbursementResponseDto>)
  {
    forall i, j :: 0 <= i < j < |dtos| ==> dtos[i].id.Some? && dtos[j].id.Some? && dtos[i].id.value > dtos[j].id.value
  }

  /** Enriching a query result lists exactly the selected rows, in the query's order. */
  lemma {:induction false} EnrichedListing(
    found: seq<ReimbursementRow>, table: map<int, ReimbursementRow>, accountRows: map<int, AccountRow>,
    owner: Option<int>, status: Option<ReimbursementStatus>)
    requires forall row :: row in found <==> row in table.Values && Selected(row, owner, status)
    ensures ListsExactly(EnrichAll(found, accountRows), table, accountRows, owner, status)
    ensures IdsDescending(found) ==> NewestFirst(EnrichAll(found, accountRows))
  {
    var dtos := EnrichAll(found, accountRows);
    forall dto | dto in dtos
      ensures StoredRow(dto).Some? && StoredRow(dto).value in table.Values && Selected(StoredRow(dto).value, owner, status)
      ensures dto == Enriched(StoredRow(dto).value, accountRows)
    {
      var i :| 0 <= i < |dtos| && dtos[i] == dto;
      assert found[i] in found;
    }
    forall row | row in table.Values && Selected(row, owner, status)
      ensures Enriched(row, accountRows) in dtos
    {
      assert row in found;
      var i :| 0 <= i < |found| && found[i] == row;
      assert dtos[i] == Enriched(row, accountRows);
    }
    if IdsDescending(found) {
      forall i, j | 0 <= i < j < |dtos|
        ensures dtos[i].id.Some? && dtos[j].id.Some? && dtos[i].id.value > dtos[j].id.value
      {
        assert StoredRow(dtos[i]) == Some(found[i]);
        assert StoredRow(dtos[j]) == Some(found[j]);
      }
    }
  }

  /** The refusal to resolve a reimbursement that is no longer pending. */
  const NotPendingText: string := "Can only resolve " + "pending" + " reimbursements"

  /** The refusal of a resolution by anyone but a manager. */
  const OnlyManagersText: string := "Only managers" + " can resolve reimbursements"

  function NotFoundMessage(id: int): string
  {
    "Reimbursement not found with id: " + IntToString(id)
  }

  class ReimbursementService {
    const reimbursements: ReimbursementRepository
    const accounts: UserAccountRepository

    ghost predicate Valid()
      reads this, reimbursements, accounts
    {
      reimbursements.Valid() && accounts.Valid()
    }

    constructor (reimbursements: ReimbursementRepository, accounts: UserAccountRepository)
      requires reimbursements.Valid() && accounts.Valid()
      ensures Valid() && this.reimbursements == reimbursements && this.accounts == accounts
    {
      this.reimbursements := reimbursements;
      this.accounts := accounts;
    }

    /**
     * `createReimbursement`: without CREATE_REIMBURSEMENT_REQUEST nothing is
     * stored; otherwise a new PENDING row owned by the current account is
     * stored under the next id, and the response carries the owner's email.
     */
    method CreateReimbursement(auth: Option<Authentication>, dto: CreateReimbursementDto)
      returns (r: Result<ReimbursementResponseDto, ServiceError>)
      requires Valid() && dto.description.Some? && dto.kind.Some?
      modifies reimbursements
      ensures Valid()
      ensures RequirePermission(auth, accounts.rows, CreateReimbursementRequest).Err? ==>
        r == Err(RequirePermission(auth, accounts.rows, CreateReimbursementRequest).error)
        && reimbursements.rows == old(reimbursements.rows)
      ensures RequirePermission(auth, accounts.rows, CreateReimbursementRequest).Ok? ==>
        var owner := GetCurrentUser(auth, accounts.rows).value;
        var row := ReimbursementRow(old(reimbursements.nextId), owner.id, dto.description.value, dto.amount, dto.kind.value, Pending);
        row.id !in old(reimbursements.rows)
        && reimbursements.rows == old(reimbursements.rows)[row.id := row]
        && r == Ok(Enriched(row, accounts.rows)) && r.value.userEmail == Some(owner.email)
    {
      var check := RequirePermission(auth, accounts.rows, CreateReimbursementRequest);
      if check.Err? {
        return Err(check.error);
      }
      var owner := GetCurrentUser(auth, accounts.rows).value;
      var e := ReimbursementMapper.ToEntity(Some(dto));
      e.SetUserId(owner.id);
      var saved := reimbursements.Save(e);
      KeyedValue(accounts.rows, owner);
      r := Ok(Enriched(saved, accounts.rows));
    }

    /**
     * `getReimbursementById`: NotFound for an unknown id, before any
     * permission check; then VIEW_SINGLE_REIMBURSEMENT_REQUEST on that
     * reimbursement; then its enriched response.
     */
    method GetReimbursementById(auth: Option<Authentication>, id: int) returns (r: Result<ReimbursementResponseDto, ServiceError>)
      requires Valid()
      ensures id !in reimbursements.rows ==> r == Err(ResourceNotFound(NotFoundMessage(id)))
      ensures id in reimbursements.rows ==>
        var check := RequirePermissionOn(auth, accounts.rows, ViewSingleReimbursementRequest,
                                         PermissionEvaluator.OnReimbursement(reimbursements.rows[id]));
        (check.Err? ==> r == Err(check.error))
        && (check.Ok? ==> r == Ok(Enriched(reimbursements.rows[id], accounts.rows)))
    {
      var found := reimbursements.FindById(id);
      if found.None? {
        return Err(ResourceNotFound(NotFoundMessage(id)));
      }
      var check := RequirePermissionOn(auth, accounts.rows, ViewSingleReimbursementRequest,
                                       PermissionEvaluator.OnReimbursement(found.value));
      if check.Err? {
        return Err(check.error);
      }
      r := Ok(Enriched(found.value, accounts.rows));
    }

    /**
     * `getMyReimbursements`: needs VIEW_SUBMITTED_REIMBURSEMENT_REQUESTS; then
     * exactly the caller's reimbursements, of the given status when one is
     * given, newest first when none is.
     */
    method GetMyReimbursements(auth: Option<Authentication>, statusFilter: Option<ReimbursementStatus>)
      returns (r: Result<seq<ReimbursementResponseDto>, ServiceError>)
      requires Valid()
      ensures RequirePermission(auth, accounts.rows, ViewSubmittedReimbursementRequests).Err? ==>
        r == Err(RequirePermission(auth, accounts.rows, ViewSubmittedReimbursementRequests).error)
      ensures RequirePermission(auth, accounts.rows, ViewSubmittedReimbursementRequests).Ok? ==>
        r.Ok? && ListsExactly(r.value, reimbursements.rows, accounts.rows,
                              Some(GetCurrentUser(auth, accounts.rows).value.id), statusFilter)
      ensures r.Ok? && statusFilter.None? ==> NewestFirst(r.value)
    {
      var check := RequirePermission(auth, accounts.rows, ViewSubmittedReimbursementRequests);
      if check.Err? {
        return Err(check.error);
      }
      var owner := GetCurrentUser(auth, accounts.rows).value;
      var found;
      if statusFilter.Some? {
        found := reimbursements.FindByUserIdAndStatus(owner.id, statusFilter.value);
      } else {
        found := reimbursements.FindByUserId(owner.id);
      }
      EnrichedListing(found, reimbursements.rows, accounts.rows, Some(owner.id), statusFilter);
      r := Ok(EnrichAll(found, accounts.rows));
    }

    /**
     * `getAllReimbursements`: needs VIEW_ALL_REIMBURSEMENT_REQUESTS; then
     * every reimbursement, of the given status when one is given, newest
     * first when none is.
     */
    method GetAllReimbursements(auth: Option<Authentication>, statusFilter: Option<ReimbursementStatus>)
      returns (r: Result<seq<ReimbursementResponseDto>, ServiceError>)
      requires Valid()
      ensures RequirePermission(auth, accounts.rows, ViewAllReimbursementRequests).Err? ==>
        r == Err(RequirePermission(auth, accounts.rows, ViewAllReimbursementRequests).error)
      ensures RequirePermission(auth, accounts.rows, ViewAllReimbursementRequests).Ok? ==>
        r.Ok? && ListsExactly(r.value, reimbursements.rows, accounts.rows, None, statusFilter)
      ensures r.Ok? && statusFilter.None? ==> NewestFirst(r.value)
    {
      var check := RequirePermission(auth, accounts.rows, ViewAllReimbursementRequests);
      if check.Err? {
        return Err(check.error);
      }
      var found;
      if statusFilter.Some? {
        found := reimbursements.FindByStatus(statusFilter.value);
      } else {
        found := reimbursements.FindAll();
      }
      EnrichedListing(found, reimbursements.rows, accounts.rows, None, statusFilter);
      r := Ok(EnrichAll(found, accounts.rows));
    }

    /**
     * `updateReimbursement`: NotFound for an unknown id, before any
     * permission check; then EDIT_PENDING_REIMBURSEMENT on that
     * reimbursement; then only its description, amount and type change.
     */
    method UpdateReimbursement(auth: Option<Authentication>, id: int, dto: CreateReimbursementDto)
      returns (r: Result<ReimbursementResponseDto, ServiceError>)
      requires Valid() && dto.description.Some? && dto.kind.Some?
      modifies reimbursements
      ensures Valid()
      ensures id !in old(reimbursements.rows) ==>
        r == Err(ResourceNotFound(NotFoundMessage(id))) && reimbursements.rows == old(reimbursements.rows)
      ensures id in old(reimbursements.rows) ==>
        var before := old(reimbursements.rows)[id];
        var check := RequirePermissionOn(auth, accounts.rows, EditPendingReimbursement, PermissionEvaluator.OnReimbursement(before));
        (check.Err? ==> r == Err(check.error) && reimbursements.rows == old(reimbursements.rows))
        && (check.Ok? ==>
              var after := before.(description := dto.description.value, amount := dto.amount, kind := dto.kind.value);
              reimbursements.rows == old(reimbursements.rows)[id := after] && r == Ok(Enriched(after, accounts.rows)))
    {
      var found := reimbursements.FindById(id);
      if found.None? {
        return Err(ResourceNotFound(NotFoundMessage(id)));
      }
      var check := RequirePermissionOn(auth, accounts.rows, EditPendingReimbursement, PermissionEvaluator.OnReimbursement(found.value));
      if check.Err? {
        return Err(check.error);
      }
      var e := new Reimbursement.Loaded(found.value);
      ReimbursementMapper.UpdateEntityFromDto(e, Some(dto));
      var saved := reimbursements.Save(e);
      r := Ok(Enriched(saved, accounts.rows));
    }

    /**
     * `resolveReimbursement`: NotFound for an unknown id; then the current
     * account must exist and be a MANAGER; then the reimbursement must be
     * PENDING; then only its status changes, to the requested one (PENDING
     * included).
     */
    method ResolveReimbursement(auth: Option<Authentication>, id: int, status: ReimbursementStatus)
      returns (r: Result<ReimbursementResponseDto, ServiceError>)
      requires Valid()
      modifies reimbursements
      ensures Valid()
      ensures r.Err? ==> reimbursements.rows == old(reimbursements.rows)
      ensures id !in old(reimbursements.rows) ==> r == Err(ResourceNotFound(NotFoundMessage(id)))
      ensures id in old(reimbursements.rows) && GetCurrentUser(auth, accounts.rows).Err? ==>
        r == Err(GetCurrentUser(auth, accounts.rows).error)
      ensures id in old(reimbursements.rows) && GetCurrentUser(auth, accounts.rows).Ok?
              && GetCurrentUser(auth, accounts.rows).value.role != Manager ==>
        r == Err(Unauthorized(OnlyManagersText))
      ensures id in old(reimbursements.rows) && GetCurrentUser(auth, accounts.rows).Ok?
              && GetCurrentUser(auth, accounts.rows).value.role == Manager
              && old(reimbursements.rows)[id].status != Pending ==>
        r == Err(Validation(NotPendingText))
      ensures id in old(reimbursements.rows) && GetCurrentUser(auth, accounts.rows).Ok?
              && GetCurrentUser(auth, accounts.rows).value.role == Manager
              && old(reimbursements.rows)[id].status == Pending ==>
        var after := old(reimbursements.rows)[id].(status := status);
        reimbursements.rows == old(reimbursements.rows)[id := after] && r == Ok(Enriched(after, accounts.rows))
    {
      var found := reimbursements.FindById(id);
      if found.None? {
        return Err(ResourceNotFound(NotFoundMessage(id)));
      }
      var resolver := GetCurrentUser(auth, accounts.rows);
      if resolver.Err? {
        return Err(resolver.error);
      }
      if resolver.value.role != Manager {
        return Err(Unauthorized(OnlyManagersText));
      }
      if found.value.status != Pending {
        return Err(Validation(NotPendingText));
      }
      var e := new Reimbursement.Loaded(found.value);
      e.SetStatus(status);
      var saved := reimbursements.Save(e);
      r := Ok(Enriched(saved, accounts.rows));
    }
  }

  /** The status filter picks exactly the rows of that status; no filter picks all of them. */
  lemma SelectedByStatus(row: ReimbursementRow, owner: Option<int>, status: ReimbursementStatus)
    ensures Selected(row, owner, Some(status)) <==> Selected(row, owner, None) && row.status == status
  {
  }
}
