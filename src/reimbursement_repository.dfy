/**
 * The reimbursement table behind `ReimbursementRepository`: rows keyed by
 * their generated id. `findAll` and `findByUserId` are ordered by id
 * descending (their queries say ORDER BY id DESC); the status-filtered
 * queries promise no order.
 */
module ReimbursementRepository {
  import opened Common
  import opened ReimbursementEntity

  predicate WellKeyed(rows: map<int, ReimbursementRow>)
  {
    forall i :: i in rows ==> rows[i].id == i
  }

  /** Strictly decreasing ids, so also no row twice. */
  predicate IdsDescending(s: seq<ReimbursementRow>)
  {
    forall i, j :: 0 <= i < j < |s| ==> s[i].id > s[j].id
  }

  predicate IsMax(s: set<int>, m: int)
  {
    m in s && forall k :: k in s ==> k <= m
  }

  /** Every finite non-empty set of ids has a largest one. */
  lemma {:induction false} MaxExists(s: set<int>)
    requires s != {}
    ensures exists m :: IsMax(s, m)
    decreases |s|
  {
    if forall j :: j !in s {
      assert false;
    }
    var x :| x in s;
    if s == {x} {
      assert IsMax(s, x);
    } else {
      var rest := s - {x};
      MaxExists(rest);
      var m :| IsMax(rest, m);
      var top := if x <= m then m else x;
      forall k | k in s ensures k <= top {
        if k != x {
          assert k in rest;
        }
      }
      assert IsMax(s, top);
    }
  }

  class ReimbursementRepository {
    var rows: map<int, ReimbursementRow>
    /** The next value of the id sequence. */
    var nextId: int

    ghost predicate Valid()
      reads this
    {
      WellKeyed(rows) && forall i :: i in rows ==> i < nextId
    }

    constructor ()
      ensures Valid() && rows == map[]
    {
      rows := map[];
      nextId := 1;
    }

    method FindById(id: int) returns (r: Option<ReimbursementRow>)
      requires Valid()
      ensures r.Some? <==> id in rows
      ensures r.Some? ==> r.value == rows[id] && r.value.id == id
    {
      r := if id in rows then Some(rows[id]) else None;
    }

    /** The rows satisfying `keep`, each once, largest id first. */
    method Select(keep: ReimbursementRow -> bool) returns (found: seq<ReimbursementRow>)
      requires Valid()
      ensures forall row :: row in found <==> row in rows.Values && keep(row)
      ensures IdsDescending(found)
    {
      found := [];
      var left := set k | k in rows && keep(rows[k]);
      while left != {}
        invariant forall k :: k in left ==> k in rows && keep(rows[k])
        invariant forall k :: k in rows && keep(rows[k]) && k !in left ==> rows[k] in found
        invariant forall i :: 0 <= i < |found| ==>
          found[i].id in rows && rows[found[i].id] == found[i] && keep(found[i]) && found[i].id !in left
        invariant forall i, k :: 0 <= i < |found| && k in left ==> found[i].id > k
        invariant IdsDescending(found)
        decreases left
      {
        MaxExists(left);
        var m :| IsMax(left, m);
        found := found + [rows[m]];
        left := left - {m};
      }
      forall row | row in rows.Values && keep(row) ensures row in found {
        if forall k :: k in rows ==> rows[k] != row {
          assert false;
        }
      }
    }

    /** `findAll`: every row, ordered by id descending. */
    method FindAll() returns (found: seq<ReimbursementRow>)
      requires Valid()
      ensures forall row :: row in found <==> row in rows.Values
      ensures IdsDescending(found)
    {
      found := Select((row: ReimbursementRow) => true);
    }

    /** `findByUserId`: the owner's rows, ordered by id descending. */
    method FindByUserId(userId: int) returns (found: seq<ReimbursementRow>)
      requires Valid()
      ensures forall row :: row in found <==> row in rows.Values && row.userId == userId
      ensures IdsDescending(found)
    {
      found := Select((row: ReimbursementRow) => row.userId == userId);
    }

    /** `findByStatus`: the rows with that status, each once, in no promised order. */
    method FindByStatus(status: ReimbursementStatus) returns (found: seq<ReimbursementRow>)
      requires Valid()
      ensures forall row :: row in found <==> row in rows.Values && row.status == status
      ensures forall i, j :: 0 <= i < j < |found| ==> found[i].id != found[j].id
    {
      found := Select((row: ReimbursementRow) => row.status == status);
    }

    /** `findByUserIdAndStatus`: the owner's rows with that status, each once, in no promised order. */
    method FindByUserIdAndStatus(userId: int, status: ReimbursementStatus) returns (found: seq<ReimbursementRow>)
      requires Valid()
      ensures forall row :: row in found <==> row in rows.Values && row.userId == userId && row.status == status
      ensures forall i, j :: 0 <= i < j < |found| ==> found[i].id != found[j].id
    {
      found := Select((row: ReimbursementRow) => row.userId == userId && row.status == status);
    }

    /**
     * `save`: an entity without an id gets the next id of the sequence and is
     * inserted; one with an id overwrites its row.
     */
    method Save(e: Reimbursement) returns (row: ReimbursementRow)
      requires Valid() && e.Persistable()
      requires e.id.Some? ==> e.id.value in rows
      modifies this, e
      ensures Valid()
      ensures e.Persistable() && e.id == Some(row.id) && row == e.Row(row.id)
      ensures old(e.id).None? ==> row.id == old(nextId) && row.id !in old(rows)
      ensures old(e.id).Some? ==> Some(row.id) == old(e.id)
      ensures e.userId == old(e.userId) && e.description == old(e.description)
      ensures e.amount == old(e.amount) && e.kind == old(e.kind) && e.status == old(e.status)
      ensures rows == old(rows)[row.id := row]
    {
      if e.id.None? {
        e.SetId(nextId);
        nextId := nextId + 1;
      }
      row := e.Row(e.id.value);
      rows := rows[row.id := row];
    }
  }
}
