/** The external sessions table
    (src/database/repositories/external_session_repository.py). A row keeps
    the `user_id`, `created_at` and `is_active` columns the queries filter and
    sort on, next to the JSON blob the session object is read back from. */
module ExternalSessionRepository {
  import opened Wrappers
  import opened Values
  import opened Listing
  import opened ExternalSessions

  /** A row: the columns the queries read, and the decoded `data` blob. */
  datatype Row = Row(id: int, userId: int, createdAt: Datetime, isActive: bool, data: ExternalSessionData)

  type Table = map<int, Row>

  function RowId(r: Row): int {
    r.id
  }

  function CreatedCol(r: Row): int {
    r.createdAt
  }

  /** `_row_to_session`: the object decoded from the blob, with the row's id. */
  function Loaded(r: Row): ExternalSessionData {
    r.data.(id := Some(r.id))
  }

  predicate TableInvariant(rows: Table, nextId: int) {
    1 <= nextId && forall id :: id in rows ==> 1 <= id < nextId && rows[id].id == id
  }

  /** The columns agree with the blob. `create` establishes this, and the
      read-modify-write operations keep it; a direct `update` keeps it when the
      object keeps the row's owner and creation time. */
  predicate ColumnsAgree(rows: Table) {
    forall id :: id in rows ==>
      && rows[id].userId == rows[id].data.userId
      && rows[id].data.createdAt == Some(rows[id].createdAt)
      && rows[id].isActive == rows[id].data.isActive
  }

  // ---------------------------------------------------------------------
  // `create`

  /** The row `create` inserts under `id`; a missing `created_at` is stamped with `now`. */
  function NewRow(id: int, d: ExternalSessionData, now: Datetime): Row {
    var stamped := d.(createdAt := Some(d.createdAt.GetOr(now)));
    Row(id, d.userId, stamped.createdAt.value, d.isActive, stamped)
  }

  /** The created row reads back as the stamped session with its new id, and
      agrees with its columns. */
  lemma NewRowSpec(id: int, d: ExternalSessionData, now: Datetime)
    ensures Loaded(NewRow(id, d, now)) == d.(id := Some(id), createdAt := Some(d.createdAt.GetOr(now)))
    ensures ColumnsAgree(map[id := NewRow(id, d, now)])
  {
  }

  // ---------------------------------------------------------------------
  // `update`

  /** `update` with a truthy id stamps `updated_at` on the object. */
  function Touched(d: ExternalSessionData, now: Datetime): ExternalSessionData {
    if d.id.None? || d.id.value == 0 then d else d.(updatedAt := Some(now))
  }

  /** The table after `update(d)`: nothing without a truthy id or row;
      otherwise `is_active` and the blob are rewritten. */
  function Rewritten(rows: Table, d: ExternalSessionData, now: Datetime): Table {
    if d.id.None? || d.id.value == 0 || d.id.value !in rows then rows
    else
      var id := d.id.value;
      rows[id := rows[id].(isActive := d.isActive, data := Touched(d, now))]
  }

  /** `update` keeps the keys, the owner and creation columns and every other
      row; the row then reads back as the object with `updated_at` = now. */
  lemma RewrittenSpec(rows: Table, nextId: int, d: ExternalSessionData, now: Datetime)
    requires TableInvariant(rows, nextId)
    ensures var after := Rewritten(rows, d, now);
            && TableInvariant(after, nextId)
            && after.Keys == rows.Keys
            && (forall id :: id in rows ==> after[id].userId == rows[id].userId && after[id].createdAt == rows[id].createdAt)
            && (forall id :: id in rows && Some(id) != d.id ==> after[id] == rows[id])
            && ((d.id.Some? && d.id.value != 0 && d.id.value in rows)
                ==> Loaded(after[d.id.value]) == d.(updatedAt := Some(now)))
  {
  }

  /** An `update` whose object keeps the row's owner and creation time keeps
      the columns in agreement with the blob. */
  lemma RewrittenKeepsColumns(rows: Table, d: ExternalSessionData, now: Datetime)
    requires ColumnsAgree(rows)
    requires d.id.Some? && d.id.value in rows ==>
               d.userId == rows[d.id.value].userId && d.createdAt == Some(rows[d.id.value].createdAt)
    ensures ColumnsAgree(Rewritten(rows, d, now))
  {
    var after := Rewritten(rows, d, now);
    forall id | id in after
      ensures after[id].userId == after[id].data.userId
      ensures after[id].data.createdAt == Some(after[id].createdAt)
      ensures after[id].isActive == after[id].data.isActive
    {
      if Some(id) != d.id {
        assert after[id] == rows[id];
      }
    }
  }

  // ---------------------------------------------------------------------
  // Read-modify-write operations: each loads the object, changes it, and
  // writes it back through `update`.

  /** `add_internal_session` */
  function WithInternal(rows: Table, ext: int, agno: string, now: Datetime): Table {
    if ext !in rows then rows else Rewritten(rows, AddedInternalSession(Loaded(rows[ext]), agno), now)
  }

  /** `set_current_internal_session`: the blob is rewritten only when the id is listed. */
  function WithCurrentInternal(rows: Table, ext: int, agno: string, now: Datetime): Table {
    if ext !in rows then rows
    else
      var (ok, d) := SelectedInternalSession(Loaded(rows[ext]), agno);
      if ok then Rewritten(rows, d, now) else rows
  }

  /** `deactivate`: the object is marked inactive and written back. */
  function Deactivated(rows: Table, id: int, now: Datetime): Table {
    if id !in rows then rows
    else Rewritten(rows, Loaded(rows[id]).(isActive := false, updatedAt := Some(now)), now)
  }

  /** `add_internal_session` on a known session lists the Agno id, makes a new
      id current, leaves an already listed one as it was, keeps the list
      duplicate-free, and touches no other row. */
  lemma WithInternalSpec(rows: Table, nextId: int, ext: int, agno: string, now: Datetime)
    requires TableInvariant(rows, nextId)
    ensures var after := WithInternal(rows, ext, agno, now);
            && TableInvariant(after, nextId)
            && (ext !in rows ==> after == rows)
            && (forall id :: id in rows && id != ext ==> after[id] == rows[id])
            && (ext in rows ==> var before, now' := Loaded(rows[ext]), Loaded(after[ext]);
                 && agno in now'.internalSessionIds
                 && (agno !in before.internalSessionIds ==>
                       now'.internalSessionIds == before.internalSessionIds + [agno] && now'.currentInternalSessionId == Some(agno))
                 && (agno in before.internalSessionIds ==>
                       now'.internalSessionIds == before.internalSessionIds && now'.currentInternalSessionId == before.currentInternalSessionId)
                 && (WellFormed(before) ==> WellFormed(now')))
            && (ColumnsAgree(rows) ==> ColumnsAgree(after))
  {
    if ext in rows {
      var d := AddedInternalSession(Loaded(rows[ext]), agno);
      RewrittenSpec(rows, nextId, d, now);
      if WellFormed(Loaded(rows[ext])) {
        AddKeepsWellFormed(Loaded(rows[ext]), agno);
      }
      if ColumnsAgree(rows) {
        RewrittenKeepsColumns(rows, d, now);
      }
    }
  }

  /** `set_current_internal_session` succeeds iff the session exists and lists
      the id; a failure changes nothing. */
  lemma WithCurrentInternalSpec(rows: Table, nextId: int, ext: int, agno: string, now: Datetime)
    requires TableInvariant(rows, nextId)
    ensures var after := WithCurrentInternal(rows, ext, agno, now);
            && TableInvariant(after, nextId)
            && (ext !in rows || agno !in Loaded(rows[ext]).internalSessionIds ==> after == rows)
            && (forall id :: id in rows && id != ext ==> after[id] == rows[id])
            && ((ext in rows && agno in Loaded(rows[ext]).internalSessionIds) ==>
                  Loaded(after[ext]).currentInternalSessionId == Some(agno)
                  && Loaded(after[ext]).internalSessionIds == Loaded(rows[ext]).internalSessionIds)
            && (ColumnsAgree(rows) ==> ColumnsAgree(after))
  {
    if ext in rows {
      var (ok, d) := SelectedInternalSession(Loaded(rows[ext]), agno);
      if ok {
        RewrittenSpec(rows, nextId, d, now);
        if ColumnsAgree(rows) {
          RewrittenKeepsColumns(rows, d, now);
        }
      }
    }
  }

  /** `deactivate` keeps the row, marked inactive in column and blob, and
      touches no other row. */
  lemma DeactivatedSpec(rows: Table, nextId: int, id: int, now: Datetime)
    requires TableInvariant(rows, nextId)
    ensures var after := Deactivated(rows, id, now);
            && TableInvariant(after, nextId)
            && after.Keys == rows.Keys
            && (forall k :: k in rows && k != id ==> after[k] == rows[k])
            && (id in rows ==> !after[id].isActive && !Loaded(after[id]).isActive
                               && Loaded(after[id]) == Loaded(rows[id]).(isActive := false, updatedAt := Some(now)))
            && (ColumnsAgree(rows) ==> ColumnsAgree(after))
  {
    if id in rows {
      var d := Loaded(rows[id]).(isActive := false, updatedAt := Some(now));
      RewrittenSpec(rows, nextId, d, now);
      if ColumnsAgree(rows) {
        RewrittenKeepsColumns(rows, d, now);
      }
    }
  }

  // ---------------------------------------------------------------------
  // Queries

  predicate OwnedBy(r: Row, user: int, activeOnly: bool) {
    r.userId == user && (!activeOnly || r.isActive)
  }

  function UserSelector(user: int, activeOnly: bool): Row -> bool {
    r => OwnedBy(r, user, activeOnly)
  }

  function Loads(q: seq<Row>): (r: seq<ExternalSessionData>)
    ensures |r| == |q| && forall i :: 0 <= i < |q| ==> r[i] == Loaded(q[i])
  {
    seq(|q|, i requires 0 <= i < |q| => Loaded(q[i]))
  }

  /** The rows behind `get_user_sessions`: `WHERE user_id = ? [AND is_active = 1] ORDER BY created_at DESC`. */
  function UserRows(rows: Table, nextId: int, user: int, activeOnly: bool): seq<Row> {
    Query(rows, nextId, UserSelector(user, activeOnly), CreatedCol)
  }

  /** `get_user_sessions` holds each of the user's (active) sessions once,
      read back from its row, newest first, and `count_user_sessions` is its length. */
  lemma UserSessionsSpec(rows: Table, nextId: int, user: int, activeOnly: bool)
    requires TableInvariant(rows, nextId)
    ensures var q := UserRows(rows, nextId, user, activeOnly);
            && SortedDesc(q, CreatedCol)
            && (forall i :: 0 <= i < |q| ==> q[i].id in rows && rows[q[i].id] == q[i] && OwnedBy(q[i], user, activeOnly))
            && IdSet(q, RowId) == (set id | id in rows && OwnedBy(rows[id], user, activeOnly))
            && |IdSet(q, RowId)| == |q|
            && Count(RowsById(rows, nextId), UserSelector(user, activeOnly)) == |Loads(q)|
  {
    QuerySound(rows, nextId, UserSelector(user, activeOnly), CreatedCol, RowId);
    QueryIds(rows, nextId, UserSelector(user, activeOnly), CreatedCol, RowId);
    QueryDistinct(rows, nextId, UserSelector(user, activeOnly), CreatedCol, RowId);
    QueryCount(rows, nextId, UserSelector(user, activeOnly), CreatedCol);
  }

  function ListsSelector(agno: string): Row -> bool {
    (r: Row) => agno in r.data.internalSessionIds
  }

  /** `get_by_internal_session`: the first row whose list holds the Agno id. */
  function ContainingRow(rows: Table, nextId: int, agno: string): Option<ExternalSessionData> {
    var found := Filter(RowsById(rows, nextId), ListsSelector(agno));
    if found == [] then None else Some(Loaded(found[0]))
  }

  /** None iff no session lists the Agno id; otherwise a stored session that does. */
  lemma ContainingRowSpec(rows: Table, nextId: int, agno: string)
    requires TableInvariant(rows, nextId)
    ensures var r := ContainingRow(rows, nextId, agno);
            && (r.None? <==> forall id :: id in rows ==> agno !in rows[id].data.internalSessionIds)
            && (r.Some? ==> agno in r.value.internalSessionIds && r.value.id.Some?
                            && r.value.id.value in rows && Loaded(rows[r.value.id.value]) == r.value)
  {
    var all := RowsById(rows, nextId);
    var found := Filter(all, ListsSelector(agno));
    RowsByIdKeyed(rows, nextId, RowId);
    KeyedWithin(all, found, rows, RowId);
    forall id | id in rows && agno in rows[id].data.internalSessionIds ensures found != [] {
      var k :| 0 <= k < |all| && all[k] == rows[id];
      assert rows[id] in found;
    }
  }

  /** `check_ownership` reads the `user_id` column; while the columns agree
      with the blobs, that is the owner `get_by_id` reports. */
  lemma OwnershipSpec(rows: Table, id: int, user: int)
    requires ColumnsAgree(rows)
    ensures (id in rows && rows[id].userId == user) <==> (id in rows && Loaded(rows[id]).userId == user)
  {
  }

  /** The external sessions table. */
  class ExternalSessionRepository {
    var rows: Table
    var nextId: int

    predicate Valid()
      reads this
    {
      TableInvariant(rows, nextId)
    }

    constructor ()
      ensures Valid() && rows == map[] && nextId == 1
    {
      rows := map[];
      nextId := 1;
    }

    /** `create`: stamps a missing `created_at`, inserts the row and writes the
        new id into the object, which `get_by_id` then returns. */
    method Create(session: ExternalSession, now: Datetime)
      requires Valid()
      modifies this, session
      ensures Valid()
      ensures rows == old(rows)[old(nextId) := NewRow(old(nextId), old(session.Data()), now)]
      ensures nextId == old(nextId) + 1 && old(nextId) !in old(rows)
      ensures session.Data() == old(session.Data()).(id := Some(old(nextId)), createdAt := Some(old(session.createdAt).GetOr(now)))
      ensures GetById(old(nextId)) == Some(session.Data())
      ensures ColumnsAgree(old(rows)) ==> ColumnsAgree(rows)
    {
      ghost var d := session.Data();
      NewRowSpec(nextId, d, now);
      if session.createdAt.None? {
        session.createdAt := Some(now);
      }
      var row := NewRow(nextId, session.Data(), now);
      assert row == NewRow(nextId, d, now);
      rows := rows[nextId := row];
      session.id := Some(nextId);
      nextId := nextId + 1;
    }

    /** `update`: False without a truthy id; otherwise stamps `updated_at` on
        the object and rewrites the row, True iff it exists. */
    method Update(session: ExternalSession, now: Datetime) returns (ok: bool)
      requires Valid()
      modifies this, session
      ensures Valid()
      ensures ok <==> old(session.id).Some? && old(session.id).value != 0 && old(session.id).value in old(rows)
      ensures session.Data() == Touched(old(session.Data()), now)
      ensures rows == Rewritten(old(rows), old(session.Data()), now) && nextId == old(nextId)
    {
      RewrittenSpec(rows, nextId, session.Data(), now);
      if session.id.None? || session.id.value == 0 {
        return false;
      }
      session.updatedAt := Some(now);
      var id := session.id.value;
      ok := id in rows;
      if ok {
        rows := rows[id := rows[id].(isActive := session.isActive, data := session.Data())];
      }
    }

    /** `get_by_id` */
    function GetById(id: int): Option<ExternalSessionData>
      reads this
    {
      if id in rows then Some(Loaded(rows[id])) else None
    }

    /** `add_internal_session`: False for an unknown session; otherwise the
        loaded object adds the id and is written back. */
    method AddInternalSession(ext: int, agno: string, now: Datetime) returns (ok: bool)
      requires Valid()
      modifies this
      ensures Valid()
      ensures ok <==> ext in old(rows)
      ensures rows == WithInternal(old(rows), ext, agno, now) && nextId == old(nextId)
    {
      if ext !in rows {
        return false;
      }
      var session := new ExternalSession(Loaded(rows[ext]));
      session.AddInternalSession(agno);
      ok := Update(session, now);
    }

    /** `set_current_internal_session`: False for an unknown session or an
        unlisted id, and then nothing is written. */
    method SetCurrentInternalSession(ext: int, agno: string, now: Datetime) returns (ok: bool)
      requires Valid()
      modifies this
      ensures Valid()
      ensures ok <==> ext in old(rows) && agno in Loaded(old(rows)[ext]).internalSessionIds
      ensures rows == WithCurrentInternal(old(rows), ext, agno, now) && nextId == old(nextId)
    {
      if ext !in rows {
        return false;
      }
      var session := new ExternalSession(Loaded(rows[ext]));
      var listed := session.SetCurrentInternalSession(agno);
      if listed {
        ok := Update(session, now);
      } else {
        ok := false;
      }
    }

    /** `deactivate`: a soft delete that keeps the row. */
    method Deactivate(id: int, now: Datetime) returns (ok: bool)
      requires Valid()
      modifies this
      ensures Valid()
      ensures ok <==> id in old(rows)
      ensures rows == Deactivated(old(rows), id, now) && nextId == old(nextId)
    {
      if id !in rows {
        return false;
      }
      var session := new ExternalSession(Loaded(rows[id]));
      session.isActive := false;
      session.updatedAt := Some(now);
      ok := Update(session, now);
    }

    /** `delete`: True iff the row existed; afterwards `get_by_id` finds nothing
        and no other row changes. Internal sessions and checkpoints are not
        deleted with it. */
    method Delete(id: int) returns (deleted: bool)
      requires Valid()
      modifies this
      ensures Valid()
      ensures deleted <==> id in old(rows)
      ensures rows == old(rows) - {id} && nextId == old(nextId)
      ensures GetById(id) == None
    {
      deleted := id in rows;
      rows := rows - {id};
    }

    /** `check_ownership` */
    function CheckOwnership(id: int, user: int): bool
      reads this
    {
      id in rows && rows[id].userId == user
    }

    /** `get_user_sessions` */
    function GetUserSessions(user: int, activeOnly: bool): seq<ExternalSessionData>
      reads this
    {
      Loads(UserRows(rows, nextId, user, activeOnly))
    }

    /** `count_user_sessions` */
    function CountUserSessions(user: int, activeOnly: bool): nat
      reads this
    {
      Count(RowsById(rows, nextId), UserSelector(user, activeOnly))
    }

    /** `get_by_internal_session` */
    function GetByInternalSession(agno: string): Option<ExternalSessionData>
      reads this
    {
      ContainingRow(rows, nextId, agno)
    }
  }
}
