/** The internal sessions table
    (src/database/repositories/internal_session_repository.py): rows keyed by
    an AUTOINCREMENT id with a UNIQUE Agno session id, and the `is_current`
    flag that marks the active line of conversation of each external session. */
module InternalSessionRepository {
  import opened Wrappers
  import opened Values
  import opened Listing
  import opened InternalSessions

  type Table = map<int, InternalSessionData>

  /** The message SQLite raises when an Agno session id is inserted twice. */
  const DuplicateAgnoId := "UNIQUE constraint failed: internal_sessions.agno_session_id"

  function IdOf(s: InternalSessionData): int {
    s.id.GetOr(0)
  }

  function CreatedOf(s: InternalSessionData): int {
    s.createdAt.GetOr(0)
  }

  /** Every row carries its own key and a creation time, keys lie below the
      next id, and no two rows share an Agno session id. */
  predicate TableInvariant(rows: Table, nextId: int) {
    && 1 <= nextId
    && (forall id :: id in rows ==> 1 <= id < nextId && rows[id].id == Some(id) && rows[id].createdAt.Some?)
    && (forall a, b :: a in rows && b in rows && rows[a].agnoSessionId == rows[b].agnoSessionId ==> a == b)
  }

  /** At most one internal session of each external session is current. */
  predicate OneCurrentPerParent(rows: Table) {
    forall a, b ::
      (a in rows && b in rows && rows[a].isCurrent && rows[b].isCurrent
       && rows[a].externalSessionId == rows[b].externalSessionId) ==> a == b
  }

  /** `id` is the current session of `ext`, and no other session of `ext` is. */
  predicate OnlyCurrent(rows: Table, ext: int, id: int) {
    forall k :: k in rows && rows[k].externalSessionId == ext ==> (rows[k].isCurrent <==> k == id)
  }

  /** `a` holds the same rows as `b` up to the columns the invariants do not read. */
  predicate SameIdentity(a: Table, b: Table) {
    && a.Keys == b.Keys
    && forall id :: id in a ==>
         && a[id].id == b[id].id && a[id].agnoSessionId == b[id].agnoSessionId
         && a[id].createdAt == b[id].createdAt && a[id].externalSessionId == b[id].externalSessionId
  }

  lemma SameIdentityKeepsInvariant(a: Table, b: Table, nextId: int)
    requires SameIdentity(a, b) && TableInvariant(b, nextId)
    ensures TableInvariant(a, nextId)
  {
    forall x, y | x in a && y in a && a[x].agnoSessionId == a[y].agnoSessionId ensures x == y {
      assert b[x].agnoSessionId == b[y].agnoSessionId;
    }
  }

  /** A table whose flags only go down from a table with one current session
      per parent (except possibly for a parent with a single current session)
      has one current session per parent. */
  lemma FewerCurrentKeepsOne(a: Table, b: Table, ext: int, id: int)
    requires SameIdentity(a, b) && OneCurrentPerParent(b)
    requires forall k :: k in a && a[k].externalSessionId != ext && a[k].isCurrent ==> b[k].isCurrent
    requires OnlyCurrent(a, ext, id) || forall k :: k in a && a[k].isCurrent ==> b[k].isCurrent
    ensures OneCurrentPerParent(a)
  {
    forall x, y | x in a && y in a && a[x].isCurrent && a[y].isCurrent && a[x].externalSessionId == a[y].externalSessionId
      ensures x == y
    {
      if a[x].externalSessionId != ext || !OnlyCurrent(a, ext, id) {
        assert b[x].isCurrent && b[y].isCurrent;
      }
    }
  }

  /** Inserting a row under a fresh id with an unused Agno id keeps the table
      invariant; a current row keeps one current session per parent when none
      of its siblings is current. */
  lemma InsertKeepsInvariants(t: Table, nextId: int, row: InternalSessionData)
    requires TableInvariant(t, nextId) && !AgnoTaken(t, row.agnoSessionId)
    requires row.id == Some(nextId) && row.createdAt.Some?
    ensures TableInvariant(t[nextId := row], nextId + 1)
    ensures OneCurrentPerParent(t) && (row.isCurrent ==> forall k :: k in t && t[k].externalSessionId == row.externalSessionId ==> !t[k].isCurrent)
            ==> OneCurrentPerParent(t[nextId := row])
  {
    var after := t[nextId := row];
    forall x, y | x in after && y in after && after[x].agnoSessionId == after[y].agnoSessionId ensures x == y {
      if x != nextId && y != nextId {
        assert t[x].agnoSessionId == t[y].agnoSessionId;
      }
    }
  }

  // ---------------------------------------------------------------------
  // `_mark_all_not_current`

  /** `UPDATE ... SET is_current = 0 WHERE external_session_id = ext`, with
      `AND id != exclude` when `exclude` is truthy (neither None nor 0). */
  function Demoted(rows: Table, ext: int, exclude: Option<int>): Table {
    map id | id in rows :: if Spared(rows[id], ext, exclude, id) then rows[id] else rows[id].(isCurrent := false)
  }

  predicate Spared(row: InternalSessionData, ext: int, exclude: Option<int>, id: int) {
    row.externalSessionId != ext || (exclude.Some? && exclude.value != 0 && id == exclude.value)
  }

  /** Demotion clears the flag of every session of `ext` except the excluded
      one, changes nothing else, and leaves other external sessions alone. */
  lemma DemotedSpec(rows: Table, ext: int, exclude: Option<int>)
    ensures var r := Demoted(rows, ext, exclude);
            && r.Keys == rows.Keys
            && (forall id :: id in rows && rows[id].externalSessionId != ext ==> r[id] == rows[id])
            && (forall id :: id in rows && exclude == Some(id) && id != 0 ==> r[id] == rows[id])
            && (forall id :: id in rows && rows[id].externalSessionId == ext && (exclude != Some(id) || id == 0)
                  ==> r[id] == rows[id].(isCurrent := false))
  {
    var r := Demoted(rows, ext, exclude);
    assert r.Keys == rows.Keys;
  }

  /** Demotion only lowers flags. */
  lemma DemotedIdentity(rows: Table, ext: int, exclude: Option<int>)
    ensures SameIdentity(Demoted(rows, ext, exclude), rows)
    ensures forall k :: k in Demoted(rows, ext, exclude) && Demoted(rows, ext, exclude)[k].isCurrent ==> rows[k].isCurrent
  {
    DemotedSpec(rows, ext, exclude);
  }

  /** Demotion keeps the table invariant and never creates a second current session. */
  lemma DemotedKeepsInvariants(rows: Table, nextId: int, ext: int, exclude: Option<int>)
    requires TableInvariant(rows, nextId)
    ensures TableInvariant(Demoted(rows, ext, exclude), nextId)
    ensures OneCurrentPerParent(rows) ==> OneCurrentPerParent(Demoted(rows, ext, exclude))
  {
    DemotedIdentity(rows, ext, exclude);
    SameIdentityKeepsInvariant(Demoted(rows, ext, exclude), rows, nextId);
    if OneCurrentPerParent(rows) {
      FewerCurrentKeepsOne(Demoted(rows, ext, exclude), rows, ext, 0);
    }
  }

  /** Demoting a whole external session and then making one of its rows current
      leaves that row the only current session of its parent. */
  lemma PromotedIsOnlyCurrent(rows: Table, ext: int, id: int, row: InternalSessionData)
    requires row.externalSessionId == ext && row.isCurrent
    ensures OnlyCurrent(Demoted(rows, ext, None)[id := row], ext, id)
  {
    DemotedSpec(rows, ext, None);
  }

  // ---------------------------------------------------------------------
  // `create`

  /** `create` demotes the siblings first, and only when the new session is current. */
  function BeforeInsert(rows: Table, s: InternalSessionData): Table {
    if s.isCurrent then Demoted(rows, s.externalSessionId, None) else rows
  }

  predicate AgnoTaken(rows: Table, agno: string) {
    exists id :: id in rows && rows[id].agnoSessionId == agno
  }

  lemma SameIdentityAgnoTaken(a: Table, b: Table, agno: string)
    requires SameIdentity(a, b)
    ensures AgnoTaken(a, agno) <==> AgnoTaken(b, agno)
  {
    if AgnoTaken(a, agno) {
      var id :| id in a && a[id].agnoSessionId == agno;
      assert b[id].agnoSessionId == agno;
    }
    if AgnoTaken(b, agno) {
      var id :| id in b && b[id].agnoSessionId == agno;
      assert a[id].agnoSessionId == agno;
    }
  }

  /** What `create` stores, or the constraint error when the Agno id is taken.
      A missing `created_at` is stamped with `now`. */
  function Inserted(rows: Table, nextId: int, s: InternalSessionData, now: Datetime): Result<InternalSessionData, string> {
    if AgnoTaken(rows, s.agnoSessionId) then Err(DuplicateAgnoId)
    else Ok(s.(id := Some(nextId), createdAt := Some(s.createdAt.GetOr(now))))
  }

  /** The demotion step of `create` keeps the invariants and the Agno ids. */
  lemma BeforeInsertSpec(rows: Table, nextId: int, s: InternalSessionData)
    requires TableInvariant(rows, nextId)
    ensures TableInvariant(BeforeInsert(rows, s), nextId)
    ensures OneCurrentPerParent(rows) ==> OneCurrentPerParent(BeforeInsert(rows, s))
    ensures AgnoTaken(BeforeInsert(rows, s), s.agnoSessionId) <==> AgnoTaken(rows, s.agnoSessionId)
    ensures s.isCurrent ==> forall id :: id in rows && rows[id].externalSessionId == s.externalSessionId
                                         ==> !BeforeInsert(rows, s)[id].isCurrent
    ensures !s.isCurrent ==> BeforeInsert(rows, s) == rows
  {
    if s.isCurrent {
      DemotedKeepsInvariants(rows, nextId, s.externalSessionId, None);
      DemotedIdentity(rows, s.externalSessionId, None);
      SameIdentityAgnoTaken(BeforeInsert(rows, s), rows, s.agnoSessionId);
      DemotedSpec(rows, s.externalSessionId, None);
    }
  }

  /** After a successful `create`: the invariants still hold, and a current
      new session is the only current session of its parent. */
  lemma CreateSpec(rows: Table, nextId: int, s: InternalSessionData, now: Datetime)
    requires TableInvariant(rows, nextId)
    requires Inserted(rows, nextId, s, now).Ok?
    ensures var after := BeforeInsert(rows, s)[nextId := Inserted(rows, nextId, s, now).value];
            && TableInvariant(after, nextId + 1)
            && (OneCurrentPerParent(rows) ==> OneCurrentPerParent(after))
            && (s.isCurrent ==> OnlyCurrent(after, s.externalSessionId, nextId))
  {
    var stored := Inserted(rows, nextId, s, now).value;
    var before := BeforeInsert(rows, s);
    BeforeInsertSpec(rows, nextId, s);
    InsertKeepsInvariants(before, nextId, stored);
    if s.isCurrent {
      PromotedIsOnlyCurrent(rows, s.externalSessionId, nextId, stored);
    }
  }

  // ---------------------------------------------------------------------
  // `update`

  /** `UPDATE ... SET state_data, conversation_history, is_current, checkpoint_count WHERE id = ?` */
  function Rewritten(row: InternalSessionData, s: InternalSessionData): InternalSessionData {
    row.(sessionState := s.sessionState, history := s.history, isCurrent := s.isCurrent,
         checkpointCount := s.checkpointCount)
  }

  /** The demotion step of `update`: siblings of a current session, sparing the session itself. */
  function BeforeRewrite(rows: Table, s: InternalSessionData): Table {
    if s.isCurrent then Demoted(rows, s.externalSessionId, s.id) else rows
  }

  /** The table after `update(s)`: nothing when `s` has no truthy id; otherwise
      the demotion of the siblings (when current) and then the row rewrite. */
  function UpdatedRows(rows: Table, s: InternalSessionData): Table {
    if s.id.None? || s.id.value == 0 then rows
    else
      var demoted := BeforeRewrite(rows, s);
      var id := s.id.value;
      if id in demoted then demoted[id := Rewritten(demoted[id], s)] else demoted
  }

  /** `update` keeps the keys and the table invariant, writes the four columns
      of its row, and leaves rows of other external sessions alone. */
  lemma UpdateSpec(rows: Table, nextId: int, s: InternalSessionData)
    requires TableInvariant(rows, nextId)
    ensures var after := UpdatedRows(rows, s);
            && TableInvariant(after, nextId)
            && SameIdentity(after, rows)
            && (s.id.None? || s.id == Some(0) ==> after == rows)
            && (forall id :: id in rows && rows[id].externalSessionId != s.externalSessionId && Some(id) != s.id
                  ==> after[id] == rows[id])
            && (s.id.Some? && s.id.value in rows ==> after[s.id.value] == Rewritten(rows[s.id.value], s))
  {
    if s.id.Some? && s.id.value != 0 {
      var before := BeforeRewrite(rows, s);
      var after := UpdatedRows(rows, s);
      if s.isCurrent {
        DemotedSpec(rows, s.externalSessionId, s.id);
      }
      assert SameIdentity(before, rows);
      assert SameIdentity(after, rows);
      SameIdentityKeepsInvariant(after, rows, nextId);
    }
  }

  /** An `update` that marks a session current, when the object's parent is
      the row's, leaves it the only current session of that parent and keeps
      at most one current session per parent. */
  lemma UpdateKeepsOneCurrent(rows: Table, nextId: int, s: InternalSessionData)
    requires TableInvariant(rows, nextId)
    requires s.id.Some? && s.id.value != 0 && s.id.value in rows
    requires rows[s.id.value].externalSessionId == s.externalSessionId
    ensures s.isCurrent ==> OnlyCurrent(UpdatedRows(rows, s), s.externalSessionId, s.id.value)
    ensures OneCurrentPerParent(rows) ==> OneCurrentPerParent(UpdatedRows(rows, s))
  {
    var id := s.id.value;
    var after := UpdatedRows(rows, s);
    UpdateSpec(rows, nextId, s);
    if s.isCurrent {
      DemotedSpec(rows, s.externalSessionId, s.id);
      assert OnlyCurrent(after, s.externalSessionId, id);
    }
    if OneCurrentPerParent(rows) {
      FewerCurrentKeepsOne(after, rows, s.externalSessionId, id);
    }
  }

  // ---------------------------------------------------------------------
  // `set_current_session`

  /** The table after `set_current_session(id)`: unchanged for an unknown id,
      otherwise every sibling demoted and the target made current. */
  function WithCurrent(rows: Table, id: int): Table {
    if id !in rows then rows
    else Demoted(rows, rows[id].externalSessionId, None)[id := rows[id].(isCurrent := true)]
  }

  /** After `set_current_session` of a known id, exactly that session is current
      among its siblings, the invariants still hold, and only flags of that
      parent's sessions change. */
  lemma SetCurrentSpec(rows: Table, nextId: int, id: int)
    requires TableInvariant(rows, nextId)
    ensures var after := WithCurrent(rows, id);
            && TableInvariant(after, nextId)
            && SameIdentity(after, rows)
            && (id in rows ==> OnlyCurrent(after, rows[id].externalSessionId, id))
            && (OneCurrentPerParent(rows) ==> OneCurrentPerParent(after))
            && (forall k :: k in rows && (id !in rows || rows[k].externalSessionId != rows[id].externalSessionId)
                  ==> after[k] == rows[k])
            && (forall k :: k in rows ==> after[k] == rows[k].(isCurrent := after[k].isCurrent))
  {
    if id in rows {
      var ext := rows[id].externalSessionId;
      var after := WithCurrent(rows, id);
      DemotedSpec(rows, ext, None);
      PromotedIsOnlyCurrent(rows, ext, id, rows[id].(isCurrent := true));
      assert SameIdentity(after, rows);
      SameIdentityKeepsInvariant(after, rows, nextId);
      if OneCurrentPerParent(rows) {
        FewerCurrentKeepsOne(after, rows, ext, id);
      }
    }
  }

  // ---------------------------------------------------------------------
  // Queries

  predicate Matches(s: InternalSessionData, ext: int) {
    s.externalSessionId == ext
  }

  function ParentSelector(ext: int): InternalSessionData -> bool {
    s => Matches(s, ext)
  }

  function CurrentSelector(ext: int): InternalSessionData -> bool {
    (s: InternalSessionData) => s.externalSessionId == ext && s.isCurrent
  }

  function AgnoSelector(agno: string): InternalSessionData -> bool {
    (s: InternalSessionData) => s.agnoSessionId == agno
  }

  /** `get_by_external_session`: `WHERE external_session_id = ? ORDER BY created_at DESC`. */
  function Listed(rows: Table, nextId: int, ext: int): seq<InternalSessionData> {
    Query(rows, nextId, ParentSelector(ext), CreatedOf)
  }

  /** The listing holds every session of the parent exactly once, no other
      row, newest first; `count_sessions` is its length. */
  lemma ListedSpec(rows: Table, nextId: int, ext: int)
    requires TableInvariant(rows, nextId)
    ensures var r := Listed(rows, nextId, ext);
            && SortedDesc(r, CreatedOf)
            && (forall i :: 0 <= i < |r| ==> IdOf(r[i]) in rows && rows[IdOf(r[i])] == r[i] && r[i].externalSessionId == ext)
            && IdSet(r, IdOf) == (set id | id in rows && rows[id].externalSessionId == ext)
            && |IdSet(r, IdOf)| == |r|
            && Count(RowsById(rows, nextId), ParentSelector(ext)) == |r|
  {
    QuerySound(rows, nextId, ParentSelector(ext), CreatedOf, IdOf);
    QueryIds(rows, nextId, ParentSelector(ext), CreatedOf, IdOf);
    QueryDistinct(rows, nextId, ParentSelector(ext), CreatedOf, IdOf);
    QueryCount(rows, nextId, ParentSelector(ext), CreatedOf);
  }

  /** The first row in id order satisfying `p` (a `fetchone` without `ORDER BY`). */
  function FirstWhere(rows: Table, nextId: int, p: InternalSessionData -> bool): Option<InternalSessionData> {
    var found := Filter(RowsById(rows, nextId), p);
    if found == [] then None else Some(found[0])
  }

  /** `fetchone` finds nothing iff no row satisfies `p`; otherwise a row that does. */
  lemma FirstWhereSpec(rows: Table, nextId: int, p: InternalSessionData -> bool)
    requires TableInvariant(rows, nextId)
    ensures var r := FirstWhere(rows, nextId, p);
            && (r.None? <==> forall id :: id in rows ==> !p(rows[id]))
            && (r.Some? ==> IdOf(r.value) in rows && rows[IdOf(r.value)] == r.value && p(r.value))
  {
    var all := RowsById(rows, nextId);
    var found := Filter(all, p);
    RowsByIdKeyed(rows, nextId, IdOf);
    KeyedWithin(all, found, rows, IdOf);
    forall id | id in rows && p(rows[id]) ensures found != [] {
      var k :| 0 <= k < |all| && all[k] == rows[id];
      assert rows[id] in found;
    }
  }

  /** `get_current_session`: the current session of the parent, which is the
      only one when at most one per parent is current. */
  lemma CurrentSessionSpec(rows: Table, nextId: int, ext: int)
    requires TableInvariant(rows, nextId)
    ensures var r := FirstWhere(rows, nextId, CurrentSelector(ext));
            && (r.None? <==> forall id :: id in rows && rows[id].externalSessionId == ext ==> !rows[id].isCurrent)
            && (r.Some? ==> IdOf(r.value) in rows && r.value.externalSessionId == ext && r.value.isCurrent)
            && (r.Some? && OneCurrentPerParent(rows) ==> OnlyCurrent(rows, ext, IdOf(r.value)))
  {
    FirstWhereSpec(rows, nextId, CurrentSelector(ext));
  }

  /** `get_by_agno_session_id`: the unique row with that Agno id, or None. */
  lemma ByAgnoSpec(rows: Table, nextId: int, agno: string)
    requires TableInvariant(rows, nextId)
    ensures var r := FirstWhere(rows, nextId, AgnoSelector(agno));
            && (r.None? <==> !AgnoTaken(rows, agno))
            && (r.Some? ==> forall id :: id in rows && rows[id].agnoSessionId == agno ==> rows[id] == r.value)
  {
    FirstWhereSpec(rows, nextId, AgnoSelector(agno));
  }

  /** The internal sessions table. */
  class InternalSessionRepository {
    var rows: Table
    var nextId: int

    predicate Valid()
      reads this
    {
      TableInvariant(rows, nextId)
    }

    constructor ()
      ensures Valid() && rows == map[] && nextId == 1
    {
      rows := map[];
      nextId := 1;
    }

    /** `_mark_all_not_current` */
    method MarkAllNotCurrent(ext: int, exclude: Option<int>)
      requires Valid()
      modifies this
      ensures Valid()
      ensures rows == Demoted(old(rows), ext, exclude) && nextId == old(nextId)
    {
      DemotedKeepsInvariants(rows, nextId, ext, exclude);
      rows := Demoted(rows, ext, exclude);
    }

    /** `create`: stamps a missing `created_at` on the object, demotes the
        siblings of a current session, then inserts the row and writes the
        new id back into the object, or fails on a duplicate Agno id. */
    method Create(session: InternalSession, now: Datetime) returns (r: Result<InternalSessionData, string>)
      requires Valid()
      modifies this, session
      ensures Valid()
      ensures r == Inserted(old(rows), old(nextId), old(session.Data()), now)
      ensures r.Ok? ==> rows == BeforeInsert(old(rows), old(session.Data()))[old(nextId) := r.value]
                        && nextId == old(nextId) + 1 && session.Data() == r.value
      ensures r.Err? ==> rows == BeforeInsert(old(rows), old(session.Data())) && nextId == old(nextId)
                         && session.Data() == old(session.Data()).(createdAt := Some(old(session.createdAt).GetOr(now)))
    {
      ghost var before := rows;
      ghost var d0 := session.Data();
      ghost var d := d0.(createdAt := Some(d0.createdAt.GetOr(now)));
      assert BeforeInsert(before, d) == BeforeInsert(before, d0);
      assert Inserted(before, nextId, d, now) == Inserted(before, nextId, d0, now);
      BeforeInsertSpec(before, nextId, d);
      if session.createdAt.None? {
        session.createdAt := Some(now);
      }
      assert session.Data() == d;
      if session.isCurrent {
        MarkAllNotCurrent(session.externalSessionId, None);
      }
      assert rows == BeforeInsert(before, d);
      if AgnoTaken(rows, session.agnoSessionId) {
        r := Err(DuplicateAgnoId);
      } else {
        CreateSpec(before, nextId, d, now);
        session.id := Some(nextId);
        r := Ok(session.Data());
        rows := rows[nextId := session.Data()];
        nextId := nextId + 1;
      }
    }

    /** `update`: False without a truthy id; otherwise demotes the siblings of a
        current session and rewrites the row, True iff it exists. */
    method Update(session: InternalSessionData) returns (ok: bool)
      requires Valid()
      modifies this
      ensures Valid()
      ensures ok <==> session.id.Some? && session.id.value != 0 && session.id.value in old(rows)
      ensures rows == UpdatedRows(old(rows), session) && nextId == old(nextId)
    {
      UpdateSpec(rows, nextId, session);
      if session.id.None? || session.id.value == 0 {
        return false;
      }
      var id := session.id.value;
      if session.isCurrent {
        MarkAllNotCurrent(session.externalSessionId, session.id);
      }
      ok := id in rows;
      if ok {
        rows := rows[id := Rewritten(rows[id], session)];
      }
    }

    /** `set_current_session`: False for an unknown id; otherwise demotes every
        session of the same parent, then marks the target current. */
    method SetCurrentSession(id: int) returns (ok: bool)
      requires Valid()
      modifies this
      ensures Valid()
      ensures ok <==> id in old(rows)
      ensures rows == WithCurrent(old(rows), id) && nextId == old(nextId)
    {
      SetCurrentSpec(rows, nextId, id);
      if id !in rows {
        return false;
      }
      var target := rows[id];
      MarkAllNotCurrent(target.externalSessionId, None);
      ok := id in rows;
      rows := rows[id := rows[id].(isCurrent := true)];
    }

    /** `delete`: True iff the row existed; no remaining session changes, so
        none is promoted to current. */
    method Delete(id: int) returns (deleted: bool)
      requires Valid()
      modifies this
      ensures Valid()
      ensures deleted <==> id in old(rows)
      ensures rows == old(rows) - {id} && nextId == old(nextId)
      ensures forall k :: k in rows ==> rows[k] == old(rows)[k]
      ensures OneCurrentPerParent(old(rows)) ==> OneCurrentPerParent(rows)
    {
      deleted := id in rows;
      rows := rows - {id};
    }

    /** `get_by_id` */
    function GetById(id: int): Option<InternalSessionData>
      reads this
    {
      if id in rows then Some(rows[id]) else None
    }

    /** `get_by_agno_session_id` */
    function GetByAgnoSessionId(agno: string): Option<InternalSessionData>
      reads this
    {
      FirstWhere(rows, nextId, AgnoSelector(agno))
    }

    /** `get_by_external_session` */
    function GetByExternalSession(ext: int): seq<InternalSessionData>
      reads this
    {
      Listed(rows, nextId, ext)
    }

    /** `get_current_session` */
    function GetCurrentSession(ext: int): Option<InternalSessionData>
      reads this
    {
      FirstWhere(rows, nextId, CurrentSelector(ext))
    }

    /** `count_sessions` */
    function CountSessions(ext: int): nat
      reads this
    {
      Count(RowsById(rows, nextId), ParentSelector(ext))
    }
  }
}
