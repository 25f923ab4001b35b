/** The checkpoints table (src/database/repositories/checkpoint_repository.py):
    rows keyed by an AUTOINCREMENT id, listed newest first, with pruning of
    automatic checkpoints. A row holds the decoded checkpoint; the JSON blob
    in between is justified by `Checkpoints.RoundTrip`. */
module CheckpointRepository {
  import opened Wrappers
  import opened Values
  import opened Listing
  import opened Checkpoints

  type Table = map<int, Checkpoint>

  function IdOf(c: Checkpoint): int {
    c.id.GetOr(0)
  }

  function CreatedOf(c: Checkpoint): int {
    c.createdAt.GetOr(0)
  }

  /** Every row carries its own key and a creation time, and keys lie below the next id. */
  predicate TableInvariant(rows: Table, nextId: int) {
    1 <= nextId
    && forall id :: id in rows ==> 1 <= id < nextId && rows[id].id == Some(id) && rows[id].createdAt.Some?
  }

  /** `WHERE internal_session_id = ?`, plus `AND is_auto = 1` when `autoOnly`. */
  predicate Matches(c: Checkpoint, sid: int, autoOnly: bool) {
    c.internalSessionId == sid && (!autoOnly || c.isAuto)
  }

  function Selector(sid: int, autoOnly: bool): Checkpoint -> bool {
    c => Matches(c, sid, autoOnly)
  }

  /** The `SELECT ... ORDER BY created_at DESC` of `get_by_internal_session`. */
  function Listed(rows: Table, nextId: int, sid: int, autoOnly: bool): seq<Checkpoint> {
    Query(rows, nextId, Selector(sid, autoOnly), CreatedOf)
  }

  /** Every listed row is a matching row of the table, stored under its own id. */
  lemma ListedSound(rows: Table, nextId: int, sid: int, autoOnly: bool)
    requires TableInvariant(rows, nextId)
    ensures var r := Listed(rows, nextId, sid, autoOnly);
            forall i :: 0 <= i < |r| ==> IdOf(r[i]) in rows && rows[IdOf(r[i])] == r[i] && Matches(r[i], sid, autoOnly)
  {
    QuerySound(rows, nextId, Selector(sid, autoOnly), CreatedOf, IdOf);
  }

  /** Every matching row of the table is listed. */
  lemma ListedComplete(rows: Table, nextId: int, sid: int, autoOnly: bool)
    requires TableInvariant(rows, nextId)
    ensures forall id :: id in rows && Matches(rows[id], sid, autoOnly) ==> rows[id] in Listed(rows, nextId, sid, autoOnly)
  {
    QueryComplete(rows, nextId, Selector(sid, autoOnly), CreatedOf);
  }

  /** No row is listed twice. */
  lemma ListedDistinct(rows: Table, nextId: int, sid: int, autoOnly: bool)
    requires TableInvariant(rows, nextId)
    ensures |IdSet(Listed(rows, nextId, sid, autoOnly), IdOf)| == |Listed(rows, nextId, sid, autoOnly)|
  {
    QueryDistinct(rows, nextId, Selector(sid, autoOnly), CreatedOf, IdOf);
  }

  /** The listing holds every matching row exactly once, no other row, newest first. */
  lemma ListedSpec(rows: Table, nextId: int, sid: int, autoOnly: bool)
    requires TableInvariant(rows, nextId)
    ensures var r := Listed(rows, nextId, sid, autoOnly);
            && SortedDesc(r, CreatedOf)
            && (forall i :: 0 <= i < |r| ==> IdOf(r[i]) in rows && rows[IdOf(r[i])] == r[i] && Matches(r[i], sid, autoOnly))
            && (forall id :: id in rows && Matches(rows[id], sid, autoOnly) ==> rows[id] in r)
            && |IdSet(r, IdOf)| == |r|
  {
    ListedSound(rows, nextId, sid, autoOnly);
    ListedComplete(rows, nextId, sid, autoOnly);
    ListedDistinct(rows, nextId, sid, autoOnly);
  }

  /** `get_latest_checkpoint`: the head of the newest-first listing. */
  function Latest(rows: Table, nextId: int, sid: int): Option<Checkpoint> {
    var all := Listed(rows, nextId, sid, false);
    if all == [] then None else Some(all[0])
  }

  /** None iff the session has no checkpoint; otherwise one of the session's
      checkpoints at least as new as every other. */
  lemma LatestSpec(rows: Table, nextId: int, sid: int)
    requires TableInvariant(rows, nextId)
    ensures var r := Latest(rows, nextId, sid);
            && (r.None? <==> forall id :: id in rows ==> rows[id].internalSessionId != sid)
            && (r.Some? ==> IdOf(r.value) in rows && rows[IdOf(r.value)] == r.value && r.value.internalSessionId == sid)
            && (r.Some? ==> forall id :: id in rows && rows[id].internalSessionId == sid
                                         ==> CreatedOf(rows[id]) <= CreatedOf(r.value))
  {
    var all := Listed(rows, nextId, sid, false);
    ListedSpec(rows, nextId, sid, false);
    forall id | id in rows && rows[id].internalSessionId == sid
      ensures all != [] && CreatedOf(rows[id]) <= CreatedOf(all[0])
    {
      assert Matches(rows[id], sid, false);
      var k :| 0 <= k < |all| && all[k] == rows[id];
    }
    if all != [] {
      assert Matches(all[0], sid, false);
    }
  }

  /** `count_checkpoints` */
  datatype Counts = Counts(total: int, auto: int, manual: int)

  function ManualSelector(sid: int): Checkpoint -> bool {
    (c: Checkpoint) => c.internalSessionId == sid && !c.isAuto
  }

  function Tally(rows: Table, nextId: int, sid: int): Counts {
    var all := RowsById(rows, nextId);
    Counts(Count(all, Selector(sid, false)), Count(all, Selector(sid, true)), Count(all, ManualSelector(sid)))
  }

  /** The totals agree with each other and with the listings. */
  lemma CountsAgree(rows: Table, nextId: int, sid: int)
    requires TableInvariant(rows, nextId)
    ensures Tally(rows, nextId, sid).total == Tally(rows, nextId, sid).auto + Tally(rows, nextId, sid).manual
    ensures Tally(rows, nextId, sid).total == |Listed(rows, nextId, sid, false)|
    ensures Tally(rows, nextId, sid).auto == |Listed(rows, nextId, sid, true)|
  {
    var all := RowsById(rows, nextId);
    CountSplit(all, Selector(sid, false), Selector(sid, true), ManualSelector(sid));
    CountIsFilterLength(all, Selector(sid, false));
    CountIsFilterLength(all, Selector(sid, true));
  }

  // ---------------------------------------------------------------------
  // delete_auto_checkpoints

  /** The ids the `SELECT ... LIMIT keep` returns: the `keep` newest
      automatic checkpoints of the session (all of them when `keep` is negative). */
  function KeptIds(rows: Table, nextId: int, sid: int, keep: int): set<int>
  {
    IdSet(Limit(Listed(rows, nextId, sid, true), keep), IdOf)
  }

  /** The table after the `DELETE`: automatic checkpoints of the session
      outside the kept ids are removed. */
  function Pruned(rows: Table, nextId: int, sid: int, keep: int): Table
  {
    DeleteAutoExcept(rows, sid, KeptIds(rows, nextId, sid, keep))
  }

  /** `DELETE FROM checkpoints WHERE internal_session_id = ? AND is_auto = 1`,
      with `AND id NOT IN (...)` over `spared`. */
  function DeleteAutoExcept(rows: Table, sid: int, spared: set<int>): Table
  {
    map id | id in rows && (!Matches(rows[id], sid, true) || id in spared) :: rows[id]
  }

  /** Pruning only removes rows, never touches manual checkpoints or other
      sessions, and keeps an automatic checkpoint of the session iff its id is kept. */
  lemma PrunedSpec(rows: Table, nextId: int, sid: int, keep: int)
    requires TableInvariant(rows, nextId)
    ensures var r := Pruned(rows, nextId, sid, keep);
            && TableInvariant(r, nextId)
            && (forall id :: id in r ==> id in rows && r[id] == rows[id])
            && (forall id :: id in rows && !Matches(rows[id], sid, true) ==> id in r)
            && (forall id :: id in rows && Matches(rows[id], sid, true) ==> (id in r <==> id in KeptIds(rows, nextId, sid, keep)))
  {
  }

  function Min(a: int, b: int): int {
    if a < b then a else b
  }

  /** Ids of a duplicate-free list: a prefix is duplicate-free too. */
  lemma PrefixIdCount(s: seq<Checkpoint>, m: int)
    requires 0 <= m <= |s| && |IdSet(s, IdOf)| == |s|
    ensures |IdSet(s[..m], IdOf)| == m
  {
    var a, b := s[..m], s[m..];
    assert s == a + b;
    assert IdSet(s, IdOf) <= IdSet(a, IdOf) + IdSet(b, IdOf) by {
      forall x | x in IdSet(s, IdOf) ensures x in IdSet(a, IdOf) + IdSet(b, IdOf) {
        var i :| 0 <= i < |s| && IdOf(s[i]) == x;
        if i < m {
          assert a[i] == s[i];
        } else {
          assert b[i - m] == s[i];
        }
      }
    }
    SubsetCard(IdSet(s, IdOf), IdSet(a, IdOf) + IdSet(b, IdOf));
    IdCountAtMostLength(a, IdOf);
    IdCountAtMostLength(b, IdOf);
  }

  /** The automatic checkpoints of the session left by pruning are exactly the kept ids. */
  lemma PrunedAutoIds(rows: Table, nextId: int, sid: int, keep: int)
    requires TableInvariant(rows, nextId)
    ensures IdSet(Listed(Pruned(rows, nextId, sid, keep), nextId, sid, true), IdOf) == KeptIds(rows, nextId, sid, keep)
  {
    PrunedSpec(rows, nextId, sid, keep);
    var p := Pruned(rows, nextId, sid, keep);
    var kept := KeptIds(rows, nextId, sid, keep);
    AutoIdsListed(p, nextId, sid);
    KeptAreAuto(rows, nextId, sid, keep);
    forall x | x in AutoIds(p, sid) ensures x in kept {
      assert p[x] == rows[x];
    }
    forall x | x in kept ensures x in AutoIds(p, sid) {
      assert x in AutoIds(rows, sid);
    }
  }

  /** `delete_auto_checkpoints(sid, k)` leaves exactly min(k, n) automatic
      checkpoints of the session, n of them when k is negative and none when
      k is 0. */
  lemma PruneKeepsCount(rows: Table, nextId: int, sid: int, keep: int)
    requires TableInvariant(rows, nextId)
    ensures var n := |Listed(rows, nextId, sid, true)|;
            |Listed(Pruned(rows, nextId, sid, keep), nextId, sid, true)| == if keep < 0 then n else Min(keep, n)
  {
    var all := Listed(rows, nextId, sid, true);
    var limited := Limit(all, keep);
    ListedDistinct(rows, nextId, sid, true);
    PrefixIdCount(all, |limited|);
    PrunedAutoIds(rows, nextId, sid, keep);
    ListedDistinct(Pruned(rows, nextId, sid, keep), nextId, sid, true);
  }

  /** Each automatic checkpoint pruning leaves is at least as new as each one it removes. */
  lemma PruneKeepsNewest(rows: Table, nextId: int, sid: int, keep: int)
    requires TableInvariant(rows, nextId)
    ensures forall a, b :: a in Pruned(rows, nextId, sid, keep) && Matches(rows[a], sid, true)
                           && b in rows && b !in Pruned(rows, nextId, sid, keep)
                           ==> CreatedOf(rows[a]) >= CreatedOf(rows[b])
  {
    PrunedSpec(rows, nextId, sid, keep);
    var all := Listed(rows, nextId, sid, true);
    var limited := Limit(all, keep);
    var kept := KeptIds(rows, nextId, sid, keep);
    var p := Pruned(rows, nextId, sid, keep);
    ListedComplete(rows, nextId, sid, true);
    ListedSound(rows, nextId, sid, true);
    forall a, b | a in p && Matches(rows[a], sid, true) && b in rows && b !in p
      ensures CreatedOf(rows[a]) >= CreatedOf(rows[b])
    {
      NewestKept(rows, nextId, sid, keep, a, b);
    }
  }

  lemma NewestKept(rows: Table, nextId: int, sid: int, keep: int, a: int, b: int)
    requires TableInvariant(rows, nextId)
    requires a in rows && a in KeptIds(rows, nextId, sid, keep)
    requires b in rows && Matches(rows[b], sid, true) && b !in KeptIds(rows, nextId, sid, keep)
    ensures CreatedOf(rows[a]) >= CreatedOf(rows[b])
  {
    var all := Listed(rows, nextId, sid, true);
    var limited := Limit(all, keep);
    ListedComplete(rows, nextId, sid, true);
    ListedSound(rows, nextId, sid, true);
    var i :| 0 <= i < |limited| && IdOf(limited[i]) == a;
    assert limited[i] == all[i];
    var id := IdOf(all[i]);
    assert id == a;
    forall k | 0 <= k < |limited| ensures IdOf(all[k]) in KeptIds(rows, nextId, sid, keep) {
      assert limited[k] == all[k];
    }
    var j :| 0 <= j < |all| && all[j] == rows[b];
    assert IdOf(all[j]) == b;
    assert i < j;
  }

  /** Pruning twice with the same `keep` is pruning once, so a second
      `delete_auto_checkpoints` deletes nothing. */
  lemma PruneIdempotent(rows: Table, nextId: int, sid: int, keep: int)
    requires TableInvariant(rows, nextId)
    ensures Pruned(Pruned(rows, nextId, sid, keep), nextId, sid, keep) == Pruned(rows, nextId, sid, keep)
  {
    PrunedSpec(rows, nextId, sid, keep);
    var p := Pruned(rows, nextId, sid, keep);
    PrunedSpec(p, nextId, sid, keep);
    var q := Pruned(p, nextId, sid, keep);
    var after := Listed(p, nextId, sid, true);
    PruneKeepsCount(rows, nextId, sid, keep);
    assert Limit(after, keep) == after;
    assert KeptIds(p, nextId, sid, keep) == IdSet(after, IdOf);
    ListedComplete(p, nextId, sid, true);
    forall id | id in p ensures id in q {
      if Matches(p[id], sid, true) {
        var j :| 0 <= j < |after| && after[j] == p[id];
        assert IdOf(after[j]) == id;
      }
    }
    SameEntries(q, p);
  }

  /** The count `delete_auto_checkpoints` returns: the automatic checkpoints
      of the session beyond the kept ones. */
  lemma PruneRemovedCount(rows: Table, nextId: int, sid: int, keep: int)
    requires TableInvariant(rows, nextId)
    ensures var n := |Listed(rows, nextId, sid, true)|;
            |rows.Keys| - |Pruned(rows, nextId, sid, keep).Keys| == n - (if keep < 0 then n else Min(keep, n))
  {
    var all := Listed(rows, nextId, sid, true);
    RemovedBeyondKept(rows, nextId, sid, keep);
    assert |Limit(all, keep)| == if keep < 0 then |all| else Min(keep, |all|);
  }

  lemma RemovedBeyondKept(rows: Table, nextId: int, sid: int, keep: int)
    requires TableInvariant(rows, nextId)
    ensures |rows.Keys| - |Pruned(rows, nextId, sid, keep).Keys|
            == |Listed(rows, nextId, sid, true)| - |Limit(Listed(rows, nextId, sid, true), keep)|
  {
    var all := Listed(rows, nextId, sid, true);
    var limited := Limit(all, keep);
    ListedDistinct(rows, nextId, sid, true);
    PrefixIdCount(all, |limited|);
    AutoIdsListed(rows, nextId, sid);
    KeptAreAuto(rows, nextId, sid, keep);
    PrunedKeysSplit(rows, nextId, sid, keep);
    var auto, kept := AutoIds(rows, sid), KeptIds(rows, nextId, sid, keep);
    assert |kept| == |limited| by {
      assert limited == all[..|limited|];
    }
    assert |auto| == |all|;
    assert auto == kept + (auto - kept);
    DisjointCard(auto, kept, auto - kept);
  }

  lemma KeptAreAuto(rows: Table, nextId: int, sid: int, keep: int)
    requires TableInvariant(rows, nextId)
    ensures KeptIds(rows, nextId, sid, keep) <= AutoIds(rows, sid)
  {
    var all := Listed(rows, nextId, sid, true);
    var limited := Limit(all, keep);
    AutoIdsListed(rows, nextId, sid);
    forall x | x in KeptIds(rows, nextId, sid, keep) ensures x in IdSet(all, IdOf) {
      var i :| 0 <= i < |limited| && IdOf(limited[i]) == x;
      assert limited[i] == all[i];
    }
  }

  /** The table's ids split into those pruning leaves and the removed automatic ones. */
  lemma PrunedKeysSplit(rows: Table, nextId: int, sid: int, keep: int)
    requires TableInvariant(rows, nextId)
    ensures |rows.Keys| == |Pruned(rows, nextId, sid, keep).Keys| + |AutoIds(rows, sid) - KeptIds(rows, nextId, sid, keep)|
  {
    PrunedSpec(rows, nextId, sid, keep);
    var p := Pruned(rows, nextId, sid, keep);
    var gone := AutoIds(rows, sid) - KeptIds(rows, nextId, sid, keep);
    forall id | id in rows ensures id in p.Keys + gone {
    }
    forall id | id in p.Keys + gone ensures id in rows {
    }
    forall id | id in p ensures id !in gone {
    }
    DisjointCard(rows.Keys, p.Keys, gone);
  }

  /** The ids of the session's automatic checkpoints. */
  function AutoIds(rows: Table, sid: int): set<int> {
    set id | id in rows && Matches(rows[id], sid, true)
  }

  lemma AutoIdsListed(rows: Table, nextId: int, sid: int)
    requires TableInvariant(rows, nextId)
    ensures AutoIds(rows, sid) == IdSet(Listed(rows, nextId, sid, true), IdOf)
  {
    QueryIds(rows, nextId, Selector(sid, true), CreatedOf, IdOf);
  }

  /** The checkpoints table. */
  class CheckpointRepository {
    var rows: Table
    var nextId: int

    predicate Valid()
      reads this
    {
      TableInvariant(rows, nextId)
    }

    constructor ()
      ensures Valid() && rows == map[] && nextId == 1
    {
      rows := map[];
      nextId := 1;
    }

    /** `create`: stamps a missing `created_at` with `now` and stores the
        checkpoint under a fresh id, which `get_by_id` then finds. */
    method Create(c: Checkpoint, now: Datetime) returns (stored: Checkpoint)
      requires Valid()
      modifies this
      ensures Valid()
      ensures old(nextId) !in old(rows)
      ensures stored == c.(id := Some(old(nextId)), createdAt := Some(c.createdAt.GetOr(now)))
      ensures rows == old(rows)[old(nextId) := stored] && nextId == old(nextId) + 1
      ensures GetById(old(nextId)) == Some(stored)
    {
      var createdAt := if c.createdAt.None? then Some(now) else c.createdAt;
      stored := c.(id := Some(nextId), createdAt := createdAt);
      rows := rows[nextId := stored];
      nextId := nextId + 1;
    }

    /** `get_by_id` */
    function GetById(id: int): Option<Checkpoint>
      reads this
    {
      if id in rows then Some(rows[id]) else None
    }

    /** `get_by_internal_session` */
    function GetByInternalSession(sid: int, autoOnly: bool): seq<Checkpoint>
      reads this
      requires Valid()
    {
      Listed(rows, nextId, sid, autoOnly)
    }

    /** `get_latest_checkpoint` */
    function GetLatestCheckpoint(sid: int): Option<Checkpoint>
      reads this
      requires Valid()
    {
      Latest(rows, nextId, sid)
    }

    /** `count_checkpoints` */
    function CountCheckpoints(sid: int): Counts
      reads this
    {
      Tally(rows, nextId, sid)
    }

    /** `delete`: true iff the row existed; no other row changes. */
    method Delete(id: int) returns (deleted: bool)
      requires Valid()
      modifies this
      ensures Valid()
      ensures deleted <==> id in old(rows)
      ensures rows == old(rows) - {id} && nextId == old(nextId)
      ensures GetById(id) == None
    {
      deleted := id in rows;
      rows := rows - {id};
    }

    /** `delete_auto_checkpoints`: keeps the `keepLatest` newest automatic
        checkpoints of the session and returns how many rows were deleted. */
    method DeleteAutoCheckpoints(sid: int, keepLatest: int) returns (removed: int)
      requires Valid()
      modifies this
      ensures Valid()
      ensures rows == Pruned(old(rows), old(nextId), sid, keepLatest) && nextId == old(nextId)
      ensures removed == |old(rows).Keys| - |rows.Keys|
    {
      var before := rows;
      var keepIds := KeptIds(rows, nextId, sid, keepLatest);
      if keepIds != {} {
        rows := DeleteAutoExcept(rows, sid, keepIds);
      } else {
        rows := DeleteAutoExcept(rows, sid, {});
      }
      removed := |before.Keys| - |rows.Keys|;
    }
  }
}
