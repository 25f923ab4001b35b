/** The `users` table of the authentication layer and its repository
    (`src/database/repositories/user_repository.py`). A row keeps the
    structured columns and the JSON payload; `RowToUser` is
    `_row_to_user`. The repository object holds the table as the users its
    rows read back as, keyed by the `AUTOINCREMENT` id; the lemmas below
    show that reading a row `save` wrote gives back the saved user. */
module UserRepositories {
  import opened Wrappers
  import opened Values
  import opened AuthUsers
  import opened Listing

  /** A row of `users`: the columns after `id`. `data` is the JSON text as
      the dictionary it decodes to; `None` stands for `NULL` or `''`. */
  datatype Row = Row(
    username: string,
    passwordHash: string,
    isAdmin: int,
    createdAt: Option<string>,
    lastLogin: Option<string>,
    data: Option<Dict>)

  function IsoText(o: Option<Datetime>, tf: TimeFormat): Option<string> {
    match o
    case None => None
    case Some(t) => Some(tf.iso(t))
  }

  /** The values `save` binds for a user: the columns, and `to_dict()` with
      the hash added as the payload. */
  function SavedRow(u: User, tf: TimeFormat): (row: Row)
    ensures row.data.Some? && row.data.value.Keys == PublicFields + {"password_hash"}
    ensures row.username == u.username && row.passwordHash == u.passwordHash
    ensures row.isAdmin == 0 <==> !u.isAdmin
  {
    Row(u.username, u.passwordHash, if u.isAdmin then 1 else 0,
        IsoText(u.createdAt, tf), IsoText(u.lastLogin, tf),
        Some(ToDict(u, tf)["password_hash" := VStr(u.passwordHash)]))
  }

  /** The dictionary `_row_to_user` rebuilds from the columns when the
      payload is empty. */
  function ColumnDict(id: int, row: Row): (d: Dict)
    ensures d.Keys == PublicFields
  {
    map["id" := VInt(id),
        "username" := VStr(row.username),
        "is_admin" := VBool(row.isAdmin != 0),
        "created_at" := OptStrValue(row.createdAt),
        "last_login" := OptStrValue(row.lastLogin)]
  }

  /** `_row_to_user`: the payload when there is one, else the columns; the
      hash always comes from its column and the id from the key. */
  function RowToUser(id: int, row: Row, tf: TimeFormat): (r: Result<User, string>)
    ensures r.Ok? ==> r.value.id == Some(id) && r.value.passwordHash == row.passwordHash
    ensures row.data.None? ==> r.Ok? && r.value.username == row.username && (r.value.isAdmin <==> row.isAdmin != 0)
  {
    var d := if row.data.Some? then row.data.value else ColumnDict(id, row);
    var u :- FromDict(d["password_hash" := VStr(row.passwordHash)], tf);
    Ok(u.(id := Some(id)))
  }

  /** Reading back a row that `save` wrote, under the id it was given,
      yields the saved user with that id. */
  lemma SavedRowReadsBack(id: int, u: User, tf: TimeFormat)
    requires IsoRoundTrips(tf)
    ensures RowToUser(id, SavedRow(u, tf), tf) == Ok(u.(id := Some(id)))
  {
    var d := ToDict(u, tf)["password_hash" := VStr(u.passwordHash)];
    assert d["password_hash" := VStr(u.passwordHash)] == d;
    RoundTrip(u, tf);
  }

  /** The fallback path agrees: the columns alone read back as the same
      user. */
  lemma ColumnsReadBack(id: int, u: User, tf: TimeFormat)
    requires IsoRoundTrips(tf)
    ensures RowToUser(id, SavedRow(u, tf).(data := None), tf) == Ok(u.(id := Some(id)))
  {
    OptIsoRoundTrip(u.createdAt, tf);
    OptIsoRoundTrip(u.lastLogin, tf);
    assert OptStrValue(IsoText(u.createdAt, tf)) == OptIsoValue(u.createdAt, tf);
    assert OptStrValue(IsoText(u.lastLogin, tf)) == OptIsoValue(u.lastLogin, tf);
  }

  const RootName := "rootusr"
  const RootPassword := "1234"

  /** The administrator `_init_db` creates when the table has none. */
  function RootUser(now: Datetime, hash: string -> string): (u: User)
    ensures u.username == RootName && u.isAdmin && u.id.None?
    ensures VerifyPassword(u, RootPassword, hash)
  {
    SetPassword(User(None, RootName, "", true, Some(now), None), RootPassword, hash)
  }

  predicate NameTaken(users: map<int, User>, name: string) {
    exists id :: id in users && users[id].username == name
  }

  /** `username TEXT UNIQUE` */
  predicate UniqueNames(users: map<int, User>) {
    forall a, b :: a in users && b in users && users[a].username == users[b].username ==> a == b
  }

  /** Every stored user carries its own key as id, keys lie below the next
      `AUTOINCREMENT` value, and usernames are unique. */
  predicate TableValid(users: map<int, User>, nextId: int) {
    && nextId >= 1
    && (forall id :: id in users ==> 1 <= id < nextId && users[id].id == Some(id))
    && UniqueNames(users)
  }

  /** The statement `save` issues for `u` violates the `UNIQUE` constraint:
      an insert, or an update of an existing row, to a name another row
      holds. */
  predicate Conflicts(users: map<int, User>, u: User) {
    && (u.id.None? || u.id.value in users)
    && exists id :: id in users && users[id].username == u.username && Some(id) != u.id
  }

  const UniqueViolation := "UNIQUE constraint failed: users.username"

  class UserRepository {
    var users: map<int, User>
    var nextId: int
    const hash: string -> string

    ghost predicate Valid()
      reads this
    {
      TableValid(users, nextId)
    }

    /** `UserRepository(db_path)` over a table already holding `existing`:
        `_init_db` adds the administrator unless a `rootusr` row exists. */
    constructor (existing: map<int, User>, existingNext: int, now: Datetime, hash: string -> string)
      requires TableValid(existing, existingNext)
      ensures Valid() && this.hash == hash
      ensures NameTaken(existing, RootName) ==> users == existing && nextId == existingNext
      ensures !NameTaken(existing, RootName) ==>
                && users == existing[existingNext := RootUser(now, hash).(id := Some(existingNext))]
                && nextId == existingNext + 1
      ensures NameTaken(users, RootName)
    {
      this.hash := hash;
      if NameTaken(existing, RootName) {
        users := existing;
        nextId := existingNext;
      } else {
        var root := RootUser(now, hash).(id := Some(existingNext));
        var table := existing[existingNext := root];
        assert table[existingNext].username == RootName;
        users := table;
        nextId := existingNext + 1;
      }
    }

    /** `save`: an insert when the user has no id (it is given the next
        id), an update of the row with its id otherwise (no row changes if
        there is none); a name clash is `IntegrityError`. */
    method Save(u: User) returns (r: Result<User, string>)
      requires Valid()
      modifies this
      ensures Valid()
      ensures r.Err? <==> Conflicts(old(users), u)
      ensures r.Err? ==> r.error == UniqueViolation && users == old(users) && nextId == old(nextId)
      ensures r.Ok? && u.id.None? ==>
                && r.value == u.(id := Some(old(nextId)))
                && users == old(users)[old(nextId) := r.value]
                && nextId == old(nextId) + 1
      ensures r.Ok? && u.id.Some? ==>
                && r.value == u
                && nextId == old(nextId)
                && users == (if u.id.value in old(users) then old(users)[u.id.value := u] else old(users))
    {
      if Conflicts(users, u) {
        return Err(UniqueViolation);
      }
      if u.id.None? {
        var saved := u.(id := Some(nextId));
        users := users[nextId := saved];
        nextId := nextId + 1;
        r := Ok(saved);
      } else {
        if u.id.value in users {
          users := users[u.id.value := u];
        }
        r := Ok(u);
      }
    }

    /** `find_by_id` */
    function FindById(id: int): (r: Option<User>)
      reads this
      requires Valid()
      ensures r.Some? <==> id in users
      ensures r.Some? ==> r.value == users[id] && r.value.id == Some(id)
    {
      if id in users then Some(users[id]) else None
    }

    /** `find_by_username`: the one user holding the name, if any. */
    function FindByUsername(name: string): (r: Option<User>)
      reads this
      requires Valid()
      ensures r.Some? <==> NameTaken(users, name)
      ensures r.Some? ==> && r.value.username == name && r.value.id.Some?
                          && r.value.id.value in users && users[r.value.id.value] == r.value
    {
      if NameTaken(users, name) then
        var id :| id in users && users[id].username == name;
        Some(users[id])
      else None
    }

    /** `find_all`: every stored user, each once, in id order. */
    function FindAll(): (r: seq<User>)
      reads this
      requires Valid()
      ensures forall i :: 0 <= i < |r| ==> r[i] in users.Values
      ensures forall id :: id in users ==> users[id] in r
    {
      RowsById(users, nextId)
    }

    /** `delete`: true iff a row with the id existed; it is gone. */
    method Delete(id: int) returns (deleted: bool)
      requires Valid()
      modifies this
      ensures Valid()
      ensures deleted <==> id in old(users)
      ensures users == old(users) - {id} && nextId == old(nextId)
    {
      deleted := id in users;
      users := users - {id};
    }
  }
}
