/** Accounts and session listings of the original single-agent application
    (`src/rollback_agent/auth/user_manager.py`) over three tables of its
    database: `users`, `rollback_sessions` and `rollback_states`. Column
    timestamps are the text SQLite's `CURRENT_TIMESTAMP` writes, given as
    a parameter; the `ORDER BY` columns are integer clock readings. */
module UserManagers {
  import opened Wrappers
  import opened Values
  import opened Listing
  import LU = LegacyUsers
  import Validators

  /** A row of `users` (after `user_id`). */
  datatype UserRow = UserRow(
    username: string,
    passwordHash: string,
    createdAt: Option<string>,
    lastLogin: Option<string>)

  /** A row of `rollback_sessions`, with SQLite's implicit `rowid`. */
  datatype SessionRow = SessionRow(
    rowId: int,
    sessionId: string,
    userId: Option<int>,
    sessionName: Option<string>,
    createdAt: Option<string>,
    lastActivity: int,
    isActive: Option<int>,
    parentSessionId: Option<string>)

  /** A row of `rollback_states`. */
  datatype RollbackRow = RollbackRow(
    rollbackId: int,
    userId: int,
    originalSessionId: string,
    newSessionId: Option<string>,
    checkpointData: string,
    rollbackTimestamp: int,
    completed: bool)

  const Required := "Username and password are required"
  const TooShort := "Password must be at least 4 characters"

  function Exists(username: string): string {
    "Username '" + username + "' already exists"
  }

  function Welcome(username: string): string {
    "User '" + username + "' registered successfully!"
  }

  /** The checks `register` makes before it touches the database: the
      refusal message, or `None` when both checks pass. */
  function InputRefusal(username: string, password: string): (r: Option<string>)
    ensures r.None? <==> username != [] && |password| >= 4
    ensures r == Some(Required) <==> username == [] || password == []
  {
    if username == [] || password == [] then Some(Required)
    else if |password| < 4 then Some(TooShort)
    else None
  }

  /** A four-character password passes this check but not the
      authentication layer's password rule, which wants more than four. */
  lemma FourCharactersSuffice(username: string, password: string)
    requires username != [] && |password| == 4
    ensures InputRefusal(username, password).None?
    ensures ValidatorRefuses(password)
  {
  }

  predicate ValidatorRefuses(password: string) {
    Validators.ValidatePassword(password) == (false, Validators.PasswordTooShort)
  }

  predicate NameTaken(users: map<int, UserRow>, name: string) {
    exists id :: id in users && users[id].username == name
  }

  predicate UniqueNames(users: map<int, UserRow>) {
    forall a, b :: a in users && b in users && users[a].username == users[b].username ==> a == b
  }

  /** The row `SELECT * FROM users` yields for a user, in column order. */
  function RowValues(id: int, row: UserRow): seq<Value> {
    [VInt(id), VStr(row.username), VStr(row.passwordHash), OptStrValue(row.createdAt), OptStrValue(row.lastLogin)]
  }

  /** `User.from_db_row` of that row. */
  function RowUser(id: int, row: UserRow, tf: TimeFormat): (u: LU.User)
    ensures LU.FromDbRow(RowValues(id, row), tf) == Ok(u)
    ensures u.userId == Some(id) && u.username == Some(row.username) && u.passwordHash == Some(row.passwordHash)
  {
    var parsedCreated := if row.createdAt.Some? && row.createdAt.value != [] then Some(tf.parse(row.createdAt.value)) else None;
    var parsedLast := if row.lastLogin.Some? && row.lastLogin.value != [] then Some(tf.parse(row.lastLogin.value)) else None;
    LU.User(Some(id), Some(row.username), Some(row.passwordHash), parsedCreated, parsedLast)
  }

  const NameLimit := 40

  /** `row["session_name"] or f"Session {row['session_id'][:40]}"` */
  function DisplayName(row: SessionRow): (name: string)
    ensures row.sessionName.Some? && row.sessionName.value != [] ==> name == row.sessionName.value
    ensures !(row.sessionName.Some? && row.sessionName.value != []) ==>
              && StartsWith(name, "Session ")
              && |name| == 8 + (if |row.sessionId| < NameLimit then |row.sessionId| else NameLimit)
              && StartsWith(row.sessionId, name[8..])
  {
    if row.sessionName.Some? && row.sessionName.value != [] then row.sessionName.value
    else
      var prefix := if |row.sessionId| <= NameLimit then row.sessionId else row.sessionId[..NameLimit];
      "Session " + prefix
  }

  function SessionDict(row: SessionRow): (d: Dict)
    ensures d.Keys == {"session_id", "session_name", "created_at", "last_activity", "is_active", "parent_session_id"}
    ensures d["session_id"] == VStr(row.sessionId) && d["session_name"] == VStr(DisplayName(row))
    ensures d["is_active"] == VBool(row.isActive.Some? && row.isActive.value != 0)
  {
    map["session_id" := VStr(row.sessionId),
        "session_name" := VStr(DisplayName(row)),
        "created_at" := OptStrValue(row.createdAt),
        "last_activity" := VInt(row.lastActivity),
        "is_active" := VBool(row.isActive.Some? && row.isActive.value != 0),
        "parent_session_id" := OptStrValue(row.parentSessionId)]
  }

  function RollbackDict(row: RollbackRow): (d: Dict)
    ensures d.Keys == {"rollback_id", "original_session_id", "checkpoint_data", "rollback_timestamp"}
    ensures d["rollback_id"] == VInt(row.rollbackId)
  {
    map["rollback_id" := VInt(row.rollbackId),
        "original_session_id" := VStr(row.originalSessionId),
        "checkpoint_data" := VStr(row.checkpointData),
        "rollback_timestamp" := VInt(row.rollbackTimestamp)]
  }

  function OfUser(userId: int): SessionRow -> bool {
    (r: SessionRow) => r.userId == Some(userId)
  }

  function Activity(r: SessionRow): int {
    r.lastActivity
  }

  function SessionKey(r: SessionRow): int {
    r.rowId
  }

  /** `WHERE user_id = ? AND completed = FALSE` */
  predicate Pending(userId: int, r: RollbackRow) {
    r.userId == userId && !r.completed
  }

  function PendingFor(userId: int): RollbackRow -> bool {
    (r: RollbackRow) => Pending(userId, r)
  }

  function Stamp(r: RollbackRow): int {
    r.rollbackTimestamp
  }

  function RollbackKey(r: RollbackRow): int {
    r.rollbackId
  }

  /** The rows `get_user_sessions` selects, in its order. */
  function UserSessionRows(sessions: map<int, SessionRow>, bound: int, userId: int): seq<SessionRow> {
    Query(sessions, bound, OfUser(userId), Activity)
  }

  /** The rows `get_pending_rollbacks` selects, in its order. */
  function PendingRows(rollbacks: map<int, RollbackRow>, bound: int, userId: int): seq<RollbackRow> {
    Query(rollbacks, bound, PendingFor(userId), Stamp)
  }

  /** Every row `get_user_sessions` lists belongs to the user and is stored,
      every session of the user is listed once, and the most recent
      activity comes first. */
  lemma UserSessionsSpec(sessions: map<int, SessionRow>, bound: int, userId: int)
    requires forall id :: id in sessions ==> 0 <= id < bound && sessions[id].rowId == id
    ensures var q := UserSessionRows(sessions, bound, userId);
            && SortedDesc(q, Activity)
            && (forall i :: 0 <= i < |q| ==> q[i].userId == Some(userId) && q[i].rowId in sessions && sessions[q[i].rowId] == q[i])
            && IdSet(q, SessionKey) == (set id | id in sessions && sessions[id].userId == Some(userId))
            && |IdSet(q, SessionKey)| == |q|
  {
    QuerySound(sessions, bound, OfUser(userId), Activity, SessionKey);
    QueryIds(sessions, bound, OfUser(userId), Activity, SessionKey);
    QueryDistinct(sessions, bound, OfUser(userId), Activity, SessionKey);
  }

  /** `get_pending_rollbacks` lists exactly the user's uncompleted rows,
      each once, newest first. */
  lemma PendingRollbacksSpec(rollbacks: map<int, RollbackRow>, bound: int, userId: int)
    requires forall id :: id in rollbacks ==> 0 <= id < bound && rollbacks[id].rollbackId == id
    ensures var q := PendingRows(rollbacks, bound, userId);
            && SortedDesc(q, Stamp)
            && (forall i :: 0 <= i < |q| ==> Pending(userId, q[i]) && q[i].rollbackId in rollbacks && rollbacks[q[i].rollbackId] == q[i])
            && IdSet(q, RollbackKey) == (set id | id in rollbacks && Pending(userId, rollbacks[id]))
            && |IdSet(q, RollbackKey)| == |q|
  {
    QuerySound(rollbacks, bound, PendingFor(userId), Stamp, RollbackKey);
    QueryIds(rollbacks, bound, PendingFor(userId), Stamp, RollbackKey);
    QueryDistinct(rollbacks, bound, PendingFor(userId), Stamp, RollbackKey);
  }

  class UserManager {
    var users: map<int, UserRow>
    var nextUserId: int
    var sessions: map<int, SessionRow>
    var sessionBound: int
    var rollbacks: map<int, RollbackRow>
    var rollbackBound: int
    const hash: string -> string
    const tf: TimeFormat

    ghost predicate Valid()
      reads this
    {
      && nextUserId >= 1
      && (forall id :: id in users ==> 1 <= id < nextUserId)
      && UniqueNames(users)
      && (forall id :: id in sessions ==> 0 <= id < sessionBound && sessions[id].rowId == id)
      && (forall id :: id in rollbacks ==> 0 <= id < rollbackBound && rollbacks[id].rollbackId == id)
    }

    /** The id of the user row holding the name. */
    function FindUser(username: string): (r: Option<int>)
      reads this
      requires Valid()
      ensures r.Some? <==> NameTaken(users, username)
      ensures r.Some? ==> r.value in users && users[r.value].username == username
    {
      if NameTaken(users, username) then
        var id :| id in users && users[id].username == username;
        Some(id)
      else None
    }

    /** `register`: the input checks, the name check, then an insert with
        `created_at` defaulted to the current timestamp. */
    method Register(username: string, password: string, timestamp: string) returns (ok: bool, msg: string)
      requires Valid()
      modifies this
      ensures Valid()
      ensures ok <==> InputRefusal(username, password).None? && !NameTaken(old(users), username)
      ensures InputRefusal(username, password).Some? ==> msg == InputRefusal(username, password).value
      ensures InputRefusal(username, password).None? && NameTaken(old(users), username) ==> msg == Exists(username)
      ensures !ok ==> unchanged(this)
      ensures ok ==> && users == old(users)[old(nextUserId) := UserRow(username, hash(password), Some(timestamp), None)]
                     && nextUserId == old(nextUserId) + 1
                     && sessions == old(sessions) && rollbacks == old(rollbacks)
                     && msg == Welcome(username)
    {
      var refusal := InputRefusal(username, password);
      if refusal.Some? {
        return false, refusal.value;
      }
      if FindUser(username).Some? {
        return false, Exists(username);
      }
      users := users[nextUserId := UserRow(username, hash(password), Some(timestamp), None)];
      nextUserId := nextUserId + 1;
      ok, msg := true, Welcome(username);
    }

    /** `login`: the stored user, read through `from_db_row`, when the
        password verifies; its row's `last_login` becomes the current
        timestamp and the returned record's becomes `now`. */
    method Login(username: string, password: string, timestamp: string, now: Datetime) returns (user: Option<LU.User>)
      requires Valid()
      modifies this
      ensures Valid()
      ensures var id := old(FindUser(username));
              && (user.Some? <==> id.Some? && old(users)[id.value].passwordHash == hash(password))
              && (user.Some? ==> && user.value == RowUser(id.value, old(users)[id.value], tf).(lastLogin := Some(now))
                                 && LU.VerifyPassword(user.value, password, hash)
                                 && users == old(users)[id.value := old(users)[id.value].(lastLogin := Some(timestamp))])
      ensures user.None? ==> unchanged(this)
      ensures nextUserId == old(nextUserId) && sessions == old(sessions) && rollbacks == old(rollbacks)
    {
      var id := FindUser(username);
      if id.None? {
        return None;
      }
      var found := RowUser(id.value, users[id.value], tf);
      if !LU.VerifyPassword(found, password, hash) {
        return None;
      }
      users := users[id.value := users[id.value].(lastLogin := Some(timestamp))];
      user := Some(found.(lastLogin := Some(now)));
    }

    /** `get_user_sessions` */
    function GetUserSessions(userId: int): (r: seq<Dict>)
      reads this
      ensures var q := UserSessionRows(sessions, sessionBound, userId);
              |r| == |q| && forall i :: 0 <= i < |q| ==> r[i] == SessionDict(q[i])
    {
      var q := UserSessionRows(sessions, sessionBound, userId);
      seq(|q|, i requires 0 <= i < |q| => SessionDict(q[i]))
    }

    /** `get_pending_rollbacks` */
    function GetPendingRollbacks(userId: int): (r: seq<Dict>)
      reads this
      ensures var q := PendingRows(rollbacks, rollbackBound, userId);
              |r| == |q| && forall i :: 0 <= i < |q| ==> r[i] == RollbackDict(q[i])
    {
      var q := PendingRows(rollbacks, rollbackBound, userId);
      seq(|q|, i requires 0 <= i < |q| => RollbackDict(q[i]))
    }
  }
}
