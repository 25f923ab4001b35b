/** The account record of the original single-agent application
    (`src/rollback_agent/models/user.py`). Unlike the authentication
    layer's record, every field may be `None` and `to_dict` includes the
    hash. */
module LegacyUsers {
  import opened Wrappers
  import opened Values

  datatype User = User(
    userId: Option<int>,
    username: Option<string>,
    passwordHash: Option<string>,
    createdAt: Option<Datetime>,
    lastLogin: Option<Datetime>)

  /** `verify_password`: the stored hash equals the hash of the input; a
      record without a hash verifies nothing. */
  function VerifyPassword(u: User, password: string, hash: string -> string): (r: bool)
    ensures r ==> u.passwordHash.Some?
    ensures u.passwordHash.Some? ==> (r <==> hash(password) == u.passwordHash.value)
  {
    u.passwordHash == Some(hash(password))
  }

  const Fields: set<string> := {"user_id", "username", "password_hash", "created_at", "last_login"}

  /** `format_datetime(d) if d else None` */
  function OptFormatted(o: Option<Datetime>, tf: TimeFormat): (v: Value)
    ensures o.None? <==> v == VNone
  {
    match o
    case None => VNone
    case Some(t) => VStr(tf.format(t))
  }

  /** `to_dict`: all five fields, the hash included, times formatted. */
  function ToDict(u: User, tf: TimeFormat): (d: Dict)
    ensures d.Keys == Fields
    ensures d["password_hash"] == OptStrValue(u.passwordHash)
    ensures d["user_id"] == OptIntValue(u.userId)
    ensures u.createdAt.None? <==> d["created_at"] == VNone
    ensures u.lastLogin.None? <==> d["last_login"] == VNone
  {
    map["user_id" := OptIntValue(u.userId),
        "username" := OptStrValue(u.username),
        "password_hash" := OptStrValue(u.passwordHash),
        "created_at" := OptFormatted(u.createdAt, tf),
        "last_login" := OptFormatted(u.lastLogin, tf)]
  }

  /** `parse_datetime(v) if v else None`: text is parsed, a datetime is
      taken as it is. */
  function OptParsed(v: Value, tf: TimeFormat): (r: Result<Option<Datetime>, string>)
    ensures r == Ok(None) <==> !Truthy(v)
  {
    if !Truthy(v) then Ok(None)
    else match v
      case VStr(s) => Ok(Some(tf.parse(s)))
      case VDatetime(t) => Ok(Some(t))
      case _ => Err(IllTyped)
  }

  const ShortRow := "tuple index out of range"

  /** `from_db_row`: positions 0 to 4 are the id, name, hash and the two
      times; a shorter row is an `IndexError`. */
  function FromDbRow(row: seq<Value>, tf: TimeFormat): (r: Result<User, string>)
    ensures |row| < 5 ==> r == Err(ShortRow)
    ensures r.Ok? ==> && OptIntValue(r.value.userId) == row[0]
                      && OptStrValue(r.value.username) == row[1]
                      && OptStrValue(r.value.passwordHash) == row[2]
                      && (r.value.createdAt.None? <==> !Truthy(row[3]))
                      && (r.value.lastLogin.None? <==> !Truthy(row[4]))
  {
    if |row| < 5 then Err(ShortRow)
    else
      var id :- AsOptInt(row[0]);
      var username :- AsOptStr(row[1]);
      var hash :- AsOptStr(row[2]);
      var created :- OptParsed(row[3], tf);
      var last :- OptParsed(row[4], tf);
      Ok(User(id, username, hash, created, last))
  }

  /** The values of `to_dict` in column order. */
  function RowOf(u: User, tf: TimeFormat): seq<Value> {
    var d := ToDict(u, tf);
    [d["user_id"], d["username"], d["password_hash"], d["created_at"], d["last_login"]]
  }

  /** A record's times after formatting and parsing back. */
  function Reparsed(u: User, tf: TimeFormat): User {
    u.(createdAt := if u.createdAt.Some? then Some(tf.parse(tf.format(u.createdAt.value))) else None,
       lastLogin := if u.lastLogin.Some? then Some(tf.parse(tf.format(u.lastLogin.value))) else None)
  }

  /** Reading `to_dict`'s values back as a row keeps id, name and hash, keeps
      absent times absent and re-parses the formatted ones. */
  lemma RowRoundTrip(u: User, tf: TimeFormat)
    requires forall t: Datetime :: tf.format(t) != []
    ensures FromDbRow(RowOf(u, tf), tf) == Ok(Reparsed(u, tf))
  {
    AsOptIntRoundTrip(u.userId);
    AsOptStrRoundTrip(u.username);
    AsOptStrRoundTrip(u.passwordHash);
    match u.createdAt {
      case None =>
      case Some(t) => assert tf.format(t) != [];
    }
    match u.lastLogin {
      case None =>
      case Some(t) => assert tf.format(t) != [];
    }
  }

  lemma AsOptIntRoundTrip(o: Option<int>)
    ensures AsOptInt(OptIntValue(o)) == Ok(o)
  {
    match o
    case None =>
    case Some(_) =>
  }

  lemma AsOptStrRoundTrip(o: Option<string>)
    ensures AsOptStr(OptStrValue(o)) == Ok(o)
  {
    match o
    case None =>
    case Some(_) =>
  }
}
