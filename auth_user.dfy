/** The account record of the authentication layer (`src/auth/user.py`).
    The SHA-256 hex digest is an uninterpreted parameter `hash`; setting a
    password yields the updated record. */
module AuthUsers {
  import opened Wrappers
  import opened Values

  datatype User = User(
    id: Option<int>,
    username: string,
    passwordHash: string,
    isAdmin: bool,
    createdAt: Option<Datetime>,
    lastLogin: Option<Datetime>)

  /** `User()`: every field at its default. */
  const Blank := User(None, "", "", false, None, None)

  /** `verify_password`: the stored hash is the hash of the candidate. */
  predicate VerifyPassword(u: User, password: string, hash: string -> string) {
    u.passwordHash == hash(password)
  }

  /** `set_password`: only the hash changes, and the new password verifies. */
  function SetPassword(u: User, password: string, hash: string -> string): (r: User)
    ensures VerifyPassword(r, password, hash)
    ensures r.(passwordHash := u.passwordHash) == u
  {
    u.(passwordHash := hash(password))
  }

  /** After a sequence of `set_password` calls, a candidate verifies iff its
      hash is that of the last password set. */
  lemma LastPasswordWins(u: User, first: string, second: string, candidate: string, hash: string -> string)
    ensures VerifyPassword(SetPassword(SetPassword(u, first, hash), second, hash), candidate, hash)
            <==> hash(candidate) == hash(second)
  {
  }

  /** The five keys `to_dict` writes; the hash is not among them. */
  const PublicFields: set<string> := {"id", "username", "is_admin", "created_at", "last_login"}

  /** `to_dict`: the public fields, times as ISO text. */
  function ToDict(u: User, tf: TimeFormat): (d: Dict)
    ensures d.Keys == PublicFields
    ensures "password_hash" !in d
  {
    map["id" := OptIntValue(u.id),
        "username" := VStr(u.username),
        "is_admin" := VBool(u.isAdmin),
        "created_at" := OptIsoValue(u.createdAt, tf),
        "last_login" := OptIsoValue(u.lastLogin, tf)]
  }

  /** `from_dict`: absent keys keep the defaults, times are parsed when
      truthy; a field of the wrong type is an error. */
  function FromDict(data: Dict, tf: TimeFormat): (r: Result<User, string>)
    ensures data == map[] ==> r == Ok(Blank)
    ensures r.Ok? && "password_hash" !in data ==> r.value.passwordHash == ""
    ensures r.Ok? && "is_admin" !in data ==> !r.value.isAdmin
    ensures r.Ok? && !Truthy(Get(data, "created_at", VNone)) ==> r.value.createdAt.None?
  {
    var id :- AsOptInt(Get(data, "id", VNone));
    var username :- AsStr(Get(data, "username", VStr("")));
    var hash :- AsStr(Get(data, "password_hash", VStr("")));
    var isAdmin :- AsBool(Get(data, "is_admin", VBool(false)));
    var created :- AsOptIso(Get(data, "created_at", VNone), tf);
    var last :- AsOptIso(Get(data, "last_login", VNone), tf);
    Ok(User(id, username, hash, isAdmin, created, lastLogin := last))
  }

  /** `to_dict` with the hash added back reads back as the same record. */
  lemma RoundTrip(u: User, tf: TimeFormat)
    requires IsoRoundTrips(tf)
    ensures FromDict(ToDict(u, tf)["password_hash" := VStr(u.passwordHash)], tf) == Ok(u)
  {
    OptIsoRoundTrip(u.createdAt, tf);
    OptIsoRoundTrip(u.lastLogin, tf);
    match u.id
    case None =>
    case Some(_) =>
  }

  /** Without the hash, the record reads back with an empty hash, which
      verifies no password whose hash is non-empty. */
  lemma PublicRoundTrip(u: User, tf: TimeFormat, password: string, hash: string -> string)
    requires IsoRoundTrips(tf)
    requires hash(password) != ""
    ensures FromDict(ToDict(u, tf), tf) == Ok(u.(passwordHash := ""))
    ensures !VerifyPassword(FromDict(ToDict(u, tf), tf).value, password, hash)
  {
    OptIsoRoundTrip(u.createdAt, tf);
    OptIsoRoundTrip(u.lastLogin, tf);
    match u.id
    case None =>
    case Some(_) =>
  }
}
