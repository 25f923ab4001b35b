/** The `Checkpoint` dataclass of the legacy in-state framework
    (src/rollback_agent/models/checkpoint.py) and its dictionary form, the
    entries of `session_state["checkpoints"]`. The uuid and the clock
    reading a missing field would take are parameters. */
module LegacyCheckpoints {
  import opened Wrappers
  import opened Values

  datatype Checkpoint = Checkpoint(
    checkpointId: string,
    timestamp: Datetime,
    checkpointType: string,
    name: Option<string>,
    messageCount: Value,
    conversationSnapshot: seq<Dict>,
    sessionState: Dict,
    metadata: Dict)

  /** The dataclass's field names, the keyword arguments `cls(**data)` accepts. */
  const Fields: set<string> :=
    {"checkpoint_id", "timestamp", "checkpoint_type", "name", "message_count",
     "conversation_snapshot", "session_state", "metadata"}

  /** `Checkpoint()` with every default: a fresh uuid, the current time,
      type "manual", no name, zero messages and empty collections. */
  function Default(freshId: string, now: Datetime): Checkpoint {
    Checkpoint(freshId, now, "manual", None, VInt(0), [], map[], map[])
  }

  /** `to_dict()`: the eight fields, the timestamp through `format_datetime`. */
  function ToDict(c: Checkpoint, tf: TimeFormat): (d: Dict)
    ensures d.Keys == Fields
  {
    map[ "checkpoint_id" := VStr(c.checkpointId),
         "timestamp" := VStr(tf.format(c.timestamp)),
         "checkpoint_type" := VStr(c.checkpointType),
         "name" := OptStrValue(c.name),
         "message_count" := c.messageCount,
         "conversation_snapshot" := DictListValue(c.conversationSnapshot),
         "session_state" := VDict(c.sessionState),
         "metadata" := VDict(c.metadata) ]
  }

  /** The `timestamp` keyword: a string is parsed, a datetime passes through. */
  function TimestampOf(v: Value, tf: TimeFormat): Result<Datetime, string> {
    match v
    case VStr(s) => Ok(tf.parse(s))
    case VDatetime(t) => Ok(t)
    case _ => Err(IllTyped)
  }

  /** `data[key]` decoded by `decode` when present, else `default`. */
  function Field<T>(data: Dict, key: string, decode: Value -> Result<T, string>, default: T): Result<T, string> {
    if key in data then decode(data[key]) else Ok(default)
  }

  /** `Checkpoint.from_dict(data)`. A key that is not a field raises
      TypeError; a missing field takes its default. The argument is a value,
      so the caller's dictionary is never changed. */
  function FromDict(data: Dict, freshId: string, now: Datetime, tf: TimeFormat): (r: Result<Checkpoint, string>)
    ensures !(data.Keys <= Fields) ==> r.Err?
    ensures r.Ok? && "checkpoint_id" !in data ==> r.value.checkpointId == freshId
    ensures r.Ok? && "timestamp" !in data ==> r.value.timestamp == now
    ensures r.Ok? && "checkpoint_type" !in data ==> r.value.checkpointType == "manual"
    ensures r.Ok? && "name" !in data ==> r.value.name == None
    ensures r.Ok? && "message_count" !in data ==> r.value.messageCount == VInt(0)
    ensures r.Ok? && "conversation_snapshot" !in data ==> r.value.conversationSnapshot == []
    ensures r.Ok? && "session_state" !in data ==> r.value.sessionState == map[]
    ensures r.Ok? && "metadata" !in data ==> r.value.metadata == map[]
    ensures "timestamp" in data && data["timestamp"].VStr? && r.Ok? ==> r.value.timestamp == tf.parse(data["timestamp"].s)
    ensures "timestamp" in data && data["timestamp"].VDatetime? && r.Ok? ==> r.value.timestamp == data["timestamp"].t
    ensures r.Ok? && "message_count" in data ==> r.value.messageCount == data["message_count"]
  {
    if !(data.Keys <= Fields) then Err("unexpected keyword argument")
    else
      var id :- Field(data, "checkpoint_id", AsStr, freshId);
      var ts :- Field(data, "timestamp", v => TimestampOf(v, tf), now);
      var kind :- Field(data, "checkpoint_type", AsStr, "manual");
      var name :- Field(data, "name", AsOptStr, None);
      var snapshot :- Field(data, "conversation_snapshot", AsDictList, []);
      var state :- Field(data, "session_state", AsDict, map[]);
      var meta :- Field(data, "metadata", AsDict, map[]);
      Ok(Checkpoint(id, ts, kind, name, Get(data, "message_count", VInt(0)), snapshot, state, meta))
  }

  /** A checkpoint as it reads back from its dictionary form: the timestamp
      has gone through the default text format and back. */
  function Reloaded(c: Checkpoint, tf: TimeFormat): Checkpoint {
    c.(timestamp := tf.parse(tf.format(c.timestamp)))
  }

  /** `from_dict(to_dict(c))` keeps every field but the timestamp, which is
      reduced to what the default format keeps of it. */
  lemma RoundTrip(c: Checkpoint, freshId: string, now: Datetime, tf: TimeFormat)
    ensures FromDict(ToDict(c, tf), freshId, now, tf) == Ok(Reloaded(c, tf))
  {
    DictListRoundTrip(c.conversationSnapshot);
    var d := ToDict(c, tf);
    assert AsOptStr(d["name"]) == Ok(c.name);
  }
}
