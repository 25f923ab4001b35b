/** A snapshot of an internal session's state and history
    (src/checkpoints/checkpoint.py). */
module Checkpoints {
  import opened Wrappers
  import opened Values
  import InternalSessions

  datatype Checkpoint = Checkpoint(
    id: Option<int>,
    internalSessionId: int,
    checkpointName: Option<string>,
    sessionState: Dict,
    history: seq<Dict>,
    isAuto: bool,
    createdAt: Option<Datetime>,
    metadata: Dict)

  /** The dataclass defaults. */
  const Default := Checkpoint(None, 0, None, map[], [], false, None, map[])

  function ToDict(c: Checkpoint, tf: TimeFormat): Dict {
    map[
      "id" := OptIntValue(c.id),
      "internal_session_id" := VInt(c.internalSessionId),
      "checkpoint_name" := OptStrValue(c.checkpointName),
      "session_state" := VDict(c.sessionState),
      "conversation_history" := DictListValue(c.history),
      "is_auto" := VBool(c.isAuto),
      "created_at" := OptIsoValue(c.createdAt, tf),
      "metadata" := VDict(c.metadata)
    ]
  }

  /** `from_dict`: each missing key takes the dataclass default; a value of
      the wrong type is rejected. */
  function FromDict(data: Dict, tf: TimeFormat): (r: Result<Checkpoint, string>)
    ensures data == map[] ==> r == Ok(Default)
    ensures r.Ok? && "id" !in data ==> r.value.id == None
    ensures r.Ok? && "internal_session_id" !in data ==> r.value.internalSessionId == 0
    ensures r.Ok? && "session_state" !in data ==> r.value.sessionState == map[]
    ensures r.Ok? && "conversation_history" !in data ==> r.value.history == []
    ensures r.Ok? && "is_auto" !in data ==> !r.value.isAuto
    ensures r.Ok? && "created_at" !in data ==> r.value.createdAt == None
  {
    var id :- AsOptInt(Get(data, "id", VNone));
    var internalSessionId :- AsInt(Get(data, "internal_session_id", VInt(0)));
    var name :- AsOptStr(Get(data, "checkpoint_name", VNone));
    var sessionState :- AsDict(Get(data, "session_state", VDict(map[])));
    var history :- AsDictList(Get(data, "conversation_history", VList([])));
    var isAuto :- AsBool(Get(data, "is_auto", VBool(false)));
    var metadata :- AsDict(Get(data, "metadata", VDict(map[])));
    var createdAt :- AsOptIso(Get(data, "created_at", VNone), tf);
    Ok(Checkpoint(id, internalSessionId, name, sessionState, history, isAuto, createdAt, metadata))
  }

  lemma RoundTrip(c: Checkpoint, tf: TimeFormat)
    requires IsoRoundTrips(tf)
    ensures FromDict(ToDict(c, tf), tf) == Ok(c)
  {
    LeadingFields(c, tf);
    TrailingFields(c, tf);
    DictListRoundTrip(c.history);
    OptIsoRoundTrip(c.createdAt, tf);
  }

  /** What `from_dict` reads back from the first four keys of `to_dict()`. */
  lemma LeadingFields(c: Checkpoint, tf: TimeFormat)
    ensures var d := ToDict(c, tf);
            && Get(d, "id", VNone) == OptIntValue(c.id)
            && Get(d, "internal_session_id", VInt(0)) == VInt(c.internalSessionId)
            && Get(d, "checkpoint_name", VNone) == OptStrValue(c.checkpointName)
            && Get(d, "session_state", VDict(map[])) == VDict(c.sessionState)
  {
  }

  /** What `from_dict` reads back from the last four keys of `to_dict()`. */
  lemma TrailingFields(c: Checkpoint, tf: TimeFormat)
    ensures var d := ToDict(c, tf);
            && Get(d, "conversation_history", VList([])) == DictListValue(c.history)
            && Get(d, "is_auto", VBool(false)) == VBool(c.isAuto)
            && Get(d, "metadata", VDict(map[])) == VDict(c.metadata)
            && Get(d, "created_at", VNone) == OptIsoValue(c.createdAt, tf)
  {
  }

  /** `from_internal_session`: a snapshot of the session's state and history
      stamped `now`, recording the Agno session id and the session's
      checkpoint count plus one. Every caller checks first that the session
      has an id. */
  function FromInternalSession(s: InternalSessions.InternalSessionData, name: Option<string>,
                               isAuto: bool, now: Datetime): (c: Checkpoint)
    requires s.id.Some?
    ensures c.id == None && c.internalSessionId == s.id.value
    ensures c.sessionState == s.sessionState && c.history == s.history
    ensures c.checkpointName == name && c.isAuto == isAuto && c.createdAt == Some(now)
    ensures c.metadata == map["agno_session_id" := VStr(s.agnoSessionId),
                              "checkpoint_count" := VInt(s.checkpointCount + 1)]
  {
    Checkpoint(None, s.id.value, name, s.sessionState, s.history, isAuto, Some(now),
               map["agno_session_id" := VStr(s.agnoSessionId),
                   "checkpoint_count" := VInt(s.checkpointCount + 1)])
  }
}
