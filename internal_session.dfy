/** One line of conversation under an external session: its Agno session
    id, state dictionary, append-only history, `is_current` flag and
    checkpoint counter (src/sessions/internal_session.py). */
module InternalSessions {
  import opened Wrappers
  import opened Values

  /** The fields of an `InternalSession`, as a value; this is what a row of
      the internal sessions table holds. */
  datatype InternalSessionData = InternalSessionData(
    id: Option<int>,
    externalSessionId: int,
    agnoSessionId: string,
    sessionState: Dict,
    history: seq<Dict>,
    createdAt: Option<Datetime>,
    isCurrent: bool,
    checkpointCount: int)

  /** The dataclass defaults: no id, parent 0, current, no checkpoints. */
  const Default := InternalSessionData(None, 0, "", map[], [], None, true, 0)

  /** The history entry `add_message` builds: role, content and timestamp,
      then the extra keyword fields, which may override the timestamp. Python
      refuses a second `role` or `content` keyword, hence the precondition. */
  function Message(role: string, content: string, timestamp: string, extra: Dict): (m: Dict)
    requires "role" !in extra && "content" !in extra
    ensures m.Keys == {"role", "content", "timestamp"} + extra.Keys
    ensures m["role"] == VStr(role) && m["content"] == VStr(content)
    ensures m["timestamp"] == if "timestamp" in extra then extra["timestamp"] else VStr(timestamp)
    ensures forall k :: k in extra ==> m[k] == extra[k]
  {
    map["role" := VStr(role), "content" := VStr(content), "timestamp" := VStr(timestamp)] + extra
  }

  /** `state.update(changes)`: every key of `changes` takes its new value,
      every other key keeps its old one, and no key disappears. */
  function Merged(state: Dict, changes: Dict): (r: Dict)
    ensures r.Keys == state.Keys + changes.Keys
    ensures forall k :: k in changes ==> r[k] == changes[k]
    ensures forall k :: k in state && k !in changes ==> r[k] == state[k]
  {
    state + changes
  }

  function ToDict(d: InternalSessionData, tf: TimeFormat): Dict {
    map[
      "id" := OptIntValue(d.id),
      "external_session_id" := VInt(d.externalSessionId),
      "agno_session_id" := VStr(d.agnoSessionId),
      "session_state" := VDict(d.sessionState),
      "conversation_history" := DictListValue(d.history),
      "created_at" := OptIsoValue(d.createdAt, tf),
      "is_current" := VBool(d.isCurrent),
      "checkpoint_count" := VInt(d.checkpointCount)
    ]
  }

  /** `from_dict`: each missing key takes the dataclass default; a value of
      the wrong type is rejected. */
  function FromDict(data: Dict, tf: TimeFormat): (r: Result<InternalSessionData, string>)
    ensures data == map[] ==> r == Ok(Default)
    ensures r.Ok? && "id" !in data ==> r.value.id == None
    ensures r.Ok? && "external_session_id" !in data ==> r.value.externalSessionId == 0
    ensures r.Ok? && "session_state" !in data ==> r.value.sessionState == map[]
    ensures r.Ok? && "conversation_history" !in data ==> r.value.history == []
    ensures r.Ok? && "is_current" !in data ==> r.value.isCurrent
    ensures r.Ok? && "checkpoint_count" !in data ==> r.value.checkpointCount == 0
    ensures r.Ok? && "created_at" !in data ==> r.value.createdAt == None
  {
    var id :- AsOptInt(Get(data, "id", VNone));
    var externalSessionId :- AsInt(Get(data, "external_session_id", VInt(0)));
    var agnoSessionId :- AsStr(Get(data, "agno_session_id", VStr("")));
    var sessionState :- AsDict(Get(data, "session_state", VDict(map[])));
    var history :- AsDictList(Get(data, "conversation_history", VList([])));
    var isCurrent :- AsBool(Get(data, "is_current", VBool(true)));
    var checkpointCount :- AsInt(Get(data, "checkpoint_count", VInt(0)));
    var createdAt :- AsOptIso(Get(data, "created_at", VNone), tf);
    Ok(InternalSessionData(id, externalSessionId, agnoSessionId, sessionState, history,
                           createdAt, isCurrent, checkpointCount))
  }

  lemma RoundTrip(d: InternalSessionData, tf: TimeFormat)
    requires IsoRoundTrips(tf)
    ensures FromDict(ToDict(d, tf), tf) == Ok(d)
  {
    DictListRoundTrip(d.history);
    OptIsoRoundTrip(d.createdAt, tf);
  }

  /** The live session object the agent mutates. */
  class InternalSession {
    var id: Option<int>
    var externalSessionId: int
    var agnoSessionId: string
    var sessionState: Dict
    var history: seq<Dict>
    var createdAt: Option<Datetime>
    var isCurrent: bool
    var checkpointCount: int

    function Data(): InternalSessionData
      reads this
    {
      InternalSessionData(id, externalSessionId, agnoSessionId, sessionState, history,
                          createdAt, isCurrent, checkpointCount)
    }

    constructor (d: InternalSessionData)
      ensures Data() == d
    {
      id := d.id;
      externalSessionId := d.externalSessionId;
      agnoSessionId := d.agnoSessionId;
      sessionState := d.sessionState;
      history := d.history;
      createdAt := d.createdAt;
      isCurrent := d.isCurrent;
      checkpointCount := d.checkpointCount;
    }

    /** `add_message`: exactly one entry is appended; earlier entries and all
        other fields stay as they were. */
    method AddMessage(role: string, content: string, extra: Dict, now: Datetime, tf: TimeFormat)
      requires "role" !in extra && "content" !in extra
      modifies this
      ensures history == old(history) + [Message(role, content, tf.iso(now), extra)]
      ensures Data() == old(Data()).(history := history)
    {
      history := history + [Message(role, content, tf.iso(now), extra)];
    }

    /** `update_state`: merges `changes` into the state in place. */
    method UpdateState(changes: Dict)
      modifies this
      ensures sessionState == Merged(old(sessionState), changes)
      ensures Data() == old(Data()).(sessionState := sessionState)
    {
      sessionState := Merged(sessionState, changes);
    }

    /** Copies every field of `d` into the object. */
    method Assign(d: InternalSessionData)
      modifies this
      ensures Data() == d
    {
      id := d.id;
      externalSessionId := d.externalSessionId;
      agnoSessionId := d.agnoSessionId;
      sessionState := d.sessionState;
      history := d.history;
      createdAt := d.createdAt;
      isCurrent := d.isCurrent;
      checkpointCount := d.checkpointCount;
    }
  }
}
