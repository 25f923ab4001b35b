/** `RollbackManager` of the legacy framework
    (src/rollback_agent/managers/rollback_manager.py): after a rollback tool
    call it moves the conversation to a new agent that carries the old
    state over, and renders the restored conversation as context text. */
module RollbackManagers {
  import opened Wrappers
  import opened Values
  import TimeUtils
  import LC = LegacyCheckpoints
  import CT = CheckpointTools
  import LA = LegacyAgents

  // ---------------------------------------------------------------------
  // process_conversation_context

  const ContextHeader := "Previous conversation before rollback:"

  /** The capitalised role of a message, when it is a dictionary whose
      role, if present, is a string. */
  function RoleOf(m: Value): (r: Result<string, string>)
    ensures r.Ok? <==> WellFormed(m)
  {
    if !m.VDict? then Err("message is not a dictionary")
    else match Get(m.entries, "role", VStr("unknown"))
      case VStr(r) => Ok(Capitalize(r))
      case _ => Err("role is not a string")
  }

  /** A dictionary whose role, if present, is a string. */
  predicate WellFormed(m: Value) {
    m.VDict? && Get(m.entries, "role", VStr("unknown")).VStr?
  }

  predicate IsSystem(m: Value) {
    RoleOf(m) == Ok("System")
  }

  /** The context line of a message that is not a system message. */
  function LineOf(m: Value, show: Value -> string): string
    requires WellFormed(m)
  {
    RoleOf(m).value + ": " + Str(Get(m.entries, "content", VStr("")), show)
  }

  /** The number of non-system messages. */
  function Kept(msgs: seq<Value>): nat {
    if msgs == [] then 0
    else Kept(msgs[..|msgs| - 1]) + (if IsSystem(msgs[|msgs| - 1]) then 0 else 1)
  }

  /** What one well-formed message adds to the context: nothing for a
      system message, else its line. */
  function Contribution(m: Value, show: Value -> string): seq<string>
    requires WellFormed(m)
  {
    if IsSystem(m) then [] else [LineOf(m, show)]
  }

  /** The lines the loop appends after the header, or the error of the
      first message that is not well formed. */
  function MessageLines(msgs: seq<Value>, show: Value -> string): Result<seq<string>, string> {
    if msgs == [] then Ok([])
    else
      var lines :- MessageLines(msgs[..|msgs| - 1], show);
      var m := msgs[|msgs| - 1];
      if !WellFormed(m) then Err(RoleOf(m).error)
      else Ok(lines + Contribution(m, show))
  }

  /** A successful run over the messages is a successful run over all but
      the last, followed by the last one's contribution. */
  lemma LinesSnoc(msgs: seq<Value>, show: Value -> string)
    requires msgs != [] && MessageLines(msgs, show).Ok?
    ensures var n := |msgs| - 1;
            && MessageLines(msgs[..n], show).Ok? && WellFormed(msgs[n])
            && MessageLines(msgs, show).value == MessageLines(msgs[..n], show).value + Contribution(msgs[n], show)
  {
  }

  /** The loop succeeds on the messages exactly when it succeeds on all but
      the last and the last is well formed. */
  lemma OkStep(msgs: seq<Value>, show: Value -> string)
    requires msgs != []
    ensures MessageLines(msgs, show).Ok? <==>
              MessageLines(msgs[..|msgs| - 1], show).Ok? && WellFormed(msgs[|msgs| - 1])
  {
  }

  /** The loop succeeds exactly when every message is well formed. */
  lemma {:induction false} MessageLinesOk(msgs: seq<Value>, show: Value -> string)
    ensures MessageLines(msgs, show).Ok? <==> forall i :: 0 <= i < |msgs| ==> WellFormed(msgs[i])
  {
    if msgs != [] {
      var n := |msgs| - 1;
      var front := msgs[..n];
      MessageLinesOk(front, show);
      OkStep(msgs, show);
      assert forall i :: 0 <= i < n ==> front[i] == msgs[i];
    }
  }

  /** A successful run yields one line per non-system message. */
  lemma {:induction false} MessageLinesCount(msgs: seq<Value>, show: Value -> string)
    requires MessageLines(msgs, show).Ok?
    ensures |MessageLines(msgs, show).value| == Kept(msgs)
  {
    if msgs != [] {
      LinesSnoc(msgs, show);
      MessageLinesCount(msgs[..|msgs| - 1], show);
    }
  }

  /** The line of each non-system message sits at the position given by
      the number of non-system messages before it. */
  lemma {:induction false} MessageLinesAt(msgs: seq<Value>, show: Value -> string, i: int)
    requires MessageLines(msgs, show).Ok?
    requires 0 <= i < |msgs| && !IsSystem(msgs[i])
    ensures WellFormed(msgs[i])
    ensures var lines := MessageLines(msgs, show).value;
            Kept(msgs[..i]) < |lines| && lines[Kept(msgs[..i])] == LineOf(msgs[i], show)
  {
    var n := |msgs| - 1;
    var front := msgs[..n];
    LinesSnoc(msgs, show);
    if i < n {
      assert msgs[..i] == front[..i] && front[i] == msgs[i];
      MessageLinesAt(front, show, i);
    } else {
      assert msgs[..i] == front;
      MessageLinesCount(front, show);
    }
  }

  /** The messages of the conversation: a list or tuple; iterating anything
      else yields no dictionaries and raises. */
  function MessagesOf(conversation: Value): Result<seq<Value>, string> {
    match conversation
    case VList(xs) => Ok(xs)
    case VTuple(xs) => Ok(xs)
    case _ => Err("not a list of messages")
  }

  /** `process_conversation_context(conversation)` */
  function ProcessConversationContext(conversation: Value, show: Value -> string): Result<string, string> {
    if !Truthy(conversation) then Ok("")
    else
      var msgs :- MessagesOf(conversation);
      var lines :- MessageLines(msgs, show);
      Ok(JoinLines([ContextHeader] + lines))
  }

  /** An empty conversation gives an empty context; a non-empty list of
      well-formed messages gives the header line followed by one line per
      non-system message, in order. */
  lemma ContextSpec(conversation: Value, show: Value -> string)
    ensures !Truthy(conversation) ==> ProcessConversationContext(conversation, show) == Ok("")
    ensures conversation.VList? && conversation.items != []
            && (forall i :: 0 <= i < |conversation.items| ==> WellFormed(conversation.items[i])) ==>
              var lines := MessageLines(conversation.items, show);
              && lines.Ok?
              && |lines.value| == Kept(conversation.items)
              && ProcessConversationContext(conversation, show) == Ok(JoinLines([ContextHeader] + lines.value))
  {
    if conversation.VList? {
      MessageLinesOk(conversation.items, show);
      if MessageLines(conversation.items, show).Ok? {
        MessageLinesCount(conversation.items, show);
      }
    }
  }

  /** `len(v)`, which raises for values without a length. */
  function Len(v: Value): Result<nat, string> {
    match v
    case VList(xs) => Ok(|xs|)
    case VTuple(xs) => Ok(|xs|)
    case VStr(s) => Ok(|s|)
    case VDict(m) => Ok(|m.Keys|)
    case _ => Err("object has no len()")
  }

  // ---------------------------------------------------------------------
  // handle_rollback

  /** The rollback flags that do not carry over to the new agent. */
  const RollbackFlags: set<string> := {"rollback_completed", "rollback_conversation", "new_session_id"}

  /** The new agent's state after `base` and the old state's keys in `keys`,
      flags excepted, serialised. */
  function CarriedFrom(base: Dict, prior: Dict, keys: set<string>, tf: TimeFormat): Dict
    requires keys <= prior.Keys
  {
    map k | k in base.Keys + (keys - RollbackFlags) ::
      if k in keys && k !in RollbackFlags then TimeUtils.Serialize(prior[k], tf) else base[k]
  }

  /** A conversation snapshot as `serialize_datetimes` leaves it. */
  function SerializedHistory(h: seq<Dict>, tf: TimeFormat): (r: seq<Dict>)
    ensures |r| == |h|
  {
    seq(|h|, i requires 0 <= i < |h| => TimeUtils.SerializeDict(h[i], tf))
  }

  /** A checkpoint as `serialize_datetimes` leaves its dictionary form. */
  function SerializedCheckpoint(c: LC.Checkpoint, tf: TimeFormat): LC.Checkpoint {
    c.(messageCount := TimeUtils.Serialize(c.messageCount, tf),
       conversationSnapshot := SerializedHistory(c.conversationSnapshot, tf),
       sessionState := TimeUtils.SerializeDict(c.sessionState, tf),
       metadata := TimeUtils.SerializeDict(c.metadata, tf))
  }

  /** Serialising a list of dictionaries serialises each dictionary. */
  lemma HistorySerialized(h: seq<Dict>, tf: TimeFormat)
    ensures TimeUtils.Serialize(DictListValue(h), tf) == DictListValue(SerializedHistory(h, tf))
  {
    var v := DictListValue(h);
    var s := TimeUtils.Serialize(v, tf);
    var e := DictListValue(SerializedHistory(h, tf));
    TimeUtils.SerializeShape(v, tf);
    forall i | 0 <= i < |h| ensures s.items[i] == e.items[i] {
      assert v.items[i] == VDict(h[i]);
    }
  }

  /** Serialising the dictionary form of a checkpoint is the dictionary form
      of the serialised checkpoint, so the typed list stays exact. */
  lemma SerializedCheckpointForm(c: LC.Checkpoint, tf: TimeFormat)
    ensures TimeUtils.SerializeDict(LC.ToDict(c, tf), tf) == LC.ToDict(SerializedCheckpoint(c, tf), tf)
  {
    var m0: Dict := map[];
    var m1 := m0["checkpoint_id" := VStr(c.checkpointId)];
    var m2 := m1["timestamp" := VStr(tf.format(c.timestamp))];
    var m3 := m2["checkpoint_type" := VStr(c.checkpointType)];
    var m4 := m3["name" := OptStrValue(c.name)];
    var m5 := m4["message_count" := c.messageCount];
    var m6 := m5["conversation_snapshot" := DictListValue(c.conversationSnapshot)];
    var m7 := m6["session_state" := VDict(c.sessionState)];
    var m8 := m7["metadata" := VDict(c.metadata)];
    assert LC.ToDict(c, tf) == m8;
    TimeUtils.SerializeDictUpdate(m0, "checkpoint_id", VStr(c.checkpointId), tf);
    TimeUtils.SerializeDictUpdate(m1, "timestamp", VStr(tf.format(c.timestamp)), tf);
    TimeUtils.SerializeDictUpdate(m2, "checkpoint_type", VStr(c.checkpointType), tf);
    TimeUtils.SerializeDictUpdate(m3, "name", OptStrValue(c.name), tf);
    TimeUtils.SerializeDictUpdate(m4, "message_count", c.messageCount, tf);
    TimeUtils.SerializeDictUpdate(m5, "conversation_snapshot", DictListValue(c.conversationSnapshot), tf);
    TimeUtils.SerializeDictUpdate(m6, "session_state", VDict(c.sessionState), tf);
    TimeUtils.SerializeDictUpdate(m7, "metadata", VDict(c.metadata), tf);
    assert TimeUtils.SerializeDict(m0, tf) == map[];
    HistorySerialized(c.conversationSnapshot, tf);
    assert TimeUtils.Serialize(OptStrValue(c.name), tf) == OptStrValue(c.name) by {
      match c.name {
        case None =>
        case Some(_) =>
      }
    }
    var sc := SerializedCheckpoint(c, tf);
    assert LC.ToDict(sc, tf) ==
      m0["checkpoint_id" := VStr(c.checkpointId)]
        ["timestamp" := VStr(tf.format(c.timestamp))]
        ["checkpoint_type" := VStr(c.checkpointType)]
        ["name" := OptStrValue(c.name)]
        ["message_count" := sc.messageCount]
        ["conversation_snapshot" := DictListValue(sc.conversationSnapshot)]
        ["session_state" := VDict(sc.sessionState)]
        ["metadata" := VDict(sc.metadata)];
  }

  /** What `handle_rollback` returns besides the new agent. */
  datatype RollbackInfo = RollbackInfo(
    agent: CT.Agent,
    newSessionId: Value,
    conversationRestored: nat,
    context: string,
    oldSessionId: string)

  /** The new agent's state before the old keys are copied: the factory's
      initial state plus the three metadata keys. */
  function Base(currentUserId: int, oldSessionId: string): (d: Dict)
    ensures "checkpoints" !in d
  {
    assert |"checkpoints"| == 11;
    LA.InitialState(5, 10)
      ["current_user_id" := VInt(currentUserId)]
      ["parent_session_id" := VStr(oldSessionId)]
      ["needs_parent_update" := VBool(true)]
  }

  /** The new agent's whole state apart from its checkpoints. */
  function NewState(prior: Dict, currentUserId: int, oldSessionId: string, context: string, tf: TimeFormat): Dict {
    CarriedFrom(Base(currentUserId, oldSessionId), prior, prior.Keys, tf)["restored_conversation_context" := VStr(context)]
  }

  /** The flags are gone, so the new agent has no rollback pending;
      "checkpoints" stays out of the typed state; the restored context is
      stored. */
  lemma NewStateSpec(prior: Dict, currentUserId: int, oldSessionId: string, context: string, tf: TimeFormat)
    requires "checkpoints" !in prior
    ensures var s := NewState(prior, currentUserId, oldSessionId, context, tf);
            && "checkpoints" !in s
            && (forall k :: k in RollbackFlags ==> k !in s)
            && !Truthy(Get(s, "rollback_completed", VNone))
            && s["restored_conversation_context"] == VStr(context)
  {
  }

  /** Every old key other than the rollback flags is carried over,
      serialised, after the metadata keys are set, so an old key of the
      same name wins. */
  lemma NewStateCarries(prior: Dict, currentUserId: int, oldSessionId: string, context: string, tf: TimeFormat)
    ensures var s := NewState(prior, currentUserId, oldSessionId, context, tf);
            && (forall k :: k in prior && k !in RollbackFlags && k != "restored_conversation_context" ==>
                  k in s && s[k] == TimeUtils.Serialize(prior[k], tf))
            && ("current_user_id" !in prior ==> s["current_user_id"] == VInt(currentUserId))
            && ("parent_session_id" !in prior ==> s["parent_session_id"] == VStr(oldSessionId))
            && ("needs_parent_update" !in prior ==> s["needs_parent_update"] == VBool(true))
  {
  }

  /** `agent.session_state[key] = serialize_datetimes(value)` for one old
      key, the rollback flags skipped. */
  function Copied(state: Dict, prior: Dict, k: string, tf: TimeFormat): (r: Dict)
    requires k in prior
    ensures k !in RollbackFlags ==> r == state[k := TimeUtils.Serialize(prior[k], tf)]
    ensures k in RollbackFlags ==> r == state
  {
    if k in RollbackFlags then state else state[k := TimeUtils.Serialize(prior[k], tf)]
  }

  /** Copying one more old key extends the carried state by that key. */
  lemma CarryStep(base: Dict, prior: Dict, keys: set<string>, k: string, tf: TimeFormat)
    requires keys <= prior.Keys && k in prior && k !in keys
    ensures CarriedFrom(base, prior, keys + {k}, tf) == Copied(CarriedFrom(base, prior, keys, tf), prior, k, tf)
  {
  }

  /** The id the factory receives: `session_state.get("new_session_id",
      "rollback_session")`, then `session_id or <timestamped default>`. */
  function NewAgentSessionId(v: Value): Result<Option<string>, string> {
    if !Truthy(v) then Ok(None)
    else if v.VStr? then Ok(Some(v.s))
    else Err("session id is not a string")
  }

  /** The `for key, value in old_session_state.items()` copy into `agent`. */
  method CarryOver(agent: CT.Agent, prior: Dict, tf: TimeFormat)
    requires agent.Valid() && "checkpoints" !in prior
    modifies agent
    ensures agent.Valid()
    ensures agent.sessionState == CarriedFrom(old(agent.sessionState), prior, prior.Keys, tf)
    ensures agent.checkpoints == old(agent.checkpoints) && agent.instructions == old(agent.instructions)
  {
    agent.sessionState := CopyKeys(agent.sessionState, prior, tf);
  }

  /** The copy loop itself: each old key other than the rollback flags is
      set, serialised, one key at a time. */
  method CopyKeys(start: Dict, prior: Dict, tf: TimeFormat) returns (state: Dict)
    requires "checkpoints" !in start && "checkpoints" !in prior
    ensures state == CarriedFrom(start, prior, prior.Keys, tf)
    ensures "checkpoints" !in state
  {
    state := start;
    var pending := prior.Keys;
    ghost var done: set<string> := {};
    assert CarriedFrom(start, prior, done, tf) == state;
    while pending != {}
      invariant pending !! done && pending + done == prior.Keys
      invariant state == CarriedFrom(start, prior, done, tf)
      invariant "checkpoints" !in state
      decreases pending
    {
      var k :| k in pending;
      CarryStep(start, prior, done, k, tf);
      state := Copied(state, prior, k, tf);
      pending := pending - {k};
      done := done + {k};
    }
    assert done == prior.Keys;
  }

  /** The agent `handle_rollback` builds: the factory's agent under the new
      id, its metadata keys set, the old state and checkpoints copied in and
      the restored context stored. */
  method NewAgent(sessionId: Option<string>, currentUserId: int, prior: Dict, cps: seq<LC.Checkpoint>,
                  oldSessionId: string, context: string, now: Datetime, tf: TimeFormat) returns (a: CT.Agent)
    requires "checkpoints" !in prior
    ensures fresh(a) && a.Valid()
    ensures a.sessionId == LA.AgentSessionId(sessionId, now, tf) && a.userId == Some(IntToString(currentUserId))
    ensures a.sessionState == NewState(prior, currentUserId, oldSessionId, context, tf)
    ensures |a.checkpoints| == |cps|
    ensures forall i :: 0 <= i < |cps| ==> a.checkpoints[i] == SerializedCheckpoint(cps[i], tf)
  {
    a := Factory(sessionId, Some(IntToString(currentUserId)), now, tf);
    Furnish(a, currentUserId, prior, cps, oldSessionId, context, tf);
  }

  /** `create_rollback_agent` as `handle_rollback` calls it: checkpoints
      every 5 exchanges, at most 10 kept. */
  method Factory(sessionId: Option<string>, userId: Option<string>, now: Datetime, tf: TimeFormat)
    returns (a: CT.Agent)
    ensures fresh(a) && a.Valid()
    ensures a.sessionId == LA.AgentSessionId(sessionId, now, tf) && a.userId == userId
    ensures a.sessionState == LA.InitialState(5, 10)
  {
    a := LA.CreateRollbackAgent(sessionId, userId, 5, 10, now, tf);
  }

  /** The steps after the factory call: the metadata keys, the old state,
      the serialised checkpoints and the restored context. */
  method Furnish(a: CT.Agent, currentUserId: int, prior: Dict, cps: seq<LC.Checkpoint>,
                 oldSessionId: string, context: string, tf: TimeFormat)
    requires a.Valid() && a.sessionState == LA.InitialState(5, 10) && "checkpoints" !in prior
    modifies a
    ensures a.Valid()
    ensures a.sessionState == NewState(prior, currentUserId, oldSessionId, context, tf)
    ensures |a.checkpoints| == |cps|
    ensures forall i :: 0 <= i < |cps| ==> a.checkpoints[i] == SerializedCheckpoint(cps[i], tf)
  {
    a.sessionState := a.sessionState["current_user_id" := VInt(currentUserId)];
    a.sessionState := a.sessionState["parent_session_id" := VStr(oldSessionId)];
    a.sessionState := a.sessionState["needs_parent_update" := VBool(true)];
    assert a.sessionState == Base(currentUserId, oldSessionId);
    CarryOver(a, prior, tf);
    a.checkpoints := seq(|cps|, i requires 0 <= i < |cps| => SerializedCheckpoint(cps[i], tf));
    assert |"checkpoints"| == 11;
    a.sessionState := a.sessionState["restored_conversation_context" := VStr(context)];
  }

  /** `RollbackManager.handle_rollback(agent, current_user_id)`: None unless
      the old agent completed a rollback; otherwise a new agent under the
      new session id that carries the old state, or the error raised on the
      way. The old agent is not changed. */
  method HandleRollback(agent: CT.Agent, currentUserId: int, now: Datetime, tf: TimeFormat, show: Value -> string)
      returns (r: Result<Option<RollbackInfo>, string>)
    requires agent.Valid()
    ensures !Truthy(Get(agent.sessionState, "rollback_completed", VNone)) ==> r == Ok(None)
    ensures r.Ok? && r.value.Some? ==>
              var info := r.value.value;
              var prior := agent.sessionState;
              var conversation := Get(prior, "rollback_conversation", VList([]));
              && Truthy(Get(prior, "rollback_completed", VNone))
              && fresh(info.agent) && info.agent.Valid()
              && info.newSessionId == Get(prior, "new_session_id", VStr("rollback_session"))
              && NewAgentSessionId(info.newSessionId).Ok?
              && info.agent.sessionId == LA.AgentSessionId(NewAgentSessionId(info.newSessionId).value, now, tf)
              && info.agent.userId == Some(IntToString(currentUserId))
              && ProcessConversationContext(conversation, show) == Ok(info.context)
              && Len(conversation) == Ok(info.conversationRestored)
              && info.oldSessionId == agent.sessionId
              && info.agent.sessionState == NewState(prior, currentUserId, agent.sessionId, info.context, tf)
              && |info.agent.checkpoints| == |agent.checkpoints|
              && (forall i :: 0 <= i < |agent.checkpoints| ==>
                    info.agent.checkpoints[i] == SerializedCheckpoint(agent.checkpoints[i], tf))
  {
    var prior := agent.sessionState;
    if !Truthy(Get(prior, "rollback_completed", VNone)) {
      return Ok(None);
    }
    var newSessionId := Get(prior, "new_session_id", VStr("rollback_session"));
    var conversation := Get(prior, "rollback_conversation", VList([]));
    var oldSessionId := agent.sessionId;
    var sid := NewAgentSessionId(newSessionId);
    if sid.Err? {
      return Err(sid.error);
    }
    var context := ProcessConversationContext(conversation, show);
    if context.Err? {
      return Err(context.error);
    }
    var newAgent := NewAgent(sid.value, currentUserId, prior, agent.checkpoints, oldSessionId, context.value, now, tf);
    var restored := Len(conversation);
    if restored.Err? {
      return Err(restored.error);
    }
    r := Ok(Some(RollbackInfo(newAgent, newSessionId, restored.value, context.value, oldSessionId)));
  }
}
