/** The legacy checkpoint tools (src/rollback_agent/tools/checkpoint.py),
    which keep a bounded list of checkpoints inside the agent's
    `session_state`. The agent is the part of an Agno agent the tools see.
    Reading the session's messages, the uuid of a new checkpoint and the
    clock are parameters; Python's `str()` of a value other than a string,
    number, boolean or None is the uninterpreted `show`. */
module CheckpointTools {
  import opened Wrappers
  import opened Values
  import LC = LegacyCheckpoints
  import TimeUtils

  /** A message of the agent's session: role, content and optional time. */
  datatype Message = Message(role: string, content: Value, timestamp: Option<Datetime>)

  /** The agent as the tools see it. `checkpoints` stands for
      `session_state["checkpoints"]`, whose entries are the `to_dict` forms
      of these checkpoints; `sessionState` holds every other key. */
  class Agent {
    const sessionId: string
    const userId: Option<string>
    const hasStorage: bool
    var sessionState: Dict
    var checkpoints: seq<LC.Checkpoint>
    var instructions: seq<string>

    ghost predicate Valid()
      reads this
    {
      "checkpoints" !in sessionState
    }

    /** The whole `session_state`, checkpoints included. */
    function State(tf: TimeFormat): (s: Dict)
      reads this
      ensures s.Keys == sessionState.Keys + {"checkpoints"}
    {
      var cps := checkpoints;
      sessionState["checkpoints" := VList(seq(|cps|, i requires 0 <= i < |cps| => VDict(LC.ToDict(cps[i], tf))))]
    }

    constructor(sessionId: string, userId: Option<string>, hasStorage: bool, sessionState: Dict,
                checkpoints: seq<LC.Checkpoint>, instructions: seq<string>)
      requires "checkpoints" !in sessionState
      ensures Valid()
      ensures this.sessionId == sessionId && this.userId == userId && this.hasStorage == hasStorage
      ensures this.sessionState == sessionState && this.checkpoints == checkpoints
      ensures this.instructions == instructions
    {
      this.sessionId := sessionId;
      this.userId := userId;
      this.hasStorage := hasStorage;
      this.sessionState := sessionState;
      this.checkpoints := checkpoints;
      this.instructions := instructions;
    }
  }

  // ---------------------------------------------------------------------
  // create_checkpoint

  /** One entry of `conversation_history`. */
  function HistoryEntry(m: Message, tf: TimeFormat): Dict {
    map["role" := VStr(m.role), "content" := m.content, "timestamp" := OptIsoValue(m.timestamp, tf)]
  }

  /** `conversation_history`; `None` stands for a read of the messages that
      raised, which the tool turns into an empty history. */
  function History(messages: Option<seq<Message>>, tf: TimeFormat): seq<Dict> {
    match messages
    case None => []
    case Some(ms) => seq(|ms|, i requires 0 <= i < |ms| => HistoryEntry(ms[i], tf))
  }

  /** The checkpoint `create_checkpoint` builds from the current state. */
  function NewCheckpoint(state: Dict, name: Option<string>, kind: string, messages: Option<seq<Message>>,
                         freshId: string, now: Datetime, tf: TimeFormat): (c: LC.Checkpoint)
    ensures "checkpoints" !in c.sessionState && c.sessionState.Keys == state.Keys - {"checkpoints"}
    ensures forall k :: k in c.sessionState ==> c.sessionState[k] == TimeUtils.Serialize(state[k], tf)
    ensures c.name.Some? && c.name.value != ""
    ensures name.Some? && name.value != "" ==> c.name == name
    ensures c.messageCount == (if "message_counter" in state then state["message_counter"] else VInt(0))
    ensures c.checkpointType == kind && c.checkpointId == freshId && c.timestamp == now
    ensures "created_by" in c.metadata && (c.metadata["created_by"] == VStr("user") <==> kind == "manual")
    ensures "conversation_length" in c.metadata && c.metadata["conversation_length"] == VInt(|c.conversationSnapshot|)
  {
    var history := History(messages, tf);
    var title := if name.Some? && name.value != "" then name.value else "Checkpoint at " + tf.format(now);
    LC.Checkpoint(freshId, now, kind, Some(title), Get(state, "message_counter", VInt(0)), history,
                  TimeUtils.SerializeDict(state - {"checkpoints"}, tf),
                  map[ "created_by" := VStr(if kind == "manual" then "user" else "system"),
                       "trigger" := VStr(kind + " checkpoint"),
                       "conversation_length" := VInt(|history|),
                       "user_id" := Get(state, "current_user_id", VNone) ])
  }

  /** `session_state.get("max_checkpoints", 10)` compared with a length: an
      integer or a boolean; anything else makes `>=` raise TypeError. */
  function MaxCheckpoints(state: Dict): Result<int, string> {
    match Get(state, "max_checkpoints", VInt(10))
    case VInt(n) => Ok(n)
    case VBool(b) => Ok(if b then 1 else 0)
    case _ => Err("'>=' not supported")
  }

  /** The list after admitting `c` under the bound `max`: the oldest entry
      goes first when the list is full, and `pop(0)` of an empty list raises. */
  function Admitted(cps: seq<LC.Checkpoint>, max: int, c: LC.Checkpoint): (r: Result<seq<LC.Checkpoint>, string>)
    ensures r.Err? <==> |cps| >= max && cps == []
    ensures r.Ok? ==> |r.value| >= 1 && r.value[|r.value| - 1] == c
    ensures r.Ok? && |cps| < max ==> r.value[..|r.value| - 1] == cps
    ensures r.Ok? && |cps| >= max ==> r.value[..|r.value| - 1] == cps[1..]
  {
    if |cps| >= max then
      if cps == [] then Err("pop from empty list") else Ok(cps[1..] + [c])
    else Ok(cps + [c])
  }

  /** Below the bound the list grows by one; at the bound it keeps its
      length by dropping its oldest entry; either way the new checkpoint is
      last and the bound still holds. */
  lemma AdmittedKeepsBound(cps: seq<LC.Checkpoint>, max: int, c: LC.Checkpoint)
    requires 1 <= max && |cps| <= max
    ensures Admitted(cps, max, c).Ok?
    ensures var r := Admitted(cps, max, c).value;
            && |r| <= max
            && (|cps| < max ==> |r| == |cps| + 1)
            && (|cps| == max ==> |r| == |cps| && r[..max - 1] == cps[1..])
  {
  }

  /** What `create_checkpoint` makes of the list, or the error it raises. */
  function Created(state: Dict, cps: seq<LC.Checkpoint>, c: LC.Checkpoint): Result<seq<LC.Checkpoint>, string> {
    var max :- MaxCheckpoints(state);
    Admitted(cps, max, c)
  }

  function NameText(name: Option<string>): string {
    match name
    case None => "None"
    case Some(s) => s
  }

  /** `s[:8]` */
  function Prefix8(s: string): string {
    if |s| < 8 then s else s[..8]
  }

  function CreatedText(c: LC.Checkpoint): string {
    "\U{2705} Checkpoint created successfully!\nID: " + c.checkpointId + "\nName: " + NameText(c.name)
  }

  /** `create_checkpoint(agent, name, checkpoint_type)` */
  method CreateCheckpoint(agent: Agent, name: Option<string>, kind: string, messages: Option<seq<Message>>,
                          freshId: string, now: Datetime, tf: TimeFormat) returns (r: Result<string, string>)
    requires agent.Valid()
    modifies agent
    ensures agent.Valid()
    ensures agent.sessionState == old(agent.sessionState) && agent.instructions == old(agent.instructions)
    ensures var c := NewCheckpoint(old(agent.sessionState), name, kind, messages, freshId, now, tf);
            var next := Created(old(agent.sessionState), old(agent.checkpoints), c);
            && (r.Ok? <==> next.Ok?)
            && (r.Ok? ==> agent.checkpoints == next.value && r.value == CreatedText(c))
            && (r.Err? ==> agent.checkpoints == old(agent.checkpoints))
  {
    var c := NewCheckpoint(agent.sessionState, name, kind, messages, freshId, now, tf);
    var max := MaxCheckpoints(agent.sessionState);
    if max.Err? {
      return Err(max.error);
    }
    if |agent.checkpoints| >= max.value {
      if agent.checkpoints == [] {
        return Err("pop from empty list");
      }
      agent.checkpoints := agent.checkpoints[1..];
    }
    agent.checkpoints := agent.checkpoints + [c];
    r := Ok(CreatedText(c));
  }

  // ---------------------------------------------------------------------
  // list_checkpoints

  const ListHeader := "\U{1F4CB} Available Checkpoints:\n\n"

  /** The entry of the checkpoint at position `e.0`, as read back by
      `from_dict`. */
  function Entry(e: (nat, LC.Checkpoint), tf: TimeFormat, show: Value -> string): string {
    var c := LC.Reloaded(e.1, tf);
    IntToString(e.0 + 1) + ". " + NameText(c.name) + "\n"
    + "   ID: " + Prefix8(c.checkpointId) + "...\n"
    + "   Type: " + c.checkpointType + "\n"
    + "   Created: " + tf.isoSeconds(c.timestamp) + "\n"
    + "   Messages: " + Str(c.messageCount, show) + "\n\n"
  }

  function EntryOf(tf: TimeFormat, show: Value -> string): ((nat, LC.Checkpoint)) -> string {
    e => Entry(e, tf, show)
  }

  function Numbered(cps: seq<LC.Checkpoint>): seq<(nat, LC.Checkpoint)> {
    seq(|cps|, i requires 0 <= i < |cps| => (i, cps[i]))
  }

  function Listing(cps: seq<LC.Checkpoint>, tf: TimeFormat, show: Value -> string): string {
    if cps == [] then "No checkpoints available."
    else ListHeader + Concat(Numbered(cps), EntryOf(tf, show))
  }

  /** The listing shows the entry of each checkpoint, numbered from 1, between
      those before it and those after it. */
  lemma ListingShowsEach(cps: seq<LC.Checkpoint>, i: int, tf: TimeFormat, show: Value -> string)
    requires 0 <= i < |cps|
    ensures var f := EntryOf(tf, show);
            Listing(cps, tf, show)
            == ListHeader + (Concat(Numbered(cps)[..i], f) + Entry((i, cps[i]), tf, show) + Concat(Numbered(cps)[i + 1..], f))
  {
    var f := EntryOf(tf, show);
    ConcatInPlace(Numbered(cps), i, f);
    assert f(Numbered(cps)[i]) == Entry((i, cps[i]), tf, show);
  }

  /** `list_checkpoints(agent)` */
  method ListCheckpoints(agent: Agent, tf: TimeFormat, show: Value -> string) returns (text: string)
    ensures text == Listing(agent.checkpoints, tf, show)
  {
    var cps := agent.checkpoints;
    if cps == [] {
      return "No checkpoints available.";
    }
    var f := EntryOf(tf, show);
    var numbered := Numbered(cps);
    var body := "";
    var idx := 0;
    while idx < |cps|
      invariant 0 <= idx <= |cps|
      invariant body == Concat(numbered[..idx], f)
    {
      assert numbered[..idx + 1][..idx] == numbered[..idx];
      body := body + f(numbered[idx]);
      idx := idx + 1;
    }
    assert numbered[..idx] == numbered;
    text := ListHeader + body;
  }

  // ---------------------------------------------------------------------
  // Finding a checkpoint by id or id prefix

  /** The test both tools apply: the id equals the argument or starts with it. */
  predicate Matches(c: LC.Checkpoint, arg: string) {
    c.checkpointId == arg || StartsWith(c.checkpointId, arg)
  }

  /** The position of the first matching checkpoint. */
  function FirstMatch(cps: seq<LC.Checkpoint>, arg: string): (r: Option<nat>)
    ensures r.Some? ==> r.value < |cps| && Matches(cps[r.value], arg)
                        && forall j :: 0 <= j < r.value ==> !Matches(cps[j], arg)
    ensures r.None? ==> forall j :: 0 <= j < |cps| ==> !Matches(cps[j], arg)
  {
    if cps == [] then None
    else if Matches(cps[0], arg) then Some(0)
    else match FirstMatch(cps[1..], arg)
      case None => None
      case Some(i) => Some(i + 1)
  }

  /** The `for idx, cp_data in enumerate(checkpoints)` search; -1 when none matches. */
  method FindFirstMatch(cps: seq<LC.Checkpoint>, arg: string) returns (idx: int)
    ensures FirstMatch(cps, arg).None? ==> idx == -1
    ensures FirstMatch(cps, arg).Some? ==> idx == FirstMatch(cps, arg).value
  {
    idx := 0;
    while idx < |cps|
      invariant 0 <= idx <= |cps|
      invariant forall j :: 0 <= j < idx ==> !Matches(cps[j], arg)
    {
      if cps[idx].checkpointId == arg || StartsWith(cps[idx].checkpointId, arg) {
        return;
      }
      idx := idx + 1;
    }
    idx := -1;
  }

  function NotFoundText(arg: string): string {
    "\U{274C} Checkpoint with ID '" + arg + "' not found."
  }

  // ---------------------------------------------------------------------
  // delete_checkpoint

  /** The list without its first match: every other entry stays, in order. */
  function Deleted(cps: seq<LC.Checkpoint>, arg: string): (r: seq<LC.Checkpoint>)
    ensures FirstMatch(cps, arg).None? ==> r == cps
    ensures FirstMatch(cps, arg).Some? ==>
              var i := FirstMatch(cps, arg).value;
              && |r| == |cps| - 1
              && (forall j :: 0 <= j < i ==> r[j] == cps[j])
              && (forall j :: i < j < |cps| ==> r[j - 1] == cps[j])
              && multiset(r) + multiset{cps[i]} == multiset(cps)
  {
    match FirstMatch(cps, arg)
    case None => cps
    case Some(i) =>
      assert cps == cps[..i] + [cps[i]] + cps[i + 1..];
      cps[..i] + cps[i + 1..]
  }

  /** `delete_checkpoint(agent, checkpoint_id)` */
  method DeleteCheckpoint(agent: Agent, arg: string) returns (text: string)
    requires agent.Valid()
    modifies agent
    ensures agent.Valid()
    ensures agent.sessionState == old(agent.sessionState) && agent.instructions == old(agent.instructions)
    ensures agent.checkpoints == Deleted(old(agent.checkpoints), arg)
    ensures match FirstMatch(old(agent.checkpoints), arg)
            case None => text == NotFoundText(arg)
            case Some(i) => text == "\U{2705} Checkpoint '" + NameText(old(agent.checkpoints)[i].name) + "' deleted successfully."
  {
    var cps := agent.checkpoints;
    var idx := FindFirstMatch(cps, arg);
    if idx < 0 {
      return NotFoundText(arg);
    }
    var removed := cps[idx];
    agent.checkpoints := cps[..idx] + cps[idx + 1..];
    text := "\U{2705} Checkpoint '" + NameText(removed.name) + "' deleted successfully.";
  }

  // ---------------------------------------------------------------------
  // rollback_to_checkpoint

  /** The state after copying the snapshot's keys in `keys`, "checkpoints"
      excepted, over `state`. */
  function RestoredFrom(state: Dict, snap: Dict, keys: set<string>): Dict
    requires keys <= snap.Keys
  {
    map k | k in state.Keys + (keys - {"checkpoints"}) ::
      if k in keys && k != "checkpoints" then snap[k] else state[k]
  }

  /** Copying one more key extends the restored state by that key. */
  lemma RestoreStep(state: Dict, snap: Dict, keys: set<string>, k: string)
    requires keys <= snap.Keys && k in snap && k !in keys
    ensures k != "checkpoints" ==> RestoredFrom(state, snap, keys + {k}) == RestoredFrom(state, snap, keys)[k := snap[k]]
    ensures k == "checkpoints" ==> RestoredFrom(state, snap, keys + {k}) == RestoredFrom(state, snap, keys)
  {
  }

  /** `for key, value in checkpoint.session_state.items(): if key != "checkpoints": ...` */
  method RestoreKeys(agent: Agent, snap: Dict)
    requires agent.Valid()
    modifies agent
    ensures agent.Valid()
    ensures agent.sessionState == RestoredFrom(old(agent.sessionState), snap, snap.Keys)
    ensures agent.checkpoints == old(agent.checkpoints) && agent.instructions == old(agent.instructions)
  {
    ghost var start := agent.sessionState;
    var pending := snap.Keys;
    ghost var done: set<string> := {};
    assert RestoredFrom(start, snap, done) == start;
    while pending != {}
      invariant pending !! done && pending + done == snap.Keys
      invariant agent.sessionState == RestoredFrom(start, snap, done)
      invariant agent.Valid()
      invariant agent.checkpoints == old(agent.checkpoints) && agent.instructions == old(agent.instructions)
      decreases pending
    {
      var k :| k in pending;
      RestoreStep(start, snap, done, k);
      if k != "checkpoints" {
        agent.sessionState := agent.sessionState[k := snap[k]];
      }
      pending := pending - {k};
      done := done + {k};
    }
  }

  /** The session state after a rollback to `c`. */
  function RolledBack(state: Dict, c: LC.Checkpoint, sessionId: string, hasStorage: bool): Dict {
    var restored := RestoredFrom(state, c.sessionState, c.sessionState.Keys)
      ["message_counter" := c.messageCount]
      ["rollback_conversation" := DictListValue(c.conversationSnapshot)]
      ["rollback_completed" := VBool(true)];
    if hasStorage then restored["new_session_id" := VStr(sessionId + "_rollback_" + Prefix8(c.checkpointId))]
    else restored
  }

  /** A rollback overwrites the snapshot's keys, keeps every other key,
      never adds "checkpoints", resets the message counter to the
      checkpoint's, and raises `rollback_completed`. */
  lemma RolledBackSpec(state: Dict, c: LC.Checkpoint, sessionId: string, hasStorage: bool)
    requires "checkpoints" !in state
    ensures var r := RolledBack(state, c, sessionId, hasStorage);
            var flags := {"message_counter", "rollback_conversation", "rollback_completed", "new_session_id"};
            && "checkpoints" !in r
            && r.Keys >= state.Keys
            && (forall k :: k in c.sessionState && k != "checkpoints" && k !in flags ==> k in r && r[k] == c.sessionState[k])
            && (forall k :: k in state && k !in c.sessionState && k !in flags ==> r[k] == state[k])
            && r["message_counter"] == c.messageCount
            && r["rollback_completed"] == VBool(true)
            && AsDictList(r["rollback_conversation"]) == Ok(c.conversationSnapshot)
            && (hasStorage ==> r["new_session_id"] == VStr(sessionId + "_rollback_" + Prefix8(c.checkpointId)))
            && (!hasStorage ==> ("new_session_id" in r <==> "new_session_id" in state || "new_session_id" in c.sessionState))
  {
    DictListRoundTrip(c.conversationSnapshot);
  }

  function RolledBackText(c: LC.Checkpoint, show: Value -> string): string {
    "\U{2705} Rollback prepared for checkpoint: " + NameText(c.name) + "\n"
    + "Message count reset to: " + Str(c.messageCount, show) + "\n"
    + "Conversation history will be restored to " + IntToString(|c.conversationSnapshot|) + " messages\n"
    + "\U{1F504} Rollback will complete immediately."
  }

  /** `rollback_to_checkpoint(agent, checkpoint_id)` */
  method RollbackToCheckpoint(agent: Agent, arg: string, show: Value -> string) returns (text: string)
    requires agent.Valid()
    modifies agent
    ensures agent.Valid()
    ensures agent.instructions == old(agent.instructions)
    ensures match FirstMatch(old(agent.checkpoints), arg)
            case None =>
              && text == NotFoundText(arg)
              && agent.sessionState == old(agent.sessionState)
              && agent.checkpoints == old(agent.checkpoints)
            case Some(i) =>
              var c := old(agent.checkpoints)[i];
              && agent.sessionState == RolledBack(old(agent.sessionState), c, agent.sessionId, agent.hasStorage)
              && agent.checkpoints == old(agent.checkpoints)[..i + 1]
              && text == RolledBackText(c, show)
  {
    var cps := agent.checkpoints;
    var idx := FindFirstMatch(cps, arg);
    if idx < 0 {
      return NotFoundText(arg);
    }
    var c := cps[idx];
    RestoreKeys(agent, c.sessionState);
    agent.checkpoints := cps[..idx + 1];
    agent.sessionState := agent.sessionState["message_counter" := c.messageCount];
    agent.sessionState := agent.sessionState["rollback_conversation" := DictListValue(c.conversationSnapshot)];
    agent.sessionState := agent.sessionState["rollback_completed" := VBool(true)];
    if agent.hasStorage {
      agent.sessionState := agent.sessionState["new_session_id" := VStr(agent.sessionId + "_rollback_" + Prefix8(c.checkpointId))];
    }
    text := RolledBackText(c, show);
  }
}
