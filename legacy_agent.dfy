/** The legacy agent factory and its tool hook (src/rollback_agent/agent.py).
    The language model, its tools and storage are not modelled; the agent is
    the state the checkpoint tools see. The base-URL sanitiser nested in the
    factory is the same code as the service's sanitiser as written, and is
    modelled by `AgentServices.SanitizeAsWritten`. */
module LegacyAgents {
  import opened Wrappers
  import opened Values
  import opened Instructions
  import CT = CheckpointTools

  /** `CHECKPOINT_TOOL_NAMES` of the legacy agent: its four checkpoint tools. */
  const CheckpointToolNames: set<string> :=
    {"create_checkpoint", "list_checkpoints", "delete_checkpoint", "rollback_to_checkpoint"}

  /** The initial `session_state` apart from its empty "checkpoints" list. */
  function InitialState(interval: int, max: int): (d: Dict)
    ensures "checkpoints" !in d
  {
    assert |"checkpoints"| == 11;
    map[ "message_counter" := VInt(0),
         "auto_checkpoint_interval" := VInt(interval),
         "max_checkpoints" := VInt(max),
         "restored_conversation_context" := VStr("") ]
  }

  /** The session id of a new agent: the given one unless it is empty, else
      one stamped with the formatted current time. */
  function AgentSessionId(sessionId: Option<string>, now: Datetime, tf: TimeFormat): string {
    if sessionId.Some? && sessionId.value != "" then sessionId.value
    else "rollback_session_" + tf.format(now)
  }

  /** `create_rollback_agent(session_id, user_id, ..., auto_checkpoint_interval, max_checkpoints)` */
  method CreateRollbackAgent(sessionId: Option<string>, userId: Option<string>, interval: int, max: int,
                             now: Datetime, tf: TimeFormat) returns (agent: CT.Agent)
    ensures fresh(agent) && agent.Valid()
    ensures agent.sessionId == AgentSessionId(sessionId, now, tf) && agent.userId == userId
    ensures agent.hasStorage
    ensures agent.sessionState == InitialState(interval, max) && agent.checkpoints == []
    ensures agent.instructions == ComposeInstructions(InstructionContext(interval, max, 0, [], ""), true)
  {
    var ctx := InstructionContext(interval, max, 0, [], "");
    agent := new CT.Agent(AgentSessionId(sessionId, now, tf), userId, true, InitialState(interval, max),
                          [], ComposeInstructions(ctx, true));
  }

  /** On a new agent's state every checkpoint creation succeeds while the
      list is within the configured bound, and the bound keeps holding: the
      hook never has an error to swallow until the state is changed. */
  lemma FreshStateAdmits(interval: int, max: int, cps: seq<CT.LC.Checkpoint>, c: CT.LC.Checkpoint)
    requires 1 <= max && |cps| <= max
    ensures CT.MaxCheckpoints(InitialState(interval, max)) == Ok(max)
    ensures CT.Created(InitialState(interval, max), cps, c).Ok?
    ensures |CT.Created(InitialState(interval, max), cps, c).value| <= max
  {
    assert Get(InitialState(interval, max), "max_checkpoints", VInt(10)) == VInt(max);
    CT.AdmittedKeepsBound(cps, max, c);
  }

  /** `"Auto checkpoint after: " + function_name` */
  function AutoName(functionName: string): string {
    "Auto checkpoint after: " + functionName
  }

  /** `auto_checkpoint_hook`: `toolResult` is what the tool call returned or
      raised. A raised error propagates and nothing is created; otherwise a
      non-checkpoint tool is followed by an "auto" checkpoint, whose own
      failure is swallowed, and the tool's result is returned unchanged. */
  method AutoCheckpointHook(agent: CT.Agent, functionName: string, toolResult: Result<Value, string>,
                            messages: Option<seq<CT.Message>>, freshId: string, now: Datetime, tf: TimeFormat)
      returns (r: Result<Value, string>)
    requires agent.Valid()
    modifies agent
    ensures r == toolResult
    ensures agent.Valid()
    ensures agent.sessionState == old(agent.sessionState) && agent.instructions == old(agent.instructions)
    ensures toolResult.Err? || functionName in CheckpointToolNames ==> agent.checkpoints == old(agent.checkpoints)
    ensures toolResult.Ok? && functionName !in CheckpointToolNames ==>
              var c := CT.NewCheckpoint(old(agent.sessionState), Some(AutoName(functionName)), "auto", messages, freshId, now, tf);
              var next := CT.Created(old(agent.sessionState), old(agent.checkpoints), c);
              agent.checkpoints == (if next.Ok? then next.value else old(agent.checkpoints))
  {
    if toolResult.Err? {
      return toolResult;
    }
    if functionName !in CheckpointToolNames {
      var _ := CT.CreateCheckpoint(agent, Some(AutoName(functionName)), "auto", messages, freshId, now, tf);
    }
    r := toolResult;
  }

  /** The automatic checkpoint is of type "auto", carries the tool's name and
      is recorded as made by the system. */
  lemma AutoCheckpointShape(state: Dict, functionName: string, messages: Option<seq<CT.Message>>,
                            freshId: string, now: Datetime, tf: TimeFormat)
    ensures var c := CT.NewCheckpoint(state, Some(AutoName(functionName)), "auto", messages, freshId, now, tf);
            && c.checkpointType == "auto"
            && c.name == Some(AutoName(functionName))
            && c.metadata["created_by"] == VStr("system")
            && c.metadata["trigger"] == VStr("auto checkpoint")
  {
  }
}
