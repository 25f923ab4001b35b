/** The records and tool specifications of the tool rollback protocol
    (rollback_portocal/protocol.py). A handler is a function of its
    arguments; what a tool does to the world outside is not modelled, and
    a raised exception is an `Err` carrying its message. */
module ToolProtocol {
  import opened Wrappers
  import opened Values
  import RollbackAgents

  /** Tools that stand for logical checkpoints and need no reverse handler. */
  const CheckpointToolNames: set<string> := {
    "save_checkpoint", "checkpoint",
    "create_checkpoint_tool", "list_checkpoints_tool", "rollback_to_checkpoint_tool",
    "delete_checkpoint_tool", "get_checkpoint_info_tool", "cleanup_auto_checkpoints_tool"
  }

  /** A forward handler gets the recorded arguments. */
  type Forward = Dict -> Result<Value, string>

  /** A reverse handler gets the recorded arguments and the forward result. */
  type Reverse = (Dict, Value) -> Result<Value, string>

  /** `ToolSpec`, a frozen dataclass: a value that never changes. */
  datatype ToolSpec = ToolSpec(name: string, forward: Forward, reverse: Option<Reverse>)

  /** `ToolInvocationRecord` (its import-time timestamp left out). */
  datatype ToolInvocationRecord = ToolInvocationRecord(
    toolName: string,
    args: Dict,
    result: Value,
    success: bool,
    errorMessage: Option<string>)

  /** `ReverseInvocationResult` */
  datatype ReverseInvocationResult = ReverseInvocationResult(
    toolName: string,
    reversedSuccessfully: bool,
    errorMessage: Option<string>)

  /** `ToolSpec.validate()`: raises for a tool that is not a checkpoint tool
      and has no reverse handler. */
  function Validate(spec: ToolSpec): Result<(), string> {
    if spec.name !in CheckpointToolNames && spec.reverse.None? then
      Err("Tool '" + spec.name + "' must register a reverse handler unless it is a checkpoint tool.")
    else Ok(())
  }

  /** Validation fails exactly for a non-checkpoint tool without a reverse
      handler; in particular every checkpoint tool of the rollback agent may
      be registered without one. */
  lemma ValidateSpec(spec: ToolSpec)
    ensures Validate(spec).Err? <==> spec.name !in CheckpointToolNames && spec.reverse.None?
    ensures spec.name in RollbackAgents.CheckpointToolNames ==> Validate(spec).Ok?
  {
  }

  /** The agent's six checkpoint tools are all protocol checkpoint tools. */
  lemma AgentToolsAreCheckpointTools()
    ensures RollbackAgents.CheckpointToolNames <= CheckpointToolNames
  {
  }

  /** The record of one call of `name` on `args`: the result on success,
      otherwise no result and the error message. */
  function RecordOf(name: string, args: Dict, outcome: Result<Value, string>): (r: ToolInvocationRecord)
    ensures r.toolName == name && r.args == args
    ensures r.success <==> outcome.Ok?
    ensures r.success ==> r.result == outcome.value && r.errorMessage == None
    ensures !r.success ==> r.result == VNone && r.errorMessage == Some(outcome.error)
  {
    match outcome
    case Ok(v) => ToolInvocationRecord(name, args, v, true, None)
    case Err(e) => ToolInvocationRecord(name, args, VNone, false, Some(e))
  }
}
