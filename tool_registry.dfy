/** `ToolRollbackRegistry` (rollback_portocal/registry.py): registered tool
    specifications and the track of recorded invocations, undone
    newest-first and redone oldest-first. */
module ToolRegistry {
  import opened Wrappers
  import opened Values
  import opened ToolProtocol

  const NoReverse := "No reverse handler registered"

  /** What undoing one record yields: nothing for a checkpoint tool, a
      failure when no reverse handler is registered, else the outcome of
      the reverse handler. */
  function ReversalOf(rec: ToolInvocationRecord, tools: map<string, ToolSpec>): seq<ReverseInvocationResult> {
    if rec.toolName in CheckpointToolNames then []
    else if rec.toolName !in tools || tools[rec.toolName].reverse.None? then
      [ReverseInvocationResult(rec.toolName, false, Some(NoReverse))]
    else match tools[rec.toolName].reverse.value(rec.args, rec.result)
      case Ok(_) => [ReverseInvocationResult(rec.toolName, true, None)]
      case Err(e) => [ReverseInvocationResult(rec.toolName, false, Some(e))]
  }

  /** The results of undoing `track`, newest record first. */
  function Reversals(track: seq<ToolInvocationRecord>, tools: map<string, ToolSpec>): seq<ReverseInvocationResult> {
    if track == [] then [] else Reversals(track[1..], tools) + ReversalOf(track[0], tools)
  }

  /** The names of the records that are not checkpoint tools, oldest first. */
  function ReversibleNames(track: seq<ToolInvocationRecord>): seq<string> {
    if track == [] then []
    else (if track[0].toolName in CheckpointToolNames then [] else [track[0].toolName]) + ReversibleNames(track[1..])
  }

  function Reversed<T>(s: seq<T>): (r: seq<T>)
    ensures |r| == |s|
  {
    if s == [] then [] else Reversed(s[1..]) + [s[0]]
  }

  function ResultNames(rs: seq<ReverseInvocationResult>): seq<string> {
    seq(|rs|, i requires 0 <= i < |rs| => rs[i].toolName)
  }

  /** Undoing visits the records newest first, skips checkpoint tools and
      yields exactly one result for every other record; a record whose tool
      has no reverse handler fails with "No reverse handler registered". */
  lemma {:induction false} ReversalsSpec(track: seq<ToolInvocationRecord>, tools: map<string, ToolSpec>)
    ensures ResultNames(Reversals(track, tools)) == Reversed(ReversibleNames(track))
    ensures forall r :: r in Reversals(track, tools) ==> r.toolName !in CheckpointToolNames
    ensures forall r :: r in Reversals(track, tools) && (r.toolName !in tools || tools[r.toolName].reverse.None?) ==>
              !r.reversedSuccessfully && r.errorMessage == Some(NoReverse)
  {
    if track != [] {
      ReversalsSpec(track[1..], tools);
      var x := track[0];
      var rest := Reversals(track[1..], tools);
      var mine := ReversalOf(x, tools);
      assert Reversals(track, tools) == rest + mine;
      assert ResultNames(rest + mine) == ResultNames(rest) + ResultNames(mine);
      var names := ReversibleNames(track);
      if x.toolName in CheckpointToolNames {
        assert names == ReversibleNames(track[1..]);
      } else {
        assert names == [x.toolName] + ReversibleNames(track[1..]);
        assert names[1..] == ReversibleNames(track[1..]);
      }
    }
  }

  /** What redoing one record yields: nothing when its tool is not
      registered, else a new record of running the forward handler again. */
  function ReplayOf(rec: ToolInvocationRecord, tools: map<string, ToolSpec>): seq<ToolInvocationRecord> {
    if rec.toolName !in tools then []
    else [RecordOf(rec.toolName, rec.args, tools[rec.toolName].forward(rec.args))]
  }

  /** The new records of redoing `track`, oldest first. */
  function Replayed(track: seq<ToolInvocationRecord>, tools: map<string, ToolSpec>): seq<ToolInvocationRecord> {
    if track == [] then [] else Replayed(track[..|track| - 1], tools) + ReplayOf(track[|track| - 1], tools)
  }

  /** The names of the records whose tool is registered, oldest first. */
  function RegisteredNames(track: seq<ToolInvocationRecord>, tools: map<string, ToolSpec>): seq<string> {
    if track == [] then []
    else RegisteredNames(track[..|track| - 1], tools)
         + (if track[|track| - 1].toolName in tools then [track[|track| - 1].toolName] else [])
  }

  function RecordNames(rs: seq<ToolInvocationRecord>): seq<string> {
    seq(|rs|, i requires 0 <= i < |rs| => rs[i].toolName)
  }

  /** Redoing yields one new record per record whose tool is registered, in
      the original order, checkpoint tools included; each new record is a
      success with the forward result or a failure with no result. */
  lemma {:induction false} ReplayedSpec(track: seq<ToolInvocationRecord>, tools: map<string, ToolSpec>)
    ensures RecordNames(Replayed(track, tools)) == RegisteredNames(track, tools)
    ensures forall r :: r in Replayed(track, tools) ==>
              r.toolName in tools && (r.success <==> r.errorMessage.None?) && (!r.success ==> r.result == VNone)
  {
    if track != [] {
      var front := track[..|track| - 1];
      ReplayedSpec(front, tools);
      var mine := ReplayOf(track[|track| - 1], tools);
      assert RecordNames(Replayed(front, tools) + mine) == RecordNames(Replayed(front, tools)) + RecordNames(mine);
    }
  }

  class ToolRollbackRegistry {
    var tools: map<string, ToolSpec>
    var track: seq<ToolInvocationRecord>

    constructor()
      ensures tools == map[] && track == []
    {
      tools := map[];
      track := [];
    }

    /** `register_tool(spec)`: validates, then stores the spec under its
        name, replacing any earlier one. */
    method RegisterTool(spec: ToolSpec) returns (r: Result<(), string>)
      modifies this
      ensures r == Validate(spec)
      ensures r.Ok? ==> tools == old(tools)[spec.name := spec]
      ensures r.Err? ==> tools == old(tools)
      ensures track == old(track)
    {
      r := Validate(spec);
      if r.Ok? {
        tools := tools[spec.name := spec];
      }
    }

    /** `get_tool(name)` */
    function GetTool(name: string): (r: Option<ToolSpec>)
      reads this
      ensures r.Some? <==> name in tools
      ensures r.Some? ==> r.value == tools[name]
    {
      if name in tools then Some(tools[name]) else None
    }

    /** `record_invocation(...)`: one record at the end of the track. */
    method RecordInvocation(toolName: string, args: Dict, result: Value, success: bool, errorMessage: Option<string>)
      modifies this
      ensures track == old(track) + [ToolInvocationRecord(toolName, args, result, success, errorMessage)]
      ensures tools == old(tools)
    {
      track := track + [ToolInvocationRecord(toolName, args, result, success, errorMessage)];
    }

    /** `clear_track()` */
    method ClearTrack()
      modifies this
      ensures track == [] && tools == old(tools)
    {
      track := [];
    }

    /** `get_track()`: a copy; as a value it cannot alias the track. */
    method GetTrack() returns (copy: seq<ToolInvocationRecord>)
      ensures copy == track
    {
      copy := track;
    }

    /** `rollback()`: the reverse results, newest record first; the track
        and the tools are left as they are. */
    method Rollback() returns (results: seq<ReverseInvocationResult>)
      ensures results == Reversals(track, tools)
    {
      results := [];
      var i := |track|;
      while i > 0
        invariant 0 <= i <= |track|
        invariant results == Reversals(track[i..], tools)
      {
        i := i - 1;
        var rec := track[i];
        assert track[i..][1..] == track[i + 1..];
        if rec.toolName in CheckpointToolNames {
          continue;
        }
        if rec.toolName !in tools || tools[rec.toolName].reverse.None? {
          results := results + [ReverseInvocationResult(rec.toolName, false, Some(NoReverse))];
          continue;
        }
        var outcome := tools[rec.toolName].reverse.value(rec.args, rec.result);
        if outcome.Ok? {
          results := results + [ReverseInvocationResult(rec.toolName, true, None)];
        } else {
          results := results + [ReverseInvocationResult(rec.toolName, false, Some(outcome.error))];
        }
      }
      assert track[0..] == track;
    }

    /** `redo()`: replays a snapshot of the track, oldest first, appends the
        new records to the track and returns them. */
    method Redo() returns (newRecords: seq<ToolInvocationRecord>)
      modifies this
      ensures newRecords == Replayed(old(track), old(tools))
      ensures track == old(track) + newRecords && tools == old(tools)
    {
      var snapshot := track;
      newRecords := [];
      var i := 0;
      while i < |snapshot|
        invariant 0 <= i <= |snapshot|
        invariant newRecords == Replayed(snapshot[..i], tools)
        invariant track == snapshot + newRecords && tools == old(tools)
      {
        var rec := snapshot[i];
        assert snapshot[..i + 1][..i] == snapshot[..i];
        if rec.toolName in tools {
          var outcome := tools[rec.toolName].forward(rec.args);
          var made := RecordOf(rec.toolName, rec.args, outcome);
          track := track + [made];
          newRecords := newRecords + [made];
        }
        i := i + 1;
      }
      assert snapshot[..i] == snapshot;
    }
  }
}
