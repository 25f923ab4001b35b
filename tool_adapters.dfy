/** `AgnoToolkitAdapter` (rollback_portocal/adapters.py): registers a
    toolkit's callables with a registry and runs them with recording. The
    toolkit is the map of its callable attributes by name. */
module ToolAdapters {
  import opened Wrappers
  import opened Values
  import opened ToolProtocol
  import opened ToolRegistry

  /** The spec `register_tools` builds for `name`: checkpoint tools never
      get a reverse handler, whatever the reverse map says. */
  function SpecFor(name: string, forward: Forward, reverseMap: map<string, Reverse>): (s: ToolSpec)
    ensures s.name == name
    ensures name in CheckpointToolNames ==> s.reverse.None?
    ensures name !in CheckpointToolNames ==> (s.reverse.Some? <==> name in reverseMap)
  {
    var reverse := if name in CheckpointToolNames || name !in reverseMap then None else Some(reverseMap[name]);
    ToolSpec(name, forward, reverse)
  }

  /** Whether registering `name` raises: it is not a callable of the
      toolkit, or its spec fails validation. */
  predicate Fails(name: string, toolkit: map<string, Forward>, reverseMap: map<string, Reverse>) {
    name !in toolkit || Validate(SpecFor(name, toolkit[name], reverseMap)).Err?
  }

  /** The registry's tools after `register_tools(names, reverse_map)`, and
      whether it raised. */
  function Registering(tools: map<string, ToolSpec>, names: seq<string>, toolkit: map<string, Forward>,
                       reverseMap: map<string, Reverse>): (map<string, ToolSpec>, Result<(), string>)
    decreases |names|
  {
    if names == [] then (tools, Ok(()))
    else
      var name := names[0];
      if name !in toolkit then (tools, Err("Toolkit has no callable tool '" + name + "'"))
      else
        var spec := SpecFor(name, toolkit[name], reverseMap);
        var v := Validate(spec);
        if v.Err? then (tools, v)
        else Registering(tools[name := spec], names[1..], toolkit, reverseMap)
  }

  /** The position of the first name whose registration raises. */
  function FirstFailure(names: seq<string>, toolkit: map<string, Forward>, reverseMap: map<string, Reverse>): (r: Option<nat>)
    ensures r.Some? ==> r.value < |names| && Fails(names[r.value], toolkit, reverseMap)
                        && forall k :: 0 <= k < r.value ==> !Fails(names[k], toolkit, reverseMap)
    ensures r.None? ==> forall k :: 0 <= k < |names| ==> !Fails(names[k], toolkit, reverseMap)
  {
    if names == [] then None
    else if Fails(names[0], toolkit, reverseMap) then Some(0)
    else match FirstFailure(names[1..], toolkit, reverseMap)
      case None => None
      case Some(k) => Some(k + 1)
  }

  /** Registration raises exactly when some name fails; the names before
      the first failing one stay registered; when nothing fails every name
      is registered with the spec built for it. */
  lemma {:induction false} RegisteringSpec(tools: map<string, ToolSpec>, names: seq<string>,
                                           toolkit: map<string, Forward>, reverseMap: map<string, Reverse>)
    decreases |names|
    ensures var (after, r) := Registering(tools, names, toolkit, reverseMap);
            && (r.Ok? <==> FirstFailure(names, toolkit, reverseMap).None?)
            && (r.Ok? ==> forall k :: 0 <= k < |names| ==>
                  names[k] in after && after[names[k]] == SpecFor(names[k], toolkit[names[k]], reverseMap))
            && (r.Err? ==> var j := FirstFailure(names, toolkit, reverseMap).value;
                  after == Registering(tools, names[..j], toolkit, reverseMap).0
                  && Registering(tools, names[..j], toolkit, reverseMap).1.Ok?)
  {
    if names != [] {
      var name := names[0];
      if !Fails(name, toolkit, reverseMap) {
        var spec := SpecFor(name, toolkit[name], reverseMap);
        var tools' := tools[name := spec];
        RegisteringSpec(tools', names[1..], toolkit, reverseMap);
        var (after, r) := Registering(tools', names[1..], toolkit, reverseMap);
        assert Registering(tools, names, toolkit, reverseMap) == (after, r);
        if r.Ok? {
          RegisteredEach(tools, names, toolkit, reverseMap);
        } else {
          var j := FirstFailure(names[1..], toolkit, reverseMap).value;
          FirstFailureStep(names, toolkit, reverseMap);
          PrefixStep(tools, names, j, toolkit, reverseMap);
        }
      }
    }
  }

  /** When the names after a first one that registers are all registered,
      so are all the names. */
  lemma RegisteredEach(tools: map<string, ToolSpec>, names: seq<string>,
                       toolkit: map<string, Forward>, reverseMap: map<string, Reverse>)
    requires names != [] && FirstFailure(names, toolkit, reverseMap).None?
    requires var after := Registering(tools[names[0] := SpecFor(names[0], toolkit[names[0]], reverseMap)],
                                      names[1..], toolkit, reverseMap).0;
             forall k :: 0 <= k < |names[1..]| ==>
               names[1..][k] in after && after[names[1..][k]] == SpecFor(names[1..][k], toolkit[names[1..][k]], reverseMap)
    ensures var after := Registering(tools[names[0] := SpecFor(names[0], toolkit[names[0]], reverseMap)],
                                     names[1..], toolkit, reverseMap).0;
            forall k :: 0 <= k < |names| ==>
              names[k] in after && after[names[k]] == SpecFor(names[k], toolkit[names[k]], reverseMap)
  {
    var tools' := tools[names[0] := SpecFor(names[0], toolkit[names[0]], reverseMap)];
    var after := Registering(tools', names[1..], toolkit, reverseMap).0;
    forall k | 0 <= k < |names|
      ensures names[k] in after && after[names[k]] == SpecFor(names[k], toolkit[names[k]], reverseMap)
    {
      if k > 0 {
        assert names[k] == names[1..][k - 1];
      } else {
        RegisteredStays(tools', names[1..], toolkit, reverseMap, names[0]);
      }
    }
  }

  /** Past a name that registers, the first failure is one further on. */
  lemma FirstFailureStep(names: seq<string>, toolkit: map<string, Forward>, reverseMap: map<string, Reverse>)
    requires names != [] && !Fails(names[0], toolkit, reverseMap)
    requires FirstFailure(names[1..], toolkit, reverseMap).Some?
    ensures FirstFailure(names, toolkit, reverseMap) == Some(FirstFailure(names[1..], toolkit, reverseMap).value + 1)
  {
  }

  /** Registering a prefix that starts with a name that registers is
      registering that name, then the rest of the prefix. */
  lemma PrefixStep(tools: map<string, ToolSpec>, names: seq<string>, j: nat,
                   toolkit: map<string, Forward>, reverseMap: map<string, Reverse>)
    requires j < |names| && !Fails(names[0], toolkit, reverseMap)
    ensures Registering(tools, names[..j + 1], toolkit, reverseMap)
            == Registering(tools[names[0] := SpecFor(names[0], toolkit[names[0]], reverseMap)], names[1..][..j],
                           toolkit, reverseMap)
  {
    assert names[..j + 1][1..] == names[1..][..j];
    assert names[..j + 1][0] == names[0];
  }

  /** A registered name keeps its spec through further registrations, since
      every name is always registered with the same spec. */
  lemma {:induction false} RegisteredStays(tools: map<string, ToolSpec>, names: seq<string>,
                                           toolkit: map<string, Forward>, reverseMap: map<string, Reverse>, name: string)
    decreases |names|
    requires name in tools && name in toolkit && tools[name] == SpecFor(name, toolkit[name], reverseMap)
    ensures var after := Registering(tools, names, toolkit, reverseMap).0;
            name in after && after[name] == SpecFor(name, toolkit[name], reverseMap)
  {
    if names != [] && names[0] in toolkit {
      var spec := SpecFor(names[0], toolkit[names[0]], reverseMap);
      if Validate(spec).Ok? {
        RegisteredStays(tools[names[0] := spec], names[1..], toolkit, reverseMap, name);
      }
    }
  }

  class AgnoToolkitAdapter {
    const toolkit: map<string, Forward>
    const registry: ToolRollbackRegistry

    /** `AgnoToolkitAdapter(toolkit, registry)`: a new registry when none is given. */
    constructor(toolkit: map<string, Forward>, registry: ToolRollbackRegistry?)
      ensures this.toolkit == toolkit
      ensures registry != null ==> this.registry == registry
      ensures registry == null ==> fresh(this.registry) && this.registry.tools == map[] && this.registry.track == []
    {
      this.toolkit := toolkit;
      if registry == null {
        this.registry := new ToolRollbackRegistry();
      } else {
        this.registry := registry;
      }
    }

    /** `register_tools(tool_names, reverse_map)` */
    method RegisterTools(names: seq<string>, reverseMap: map<string, Reverse>) returns (r: Result<(), string>)
      modifies registry
      ensures (registry.tools, r) == Registering(old(registry.tools), names, toolkit, reverseMap)
      ensures registry.track == old(registry.track)
    {
      var i := 0;
      while i < |names|
        invariant 0 <= i <= |names|
        invariant Registering(old(registry.tools), names, toolkit, reverseMap)
                  == Registering(registry.tools, names[i..], toolkit, reverseMap)
        invariant registry.track == old(registry.track)
      {
        var name := names[i];
        assert names[i..][1..] == names[i + 1..];
        if name !in toolkit {
          return Err("Toolkit has no callable tool '" + name + "'");
        }
        var reverse: Option<Reverse> := if name in reverseMap then Some(reverseMap[name]) else None;
        if name in CheckpointToolNames {
          reverse := None;
        }
        var v := registry.RegisterTool(ToolSpec(name, toolkit[name], reverse));
        if v.Err? {
          return v;
        }
        i := i + 1;
      }
      r := Ok(());
    }

    /** `execute_and_record(tool_name, args)`: an unregistered tool raises
        and records nothing; otherwise the outcome of the forward handler
        is recorded and returned (re-raised when it failed). */
    method ExecuteAndRecord(toolName: string, args: Dict) returns (r: Result<Value, string>)
      modifies registry
      ensures registry.tools == old(registry.tools)
      ensures toolName !in registry.tools ==>
                r == Err("Tool '" + toolName + "' is not registered in rollback registry")
                && registry.track == old(registry.track)
      ensures toolName in registry.tools ==>
                r == registry.tools[toolName].forward(args)
                && registry.track == old(registry.track) + [RecordOf(toolName, args, r)]
    {
      var spec := registry.GetTool(toolName);
      if spec.None? {
        return Err("Tool '" + toolName + "' is not registered in rollback registry");
      }
      r := spec.value.forward(args);
      if r.Ok? {
        registry.RecordInvocation(toolName, args, r.value, true, None);
      } else {
        registry.RecordInvocation(toolName, args, VNone, false, Some(r.error));
      }
    }
  }
}
