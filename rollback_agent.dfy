/** The agent that persists every turn of an internal session, checkpoints it
    automatically after tool calls, offers checkpoint tools to the language
    model and forks a new session from a checkpoint
    (src/agents/rollback_agent.py). The language model itself is outside the
    model: a turn is its reply text, the names of the tools it called and the
    Agno session state it left behind. */
module RollbackAgents {
  import opened Wrappers
  import opened Values
  import opened Listing
  import opened Checkpoints
  import IS = InternalSessions
  import CR = CheckpointRepository
  import IR = InternalSessionRepository
  import ER = ExternalSessionRepository

  // ---------------------------------------------------------------------
  // Deciding when to checkpoint

  /** The agent's own checkpoint tools; calling one never triggers an
      automatic checkpoint. */
  const CheckpointToolNames: set<string> := {
    "create_checkpoint_tool", "list_checkpoints_tool", "rollback_to_checkpoint_tool",
    "delete_checkpoint_tool", "get_checkpoint_info_tool", "cleanup_auto_checkpoints_tool"
  }

  /** `_is_checkpoint_tool`: false for None and "", true exactly for the six names. */
  function IsCheckpointTool(name: Option<string>): (r: bool)
    ensures name.None? || name == Some("") ==> !r
    ensures r <==> name.Some? && name.value in CheckpointToolNames
  {
    if name.None? || name.value == "" then false else name.value in CheckpointToolNames
  }

  /** What the tool hook leaves in `_last_tool_called` after a turn: the name
      of the last tool called, None when no tool ran. */
  function LastTool(calls: seq<string>): (r: Option<string>)
    ensures r.None? <==> calls == []
    ensures r.Some? ==> r.value in calls
  {
    if calls == [] then None else Some(calls[|calls| - 1])
  }

  /** The test `run` makes before `_create_auto_checkpoint`. */
  function AutoCheckpointDue(autoCheckpoint: bool, calls: seq<string>): (due: bool)
    ensures due <==> autoCheckpoint && calls != [] && calls[|calls| - 1] !in CheckpointToolNames
  {
    autoCheckpoint && calls != [] && !IsCheckpointTool(LastTool(calls))
  }

  /** Python truthiness of an optional id: neither None nor 0. */
  predicate IdTruthy(id: Option<int>) {
    id.Some? && id.value != 0
  }

  /** The name of the automatic checkpoint made after a tool call. */
  function AfterTool(tool: string): (r: string)
    ensures |r| == 6 + |tool| && r[6..] == tool
  {
    "After " + tool
  }

  /** The session `_create_internal_session` builds: current, empty history,
      stamped `now`, holding the agent's state. */
  function Opened(ext: int, agno: string, state: Dict, now: Datetime): IS.InternalSessionData {
    IS.InternalSessionData(None, ext, agno, state, [], Some(now), true, 0)
  }

  /** A checkpoint as the table stores it under `id`. */
  function Stored(c: Checkpoint, id: int): Checkpoint {
    c.(id := Some(id))
  }

  // ---------------------------------------------------------------------
  // Replies of the checkpoint tools

  /** What a checkpoint tool answers; `Text` renders it as the tool's string. */
  datatype ToolReply =
    | Unavailable
    | NoSession
    | Created(name: string, id: int)
    | CreateFailed
    | NoneListed
    | Listing(listed: seq<Checkpoint>)
    | NotFound(text: string)
    | Requested(target: Checkpoint)
    | MissingId(missing: int)
    | OnlyOwn
    | Deleted(deleted: int)
    | DeleteFailed(failed: int)
    | Info(details: Checkpoint)
    | CleanedUp(removed: int, keep: int)
    | NothingToClean

  /** `str(x)` of an optional integer or string. */
  function OptIntText(o: Option<int>): string {
    if o.Some? then IntToString(o.value) else "None"
  }

  function OptStrText(o: Option<string>): string {
    if o.Some? then o.value else "None"
  }

  /** `x or "Unnamed"` */
  function NameOrUnnamed(o: Option<string>): string {
    if o.None? || o.value == "" then "Unnamed" else o.value
  }

  function CreatedText(o: Option<Datetime>, tf: TimeFormat): string {
    if o.Some? then tf.strftime(o.value) else "unknown"
  }

  /** The name `create_checkpoint_tool` uses: the given one when truthy,
      otherwise one built from the time. */
  function DefaultName(name: Option<string>, now: Datetime, tf: TimeFormat): (r: string)
    ensures name.Some? && name.value != "" ==> r == name.value
    ensures name.None? || name.value == "" ==> |r| >= 14 && r[..14] == "Checkpoint at "
  {
    if name.None? || name.value == "" then "Checkpoint at " + tf.strftime(now) else name.value
  }

  /** One line of the `list_checkpoints_tool` reply. */
  function Entry(c: Checkpoint, tf: TimeFormat): string {
    "\n\U{2022} ID: " + OptIntText(c.id) + " | " + NameOrUnnamed(c.checkpointName)
    + " | Type: " + (if c.isAuto then "auto" else "manual")
    + " | Created: " + CreatedText(c.createdAt, tf)
  }

  /** The entry renderer for one time format. */
  function EntryOf(tf: TimeFormat): Checkpoint -> string {
    c => Entry(c, tf)
  }

  /** The last line of `get_checkpoint_info_tool`'s reply. */
  function LengthLine(c: Checkpoint): string {
    "\U{2022} Conversation Length: " + IntToString(|c.history|) + " messages"
  }

  /** `get_checkpoint_info_tool`'s reply for a found checkpoint. */
  function InfoText(c: Checkpoint, tf: TimeFormat): (r: string)
    ensures |r| >= |LengthLine(c)| && r[|r| - |LengthLine(c)|..] == LengthLine(c)
  {
    var head := "Checkpoint Details:\n"
      + "\U{2022} ID: " + OptIntText(c.id) + "\n"
      + "\U{2022} Name: " + NameOrUnnamed(c.checkpointName) + "\n"
      + "\U{2022} Type: " + (if c.isAuto then "Automatic" else "Manual") + "\n"
      + "\U{2022} Created: " + CreatedText(c.createdAt, tf) + "\n";
    head + LengthLine(c)
  }

  /** The `list_checkpoints_tool` reply for a non-empty list. */
  function ListingText(cs: seq<Checkpoint>, tf: TimeFormat): string {
    "Available checkpoints:\n" + Concat(cs, EntryOf(tf))
  }

  /** The string each tool returns. */
  function Text(r: ToolReply, tf: TimeFormat): string {
    match r
    case Unavailable => "Checkpoint functionality is not available."
    case NoSession => "No active session or checkpoint functionality unavailable."
    case Created(name, id) =>
      "\U{2713} Checkpoint '" + name + "' created successfully (ID: " + IntToString(id) + ")"
    case CreateFailed => "Failed to create checkpoint. Repository or session not available."
    case NoneListed => "No checkpoints found for the current session."
    case Listing(cs) => ListingText(cs, tf)
    case NotFound(text) =>
      "Checkpoint '" + text + "' not found. Use 'list checkpoints' to see available checkpoints."
    case Requested(c) =>
      "Rollback to checkpoint " + OptIntText(c.id) + " ('" + OptStrText(c.checkpointName) + "') requested. "
      + "The system will create a new session with the state from this checkpoint."
    case MissingId(id) => "Checkpoint with ID " + IntToString(id) + " not found."
    case OnlyOwn => "You can only delete checkpoints from the current session."
    case Deleted(id) => "\U{2713} Checkpoint " + IntToString(id) + " deleted successfully."
    case DeleteFailed(id) => "Failed to delete checkpoint " + IntToString(id) + "."
    case Info(c) => InfoText(c, tf)
    case CleanedUp(removed, keep) =>
      "\U{2713} Cleaned up " + IntToString(removed) + " old automatic checkpoints. Kept the latest "
      + IntToString(keep) + "."
    case NothingToClean => "No automatic checkpoints to clean up."
  }

  /** The `cleanup_auto_checkpoints_tool` reply after `removed` rows went. */
  function Cleanup(removed: int, keep: int): (r: ToolReply)
    ensures r == NothingToClean <==> removed <= 0
    ensures r != NothingToClean ==> r == CleanedUp(removed, keep)
  {
    if removed > 0 then CleanedUp(removed, keep) else NothingToClean
  }

  /** Each listed checkpoint has its own entry in the listing, in list order. */
  lemma ListingShowsEach(cs: seq<Checkpoint>, i: int, tf: TimeFormat)
    requires 0 <= i < |cs|
    ensures ListingText(cs, tf)
            == "Available checkpoints:\n" + (Concat(cs[..i], EntryOf(tf)) + Entry(cs[i], tf) + Concat(cs[i + 1..], EntryOf(tf)))
  {
    ConcatInPlace(cs, i, EntryOf(tf));
    assert EntryOf(tf)(cs[i]) == Entry(cs[i], tf);
  }


  // ---------------------------------------------------------------------
  // Resolving a rollback target

  /** The argument of `rollback_to_checkpoint_tool`: an integer or a text. */
  datatype Target = IdArg(n: int) | TextArg(s: string)

  /** `str(arg)` */
  function TargetText(t: Target): string {
    match t
    case IdArg(n) => IntToString(n)
    case TextArg(s) => s
  }

  /** `int(arg)`, None where Python raises ValueError. */
  function TargetId(t: Target): Option<int> {
    match t
    case IdArg(n) => Some(n)
    case TextArg(s) => ParseInt(s)
  }

  /** A truthy checkpoint name equal to `lowered` ignoring ASCII case. */
  predicate NameMatches(c: Checkpoint, lowered: string) {
    c.checkpointName.Some? && c.checkpointName.value != "" && Lower(c.checkpointName.value) == lowered
  }

  /** The first checkpoint of `cs` whose name matches. */
  function FirstNamed(cs: seq<Checkpoint>, lowered: string): Option<Checkpoint> {
    if cs == [] then None
    else if NameMatches(cs[0], lowered) then Some(cs[0])
    else FirstNamed(cs[1..], lowered)
  }

  /** `FirstNamed` finds a match iff there is one, and it is the first. */
  lemma {:induction false} FirstNamedSpec(cs: seq<Checkpoint>, lowered: string)
    ensures FirstNamed(cs, lowered).None? <==> forall i :: 0 <= i < |cs| ==> !NameMatches(cs[i], lowered)
    ensures FirstNamed(cs, lowered).Some? ==>
              exists i :: 0 <= i < |cs| && cs[i] == FirstNamed(cs, lowered).value && NameMatches(cs[i], lowered)
                          && forall j :: 0 <= j < i ==> !NameMatches(cs[j], lowered)
  {
    if cs != [] && !NameMatches(cs[0], lowered) {
      FirstNamedSpec(cs[1..], lowered);
      if FirstNamed(cs, lowered).Some? {
        var i :| 0 <= i < |cs[1..]| && cs[1..][i] == FirstNamed(cs, lowered).value && NameMatches(cs[1..][i], lowered)
                 && forall j :: 0 <= j < i ==> !NameMatches(cs[1..][j], lowered);
        assert cs[i + 1] == cs[1..][i];
        forall j | 0 <= j < i + 1 ensures !NameMatches(cs[j], lowered) {
          if j > 0 {
            assert cs[j] == cs[1..][j - 1];
          }
        }
      }
      if FirstNamed(cs, lowered).None? {
        forall i | 0 <= i < |cs| ensures !NameMatches(cs[i], lowered) {
          if i > 0 {
            assert cs[i] == cs[1..][i - 1];
          }
        }
      }
    }
  }

  /** Over a newest-first list the first match is a newest one. */
  lemma {:induction false} NewestNameWins(cs: seq<Checkpoint>, lowered: string)
    requires SortedDesc(cs, CR.CreatedOf)
    ensures FirstNamed(cs, lowered).Some? ==>
              forall c :: c in cs && NameMatches(c, lowered) ==> CR.CreatedOf(c) <= CR.CreatedOf(FirstNamed(cs, lowered).value)
  {
    if cs != [] {
      if NameMatches(cs[0], lowered) {
        forall c | c in cs && NameMatches(c, lowered) ensures CR.CreatedOf(c) <= CR.CreatedOf(cs[0]) {
          var k :| 0 <= k < |cs| && cs[k] == c;
        }
      } else {
        NewestNameWins(cs[1..], lowered);
        forall c | c in cs && NameMatches(c, lowered) ensures c in cs[1..] {
          var k :| 0 <= k < |cs| && cs[k] == c;
          assert k != 0;
          assert cs[1..][k - 1] == c;
        }
      }
    }
  }

  /** The loop of `rollback_to_checkpoint_tool` over the newest-first list. */
  method FindByName(cs: seq<Checkpoint>, lowered: string) returns (found: Option<Checkpoint>)
    ensures found == FirstNamed(cs, lowered)
  {
    found := None;
    var i := 0;
    while i < |cs|
      invariant 0 <= i <= |cs|
      invariant FirstNamed(cs, lowered) == FirstNamed(cs[i..], lowered)
    {
      assert cs[i..][1..] == cs[i + 1..];
      if NameMatches(cs[i], lowered) {
        found := Some(cs[i]);
        return;
      }
      i := i + 1;
    }
  }

  /** The state after a rollback request: the flag raised and the id recorded. */
  function RollbackRequested(state: Dict, id: Option<int>): (r: Dict)
    ensures r.Keys == state.Keys + {"rollback_requested", "rollback_checkpoint_id"}
    ensures r["rollback_requested"] == VBool(true) && r["rollback_checkpoint_id"] == OptIntValue(id)
    ensures forall k :: k in state && k != "rollback_requested" && k != "rollback_checkpoint_id" ==> r[k] == state[k]
  {
    state["rollback_requested" := VBool(true)]["rollback_checkpoint_id" := OptIntValue(id)]
  }

  // ---------------------------------------------------------------------
  // Forking a session from a checkpoint

  /** `from_checkpoint` copies a checkpoint iff both it and the target carry a
      creation time and it is no later than the target's. */
  predicate CopiedFrom(c: Checkpoint, target: Checkpoint) {
    c.createdAt.Some? && target.createdAt.Some? && c.createdAt.value <= target.createdAt.value
  }

  /** The copy of `c` for session `sid`: everything but the id and the owner kept. */
  function Copy(c: Checkpoint, sid: int): Checkpoint {
    c.(id := None, internalSessionId := sid)
  }

  /** The copies `from_checkpoint` creates, in the order of `listed`. */
  function Copies(listed: seq<Checkpoint>, target: Checkpoint, sid: int): seq<Checkpoint> {
    if listed == [] then []
    else
      var last := listed[|listed| - 1];
      Copies(listed[..|listed| - 1], target, sid) + (if CopiedFrom(last, target) then [Copy(last, sid)] else [])
  }

  /** The copies carry no id, belong to `sid` and are no later than the
      target. */
  lemma {:induction false} CopiesSound(listed: seq<Checkpoint>, target: Checkpoint, sid: int)
    ensures var r := Copies(listed, target, sid);
            && |r| <= |listed|
            && forall i :: 0 <= i < |r| ==> r[i].id == None && r[i].internalSessionId == sid && CopiedFrom(r[i], target)
  {
    if listed != [] {
      CopiesSound(listed[..|listed| - 1], target, sid);
    }
  }

  /** Every listed checkpoint no later than the target is copied. */
  lemma {:induction false} CopiesComplete(listed: seq<Checkpoint>, target: Checkpoint, sid: int)
    ensures forall c :: c in listed && CopiedFrom(c, target) ==> Copy(c, sid) in Copies(listed, target, sid)
  {
    if listed != [] {
      var prefix := listed[..|listed| - 1];
      CopiesComplete(prefix, target, sid);
      forall c | c in listed && CopiedFrom(c, target) ensures Copy(c, sid) in Copies(listed, target, sid) {
        if c != listed[|listed| - 1] {
          var k :| 0 <= k < |listed| && listed[k] == c;
          assert prefix[k] == c;
        }
      }
    }
  }

  /** One more listed checkpoint adds its copy, when it is copied, at the end. */
  lemma CopiesStep(listed: seq<Checkpoint>, i: int, target: Checkpoint, sid: int)
    requires 0 <= i < |listed|
    ensures Copies(listed[..i + 1], target, sid)
            == Copies(listed[..i], target, sid) + (if CopiedFrom(listed[i], target) then [Copy(listed[i], sid)] else [])
  {
    assert listed[..i + 1][..i] == listed[..i];
  }

  /** The table after creating `cs` one by one from id `next` on. */
  function AppendAll(rows: CR.Table, next: int, cs: seq<Checkpoint>): CR.Table {
    if cs == [] then rows
    else AppendAll(rows, next, cs[..|cs| - 1])[next + |cs| - 1 := Stored(cs[|cs| - 1], next + |cs| - 1)]
  }

  /** The `i`-th of `cs` is stored in `r` under id `next + i`. */
  predicate StoredAt(r: CR.Table, next: int, cs: seq<Checkpoint>, i: int)
    requires 0 <= i < |cs|
  {
    next + i in r && r[next + i] == Stored(cs[i], next + i)
  }

  /** The old rows below `next` stay, each of `cs` is stored at its own id
      from `next` on, and nothing else is added. */
  lemma {:induction false} AppendAllSpec(rows: CR.Table, next: int, cs: seq<Checkpoint>)
    ensures forall k :: k in rows ==> k in AppendAll(rows, next, cs)
    ensures forall k :: k in rows && k < next ==> AppendAll(rows, next, cs)[k] == rows[k]
    ensures forall i :: 0 <= i < |cs| ==> StoredAt(AppendAll(rows, next, cs), next, cs, i)
    ensures forall k :: k in AppendAll(rows, next, cs) ==> k in rows || next <= k < next + |cs|
  {
    if cs != [] {
      var prefix := cs[..|cs| - 1];
      AppendAllSpec(rows, next, prefix);
      forall i | 0 <= i < |cs|
        ensures StoredAt(AppendAll(rows, next, cs), next, cs, i)
      {
        if i < |cs| - 1 {
          assert prefix[i] == cs[i];
          assert StoredAt(AppendAll(rows, next, prefix), next, prefix, i);
        }
      }
    }
  }

  /** Creating one more checkpoint extends the table by its row. */
  lemma AppendAllStep(rows: CR.Table, next: int, cs: seq<Checkpoint>, c: Checkpoint)
    ensures AppendAll(rows, next, cs + [c]) == AppendAll(rows, next, cs)[next + |cs| := Stored(c, next + |cs|)]
  {
    assert (cs + [c])[..|cs|] == cs;
  }

  /** Every checkpoint of the source session that is no later than the target
      is stored again, owned by the new session, once `from_checkpoint` is done. */
  lemma ForkCopiesEarlier(rows: CR.Table, nextId: int, target: Checkpoint, sid: int)
    requires CR.TableInvariant(rows, nextId)
    ensures var copies := Copies(CR.Listed(rows, nextId, target.internalSessionId, false), target, sid);
            forall id :: (id in rows && rows[id].internalSessionId == target.internalSessionId
                          && CopiedFrom(rows[id], target)) ==> Copy(rows[id], sid) in copies
  {
    CR.ListedComplete(rows, nextId, target.internalSessionId, false);
    CopiesComplete(CR.Listed(rows, nextId, target.internalSessionId, false), target, sid);
  }

  // ---------------------------------------------------------------------
  // A turn of the language model

  /** The session once `run` has appended the user message; nothing else
      changes. */
  function Asked(d: IS.InternalSessionData, message: string, t: Datetime, tf: TimeFormat): (r: IS.InternalSessionData)
    ensures |r.history| == |d.history| + 1 && r.history[..|d.history|] == d.history
    ensures r.history[|d.history|] == IS.Message("user", message, tf.iso(t), map[])
    ensures r == d.(history := r.history)
  {
    var h := d.history + [IS.Message("user", message, tf.iso(t), map[])];
    assert h[..|d.history|] == d.history && h[|d.history|] == IS.Message("user", message, tf.iso(t), map[]);
    d.(history := h)
  }

  /** The session once `run` has appended the reply and merged the agent's
      Agno state into the session state; nothing else changes. */
  function Answered(d: IS.InternalSessionData, reply: string, state: Dict, t: Datetime, tf: TimeFormat)
    : (r: IS.InternalSessionData)
    ensures |r.history| == |d.history| + 1 && r.history[..|d.history|] == d.history
    ensures r.history[|d.history|] == IS.Message("assistant", reply, tf.iso(t), map[])
    ensures r.sessionState == IS.Merged(d.sessionState, state)
    ensures r == d.(history := r.history, sessionState := r.sessionState)
  {
    var h := d.history + [IS.Message("assistant", reply, tf.iso(t), map[])];
    assert h[..|d.history|] == d.history && h[|d.history|] == IS.Message("assistant", reply, tf.iso(t), map[]);
    d.(history := h, sessionState := IS.Merged(d.sessionState, state))
  }

  /** One tool call the model makes during a turn: one of the agent's
      checkpoint tools with its arguments (`at` is the clock when
      `create_checkpoint_tool` runs), or another tool, which leaves the
      agent's Agno session state as `state`. */
  datatype ToolCall =
    | CreateCall(name: Option<string>, at: Datetime)
    | ListCall
    | RollbackCall(arg: Target)
    | DeleteCall(id: int)
    | InfoCall(id: int)
    | CleanupCall(keep: int)
    | OtherCall(tool: string, state: Dict)

  /** The agent registers its own checkpoint tools under their names, so
      no other tool bears one of those names. */
  predicate ForeignNameDistinct(c: ToolCall) {
    c.OtherCall? ==> !IsCheckpointTool(Some(c.tool))
  }

  predicate ForeignNamesDistinct(calls: seq<ToolCall>) {
    forall i :: 0 <= i < |calls| ==> ForeignNameDistinct(calls[i])
  }

  /** The name the tool hook receives for a call. */
  function ToolName(c: ToolCall): string {
    match c
    case CreateCall(_, _) => "create_checkpoint_tool"
    case ListCall => "list_checkpoints_tool"
    case RollbackCall(_) => "rollback_to_checkpoint_tool"
    case DeleteCall(_) => "delete_checkpoint_tool"
    case InfoCall(_) => "get_checkpoint_info_tool"
    case CleanupCall(_) => "cleanup_auto_checkpoints_tool"
    case OtherCall(tool, _) => tool
  }

  function Names(calls: seq<ToolCall>): (r: seq<string>)
    ensures |r| == |calls| && forall i :: 0 <= i < |calls| ==> r[i] == ToolName(calls[i])
  {
    seq(|calls|, i requires 0 <= i < |calls| => ToolName(calls[i]))
  }

  /** A call to one of the agent's own tools is a checkpoint tool call, so a
      turn that ends with one takes no automatic checkpoint. */
  lemma OwnToolsAreCheckpointTools(calls: seq<ToolCall>)
    requires calls != [] && !calls[|calls| - 1].OtherCall?
    ensures IsCheckpointTool(Some(ToolName(calls[|calls| - 1])))
    ensures forall autoCheckpoint: bool :: !AutoCheckpointDue(autoCheckpoint, Names(calls))
  {
  }

  /** What the tools of a turn read and write: the agent's internal session,
      its Agno session state, and the checkpoints and internal sessions
      tables with their next ids (empty and 0 when the agent has no such
      table). */
  datatype World = World(session: IS.InternalSessionData, state: Dict,
                         cps: CR.Table, cpNext: int, rows: IR.Table, rowsNext: int)

  /** The checkpoint `rollback_to_checkpoint_tool` resolves `arg` to, given
      the id of the agent's session: by global id when `int(arg)` succeeds,
      otherwise the first case-blind name match among the session's
      checkpoints, newest first. */
  function ResolveIn(cps: CR.Table, cpNext: int, sid: Option<int>, arg: Target): Option<Checkpoint> {
    match TargetId(arg)
    case Some(n) => if n in cps then Some(cps[n]) else None
    case None =>
      if IdTruthy(sid) then FirstNamed(CR.Listed(cps, cpNext, sid.value, false), Lower(TargetText(arg)))
      else None
  }

  /** `create_checkpoint_tool` run at `at`: with a checkpoints table and a
      truthy session id, a manual snapshot is stored, the count goes up and
      the session is saved. */
  function CreateStep(w: World, name: Option<string>, at: Datetime, hasCps: bool, hasRows: bool, tf: TimeFormat): World {
    if hasCps && IdTruthy(w.session.id) then
      var d := w.session.(checkpointCount := w.session.checkpointCount + 1);
      var snapshot := FromInternalSession(w.session, Some(DefaultName(name, at, tf)), false, at);
      w.(session := d, cps := w.cps[w.cpNext := Stored(snapshot, w.cpNext)], cpNext := w.cpNext + 1,
         rows := if hasRows then IR.UpdatedRows(w.rows, d) else w.rows)
    else w
  }

  /** `rollback_to_checkpoint_tool`: only the two request keys of the state. */
  function RollbackStep(w: World, arg: Target, hasCps: bool): World {
    var target := ResolveIn(w.cps, w.cpNext, w.session.id, arg);
    if hasCps && target.Some? then w.(state := RollbackRequested(w.state, target.value.id)) else w
  }

  /** `delete_checkpoint_tool`: only a checkpoint of the agent's session goes. */
  function DeleteStep(w: World, id: int, hasCps: bool): World {
    if hasCps && id in w.cps && Some(w.cps[id].internalSessionId) == w.session.id then w.(cps := w.cps - {id})
    else w
  }

  /** `cleanup_auto_checkpoints_tool` */
  function CleanupStep(w: World, keep: int, hasCps: bool): World {
    if hasCps && IdTruthy(w.session.id) then w.(cps := CR.Pruned(w.cps, w.cpNext, w.session.id.value, keep))
    else w
  }

  /** One call of the turn, as the hook and then the tool leave the world;
      `hasCps` and `hasRows` say whether the agent has the two tables. */
  function Step(w: World, c: ToolCall, hasCps: bool, hasRows: bool, tf: TimeFormat): World {
    match c
    case CreateCall(name, at) => CreateStep(w, name, at, hasCps, hasRows, tf)
    case RollbackCall(arg) => RollbackStep(w, arg, hasCps)
    case DeleteCall(id) => DeleteStep(w, id, hasCps)
    case CleanupCall(keep) => CleanupStep(w, keep, hasCps)
    case OtherCall(_, state) => w.(state := state)
    case ListCall => w
    case InfoCall(_) => w
  }

  /** The calls of a turn, in the order the model makes them. */
  function Turn(w: World, calls: seq<ToolCall>, hasCps: bool, hasRows: bool, tf: TimeFormat): World
    decreases |calls|
  {
    if calls == [] then w
    else Step(Turn(w, calls[..|calls| - 1], hasCps, hasRows, tf), calls[|calls| - 1], hasCps, hasRows, tf)
  }

  /** The turn up to call `i` is the turn before it followed by that call. */
  lemma TurnExtended(w: World, calls: seq<ToolCall>, i: int, hasCps: bool, hasRows: bool, tf: TimeFormat)
    requires 0 <= i < |calls|
    ensures Turn(w, calls[..i + 1], hasCps, hasRows, tf) == Step(Turn(w, calls[..i], hasCps, hasRows, tf), calls[i], hasCps, hasRows, tf)
    ensures LastTool(Names(calls[..i + 1])) == Some(ToolName(calls[i]))
  {
    assert calls[..i + 1][..i] == calls[..i];
  }

  /** How many `create_checkpoint_tool` calls a turn makes. */
  function Creates(calls: seq<ToolCall>): nat {
    if calls == [] then 0
    else Creates(calls[..|calls| - 1]) + (if calls[|calls| - 1].CreateCall? then 1 else 0)
  }

  /** `run` up to the automatic checkpoint: the user message appended, the
      tools run in order, then the reply appended and the agent's state
      merged into the session. */
  function Played(w: World, message: string, reply: string, calls: seq<ToolCall>, hasCps: bool, hasRows: bool,
                  t1: Datetime, t2: Datetime, tf: TimeFormat): World
  {
    var mid := Turn(w.(session := Asked(w.session, message, t1, tf)), calls, hasCps, hasRows, tf);
    mid.(session := Answered(mid.session, reply, mid.state, t2, tf))
  }

  /** Whether `run` takes the automatic checkpoint after the turn. */
  predicate AutoMade(p: World, calls: seq<ToolCall>, autoCheckpoint: bool, hasCps: bool) {
    AutoCheckpointDue(autoCheckpoint, Names(calls)) && hasCps && IdTruthy(p.session.id)
  }

  /** The end of `run` after the turn `p`: the automatic checkpoint named
      after the last tool when it is due, then the save of the session. */
  function Finished(p: World, calls: seq<ToolCall>, autoCheckpoint: bool, hasCps: bool, hasRows: bool, t: Datetime)
    : World
  {
    var made := AutoMade(p, calls, autoCheckpoint, hasCps);
    var d := if made then p.session.(checkpointCount := p.session.checkpointCount + 1) else p.session;
    var cps := if made then
                 p.cps[p.cpNext := Stored(FromInternalSession(p.session, Some(AfterTool(ToolName(calls[|calls| - 1]))),
                                                               true, t), p.cpNext)]
               else p.cps;
    p.(session := d, cps := cps, cpNext := if made then p.cpNext + 1 else p.cpNext,
       rows := if hasRows then IR.UpdatedRows(p.rows, d) else p.rows)
  }

  /** The whole of `run`. */
  function Ran(w: World, message: string, reply: string, calls: seq<ToolCall>, autoCheckpoint: bool,
               hasCps: bool, hasRows: bool, t1: Datetime, t2: Datetime, tf: TimeFormat): World
  {
    Finished(Played(w, message, reply, calls, hasCps, hasRows, t1, t2, tf), calls, autoCheckpoint, hasCps, hasRows, t2)
  }

  /** One call changes the agent's session only through a checkpoint made
      by `create_checkpoint_tool`, and never the internal sessions' next id. */
  lemma StepSession(w: World, c: ToolCall, hasCps: bool, hasRows: bool, tf: TimeFormat)
    ensures var n := if c.CreateCall? && hasCps && IdTruthy(w.session.id) then 1 else 0;
            var r := Step(w, c, hasCps, hasRows, tf);
            && r.session == w.session.(checkpointCount := w.session.checkpointCount + n)
            && r.cpNext == w.cpNext + n && r.rowsNext == w.rowsNext
  {
  }

  /** The tools change nothing of the agent's session but its checkpoint
      count, which goes up once per `create_checkpoint_tool` call when the
      agent has a checkpoints table and the session a truthy id, as does the
      next checkpoint id; the internal sessions table gets no new row. */
  lemma {:induction false} TurnSession(w: World, calls: seq<ToolCall>, hasCps: bool, hasRows: bool, tf: TimeFormat)
    ensures var n := if hasCps && IdTruthy(w.session.id) then Creates(calls) else 0;
            var r := Turn(w, calls, hasCps, hasRows, tf);
            && r.session == w.session.(checkpointCount := w.session.checkpointCount + n)
            && r.cpNext == w.cpNext + n && r.rowsNext == w.rowsNext
  {
    if calls != [] {
      var prefix := calls[..|calls| - 1];
      TurnSession(w, prefix, hasCps, hasRows, tf);
      StepSession(Turn(w, prefix, hasCps, hasRows, tf), calls[|calls| - 1], hasCps, hasRows, tf);
    }
  }

  /** From `w` to `r` the checkpoints table stays well formed, no checkpoint
      of a session other than the agent's is touched, and what is added is
      a manual checkpoint of the agent's session under a fresh id. */
  predicate KeepsOthers(w: World, r: World) {
    && CR.TableInvariant(r.cps, r.cpNext) && w.cpNext <= r.cpNext
    && (forall id :: id in w.cps && Some(w.cps[id].internalSessionId) != w.session.id ==>
          id in r.cps && r.cps[id] == w.cps[id])
    && (forall id :: id in r.cps && id !in w.cps ==>
          Some(r.cps[id].internalSessionId) == w.session.id && !r.cps[id].isAuto && w.cpNext <= id)
    && (forall id :: id in r.cps && id in w.cps ==> r.cps[id] == w.cps[id])
  }

  lemma KeepsOthersTrans(a: World, b: World, c: World)
    requires CR.TableInvariant(a.cps, a.cpNext)
    requires KeepsOthers(a, b) && KeepsOthers(b, c) && b.session.id == a.session.id
    ensures KeepsOthers(a, c)
  {
  }

  /** One call keeps the checkpoints table well formed and the session's
      id, touches no checkpoint of another session, and adds at most a
      manual checkpoint of the agent's own session. */
  lemma StepKeepsOtherCheckpoints(w: World, c: ToolCall, hasCps: bool, hasRows: bool, tf: TimeFormat)
    requires CR.TableInvariant(w.cps, w.cpNext)
    ensures var r := Step(w, c, hasCps, hasRows, tf);
            KeepsOthers(w, r) && r.session.id == w.session.id
  {
    if c.CleanupCall? && hasCps && IdTruthy(w.session.id) {
      CR.PrunedSpec(w.cps, w.cpNext, w.session.id.value, c.keep);
    }
  }

  /** The tools of a turn keep the checkpoints table well formed, never
      touch a checkpoint of another session, and add only manual
      checkpoints of the agent's own session. */
  lemma {:induction false} TurnKeepsOtherCheckpoints(w: World, calls: seq<ToolCall>, hasCps: bool, hasRows: bool,
                                                    tf: TimeFormat)
    requires CR.TableInvariant(w.cps, w.cpNext)
    ensures KeepsOthers(w, Turn(w, calls, hasCps, hasRows, tf))
  {
    if calls == [] {
      assert Turn(w, calls, hasCps, hasRows, tf) == w;
    } else {
      var prefix := calls[..|calls| - 1];
      var mid := Turn(w, prefix, hasCps, hasRows, tf);
      TurnKeepsOtherCheckpoints(w, prefix, hasCps, hasRows, tf);
      TurnSession(w, prefix, hasCps, hasRows, tf);
      StepKeepsOtherCheckpoints(mid, calls[|calls| - 1], hasCps, hasRows, tf);
      KeepsOthersTrans(w, mid, Step(mid, calls[|calls| - 1], hasCps, hasRows, tf));
    }
  }

  /** A turn that calls only tools that read (listing, details) or other
      tools changes nothing but the agent's Agno state. */
  lemma {:induction false} ReadOnlyTurn(w: World, calls: seq<ToolCall>, hasCps: bool, hasRows: bool, tf: TimeFormat)
    requires forall i :: 0 <= i < |calls| ==> calls[i].ListCall? || calls[i].InfoCall? || calls[i].OtherCall?
    ensures Turn(w, calls, hasCps, hasRows, tf) == w.(state := Turn(w, calls, hasCps, hasRows, tf).state)
  {
    if calls != [] {
      ReadOnlyTurn(w, calls[..|calls| - 1], hasCps, hasRows, tf);
    }
  }

  /** After `run` the history has grown by exactly the user message and the
      reply, the agent's state is merged into the session state, and the
      checkpoint count has grown by the manual checkpoints made during the
      turn and the automatic one. */
  lemma RunSession(w: World, message: string, reply: string, calls: seq<ToolCall>, autoCheckpoint: bool,
                   hasCps: bool, hasRows: bool, t1: Datetime, t2: Datetime, tf: TimeFormat)
    ensures var r := Ran(w, message, reply, calls, autoCheckpoint, hasCps, hasRows, t1, t2, tf);
            var made := AutoMade(Played(w, message, reply, calls, hasCps, hasRows, t1, t2, tf), calls, autoCheckpoint, hasCps);
            var manual := if hasCps && IdTruthy(w.session.id) then Creates(calls) else 0;
            && r.session.history == w.session.history + [IS.Message("user", message, tf.iso(t1), map[]),
                                                         IS.Message("assistant", reply, tf.iso(t2), map[])]
            && r.session.sessionState == IS.Merged(w.session.sessionState, r.state)
            && r.session.checkpointCount == w.session.checkpointCount + manual + (if made then 1 else 0)
            && r.session.id == w.session.id && r.session.isCurrent == w.session.isCurrent
  {
    var asked := Asked(w.session, message, t1, tf);
    TurnSession(w.(session := asked), calls, hasCps, hasRows, tf);
    var mid := Turn(w.(session := asked), calls, hasCps, hasRows, tf);
  }

  // ---------------------------------------------------------------------
  // The agent

  class RollbackAgent {
    const externalSessionId: int
    const agnoSessionId: string
    const autoCheckpoint: bool
    const sessions: IR.InternalSessionRepository?
    const checkpoints: CR.CheckpointRepository?
    const externals: ER.ExternalSessionRepository
    /** Agno's `session_state` of the agent. */
    var sessionState: Dict
    var session: IS.InternalSession?
    var toolWasCalled: bool
    var lastToolCalled: Option<string>
    var restoredFromCheckpoint: bool
    var restoredHistory: seq<Dict>

    predicate Valid()
      reads sessions, checkpoints, externals
    {
      && (sessions != null ==> sessions.Valid())
      && (checkpoints != null ==> checkpoints.Valid())
      && externals.Valid()
    }

    /** `self.internal_session.id` is truthy. */
    predicate Saved()
      reads this, session
    {
      session != null && IdTruthy(session.id)
    }

    /** `__init__`: the Agno session id is a fresh uuid, so it is not in the
        table yet; unless `skipSessionCreation`, a new current internal
        session is created and registered with the external session. */
    constructor (externalSessionId: int, agnoSessionId: string, autoCheckpoint: bool,
                 sessions: IR.InternalSessionRepository?, checkpoints: CR.CheckpointRepository?,
                 externals: ER.ExternalSessionRepository, sessionState: Dict,
                 skipSessionCreation: bool, now: Datetime)
      requires sessions != null ==> sessions.Valid()
      requires sessions != null && !skipSessionCreation ==> !IR.AgnoTaken(sessions.rows, agnoSessionId)
      requires checkpoints != null ==> checkpoints.Valid()
      requires externals.Valid()
      modifies sessions, externals
      ensures Valid()
      ensures this.externalSessionId == externalSessionId && this.agnoSessionId == agnoSessionId
      ensures this.autoCheckpoint == autoCheckpoint && this.sessionState == sessionState
      ensures this.sessions == sessions && this.checkpoints == checkpoints && this.externals == externals
      ensures !toolWasCalled && lastToolCalled == None && !restoredFromCheckpoint && restoredHistory == []
      ensures skipSessionCreation ==> session == null
      ensures skipSessionCreation && sessions != null ==> unchanged(sessions)
      ensures skipSessionCreation ==> unchanged(externals)
      ensures !skipSessionCreation ==> session != null && fresh(session) && session.isCurrent
      ensures !skipSessionCreation && sessions != null ==>
                && session.Data() == Opened(externalSessionId, agnoSessionId, sessionState, now).(id := Some(old(sessions.nextId)))
                && sessions.rows == IR.Demoted(old(sessions.rows), externalSessionId, None)[old(sessions.nextId) := session.Data()]
                && sessions.nextId == old(sessions.nextId) + 1
                && IR.OnlyCurrent(sessions.rows, externalSessionId, old(sessions.nextId))
      ensures !skipSessionCreation ==>
                externals.rows == ER.WithInternal(old(externals.rows), externalSessionId, agnoSessionId, now)
    {
      this.externalSessionId := externalSessionId;
      this.agnoSessionId := agnoSessionId;
      this.autoCheckpoint := autoCheckpoint;
      this.sessions := sessions;
      this.checkpoints := checkpoints;
      this.externals := externals;
      this.sessionState := sessionState;
      session := null;
      toolWasCalled := false;
      lastToolCalled := None;
      restoredFromCheckpoint := false;
      restoredHistory := [];
      new;
      if !skipSessionCreation {
        StartSession(now);
      }
    }

    /** `_create_internal_session` then `_register_with_external_session`: a
        new current session holding the agent's state, inserted into the
        table (which demotes its siblings) when there is one, and its Agno id
        added to the external session. */
    method StartSession(now: Datetime)
      requires Valid()
      requires sessions != null ==> !IR.AgnoTaken(sessions.rows, agnoSessionId)
      modifies this, sessions, externals
      ensures Valid() && session != null && fresh(session)
      ensures sessionState == old(sessionState) && toolWasCalled == old(toolWasCalled)
      ensures lastToolCalled == old(lastToolCalled) && restoredFromCheckpoint == old(restoredFromCheckpoint)
      ensures restoredHistory == old(restoredHistory)
      ensures sessions == null ==> session.Data() == Opened(externalSessionId, agnoSessionId, sessionState, now)
      ensures sessions != null ==>
                && session.Data() == Opened(externalSessionId, agnoSessionId, sessionState, now).(id := Some(old(sessions.nextId)))
                && sessions.rows == IR.Demoted(old(sessions.rows), externalSessionId, None)[old(sessions.nextId) := session.Data()]
                && sessions.nextId == old(sessions.nextId) + 1
                && IR.OnlyCurrent(sessions.rows, externalSessionId, old(sessions.nextId))
      ensures externals.rows == ER.WithInternal(old(externals.rows), externalSessionId, agnoSessionId, now)
      ensures externals.nextId == old(externals.nextId)
    {
      var s := new IS.InternalSession(Opened(externalSessionId, agnoSessionId, sessionState, now));
      if sessions != null {
        ghost var before := sessions.rows;
        ghost var next := sessions.nextId;
        var created := sessions.Create(s, now);
        IR.CreateSpec(before, next, Opened(externalSessionId, agnoSessionId, sessionState, now), now);
      }
      session := s;
      var registered := externals.AddInternalSession(externalSessionId, agnoSessionId, now);
    }

    /** `_save_internal_session`: an `update` of the session's row when there
        is a table and the session has a truthy id. */
    method SaveInternalSession()
      requires Valid() && session != null
      modifies sessions
      ensures Valid()
      ensures sessions != null ==> sessions.nextId == old(sessions.nextId)
      ensures sessions != null ==> sessions.rows == IR.UpdatedRows(old(sessions.rows), session.Data())
    {
      if sessions != null && IdTruthy(session.id) {
        var ok := sessions.Update(session.Data());
      }
    }

    /** `_create_auto_checkpoint`: with a table and a truthy session id, an
        automatic snapshot of the session is stored and the session's
        checkpoint count goes up by one; otherwise nothing happens. */
    method CreateAutoCheckpoint(name: string, now: Datetime)
      requires Valid() && session != null
      modifies session, checkpoints
      ensures Valid()
      ensures var made := checkpoints != null && IdTruthy(old(session.id));
              && (made ==>
                    && checkpoints.rows == old(checkpoints.rows)[old(checkpoints.nextId) :=
                         Stored(FromInternalSession(old(session.Data()), Some(name), true, now), old(checkpoints.nextId))]
                    && checkpoints.nextId == old(checkpoints.nextId) + 1
                    && session.Data() == old(session.Data()).(checkpointCount := old(session.checkpointCount) + 1))
              && (!made ==> session.Data() == old(session.Data()))
              && (!made && checkpoints != null ==> unchanged(checkpoints))
    {
      if checkpoints != null && IdTruthy(session.id) {
        var c := FromInternalSession(session.Data(), Some(name), true, now);
        var stored := checkpoints.Create(c, now);
        session.checkpointCount := session.checkpointCount + 1;
      }
    }

    /** The checkpoint hook, run once for every tool the model calls. */
    method CheckpointHook(name: string)
      modifies this
      ensures toolWasCalled && lastToolCalled == Some(name)
      ensures sessionState == old(sessionState) && session == old(session)
      ensures restoredFromCheckpoint == old(restoredFromCheckpoint) && restoredHistory == old(restoredHistory)
    {
      toolWasCalled := true;
      lastToolCalled := Some(name);
    }

    /** The world the agent's tools act on. */
    function Snapshot(): World
      reads this, session, checkpoints, sessions
      requires session != null
    {
      World(session.Data(), sessionState,
            if checkpoints != null then checkpoints.rows else map[], if checkpoints != null then checkpoints.nextId else 0,
            if sessions != null then sessions.rows else map[], if sessions != null then sessions.nextId else 0)
    }

    /** One tool call of the model's turn: the hook runs and then the tool;
        the tool's reply goes back to the model. */
    method Invoke(call: ToolCall, tf: TimeFormat)
      requires Valid() && session != null && ForeignNameDistinct(call)
      modifies this, session, checkpoints, sessions
      ensures Valid() && session == old(session)
      ensures Snapshot() == Step(old(Snapshot()), call, checkpoints != null, sessions != null, tf)
      ensures toolWasCalled && lastToolCalled == Some(ToolName(call))
      ensures restoredFromCheckpoint == old(restoredFromCheckpoint) && restoredHistory == old(restoredHistory)
    {
      CheckpointHook(ToolName(call));
      Dispatch(call, tf);
    }

    /** The tool the call names, run on the agent. */
    method Dispatch(call: ToolCall, tf: TimeFormat)
      requires Valid() && session != null
      modifies this, session, checkpoints, sessions
      ensures Valid() && session == old(session)
      ensures Snapshot() == Step(old(Snapshot()), call, checkpoints != null, sessions != null, tf)
      ensures toolWasCalled == old(toolWasCalled) && lastToolCalled == old(lastToolCalled)
      ensures restoredFromCheckpoint == old(restoredFromCheckpoint) && restoredHistory == old(restoredHistory)
    {
      ghost var w := Snapshot();
      match call {
        case CreateCall(name, at) =>
          var reply := CreateCheckpointTool(name, at, tf);
          assert Snapshot() == CreateStep(w, name, at, checkpoints != null, sessions != null, tf);
        case ListCall =>
          var reply := ListCheckpointsTool(tf);
        case RollbackCall(arg) =>
          var reply := RollbackToCheckpointTool(arg);
          assert Snapshot() == RollbackStep(w, arg, checkpoints != null);
        case DeleteCall(id) =>
          var reply := DeleteCheckpointTool(id);
          assert Snapshot() == DeleteStep(w, id, checkpoints != null);
        case InfoCall(id) =>
          var reply := GetCheckpointInfoTool(id);
        case CleanupCall(keep) =>
          var reply := CleanupAutoCheckpointsTool(keep);
          assert Snapshot() == CleanupStep(w, keep, checkpoints != null);
        case OtherCall(_, state) =>
          sessionState := state;
      }
    }

    /** The model's turn as `run` sees it: the tool-tracking fields are reset,
        then each call runs through the hook, in order. */
    method ModelTurn(calls: seq<ToolCall>, tf: TimeFormat)
      requires Valid() && session != null && ForeignNamesDistinct(calls)
      modifies this, session, checkpoints, sessions
      ensures Valid() && session == old(session)
      ensures Snapshot() == Turn(old(Snapshot()), calls, checkpoints != null, sessions != null, tf)
      ensures toolWasCalled == (calls != []) && lastToolCalled == LastTool(Names(calls))
      ensures restoredFromCheckpoint == old(restoredFromCheckpoint) && restoredHistory == old(restoredHistory)
    {
      toolWasCalled := false;
      lastToolCalled := None;
      for i := 0 to |calls|
        invariant Valid() && session == old(session)
        invariant Snapshot() == Turn(old(Snapshot()), calls[..i], checkpoints != null, sessions != null, tf)
        invariant toolWasCalled == (i > 0) && lastToolCalled == LastTool(Names(calls[..i]))
        invariant restoredFromCheckpoint == old(restoredFromCheckpoint) && restoredHistory == old(restoredHistory)
      {
        TurnExtended(old(Snapshot()), calls, i, checkpoints != null, sessions != null, tf);
        Invoke(calls[i], tf);
      }
      assert calls[..|calls|] == calls;
    }

    /** The part of `run` before the automatic checkpoint: the user message
        is appended, the restored history is handed to the model once, the
        model takes its turn, the reply is appended and the agent's state is
        merged into the session. */
    method RecordTurn(message: string, reply: string, calls: seq<ToolCall>, t1: Datetime, t2: Datetime,
                      tf: TimeFormat)
      requires Valid() && session != null && ForeignNamesDistinct(calls)
      modifies this, session, checkpoints, sessions
      ensures Valid() && session == old(session)
      ensures Snapshot() == Played(old(Snapshot()), message, reply, calls, checkpoints != null, sessions != null, t1, t2, tf)
      ensures toolWasCalled == (calls != []) && lastToolCalled == LastTool(Names(calls))
      ensures restoredFromCheckpoint == (old(restoredFromCheckpoint) && old(restoredHistory) == [])
      ensures restoredHistory == old(restoredHistory)
    {
      AskUser(message, t1, tf);
      ModelTurn(calls, tf);
      Answer(reply, t2, tf);
    }

    /** The start of `run`: the user message goes into the history, and a
        restored history, once handed to the model, clears the flag. */
    method AskUser(message: string, t: Datetime, tf: TimeFormat)
      requires Valid() && session != null
      modifies this, session
      ensures Valid() && session == old(session)
      ensures Snapshot() == old(Snapshot()).(session := Asked(old(Snapshot()).session, message, t, tf))
      ensures restoredFromCheckpoint == (old(restoredFromCheckpoint) && old(restoredHistory) == [])
      ensures restoredHistory == old(restoredHistory)
    {
      session.AddMessage("user", message, map[], t, tf);
      if restoredFromCheckpoint && restoredHistory != [] {
        restoredFromCheckpoint := false;
      }
    }

    /** The reply goes into the history and the agent's state is merged into
        the session state. */
    method Answer(reply: string, t: Datetime, tf: TimeFormat)
      requires Valid() && session != null
      modifies session
      ensures Valid()
      ensures Snapshot() == old(Snapshot()).(session := Answered(old(Snapshot()).session, reply, sessionState, t, tf))
    {
      session.AddMessage("assistant", reply, map[], t, tf);
      session.UpdateState(sessionState);
    }

    /** `run`, with the model's turn given by its reply and the tools it
        called: the turn is recorded, an automatic checkpoint is made when
        due, and the session is saved. */
    method Run(message: string, reply: string, calls: seq<ToolCall>, t1: Datetime, t2: Datetime, tf: TimeFormat)
      requires Valid() && session != null && ForeignNamesDistinct(calls)
      modifies this, session, checkpoints, sessions
      ensures Valid() && session == old(session)
      ensures Snapshot() == Ran(old(Snapshot()), message, reply, calls, autoCheckpoint, checkpoints != null,
                                sessions != null, t1, t2, tf)
      ensures toolWasCalled == (calls != []) && lastToolCalled == LastTool(Names(calls))
      ensures restoredFromCheckpoint == (old(restoredFromCheckpoint) && old(restoredHistory) == [])
      ensures restoredHistory == old(restoredHistory)
    {
      RecordTurn(message, reply, calls, t1, t2, tf);
      FinishTurn(calls, t2);
    }

    /** The end of `run`: the automatic checkpoint when due, then the save. */
    method FinishTurn(calls: seq<ToolCall>, now: Datetime)
      requires Valid() && session != null
      requires toolWasCalled == (calls != []) && lastToolCalled == LastTool(Names(calls))
      modifies session, checkpoints, sessions
      ensures Valid()
      ensures Snapshot() == Finished(old(Snapshot()), calls, autoCheckpoint, checkpoints != null, sessions != null, now)
    {
      ghost var f := Finished(Snapshot(), calls, autoCheckpoint, checkpoints != null, sessions != null, now);
      AutoCheckpointAfterTurn(Names(calls), now);
      assert session.Data() == f.session;
      assert checkpoints != null ==> checkpoints.rows == f.cps && checkpoints.nextId == f.cpNext;
      SaveInternalSession();
    }

    /** The automatic checkpoint `run` makes after a turn whose last tool
        call was not a checkpoint tool. */
    method AutoCheckpointAfterTurn(calls: seq<string>, now: Datetime)
      requires Valid() && session != null
      requires toolWasCalled == (calls != []) && lastToolCalled == LastTool(calls)
      modifies session, checkpoints
      ensures Valid()
      ensures var made := AutoCheckpointDue(autoCheckpoint, calls) && checkpoints != null && IdTruthy(old(session.id));
              && session.Data() == (if made then old(session.Data()).(checkpointCount := old(session.checkpointCount) + 1)
                                    else old(session.Data()))
              && (made ==>
                    checkpoints.rows == old(checkpoints.rows)[old(checkpoints.nextId) :=
                      Stored(FromInternalSession(old(session.Data()), Some(AfterTool(calls[|calls| - 1])), true, now),
                             old(checkpoints.nextId))]
                    && checkpoints.nextId == old(checkpoints.nextId) + 1)
              && (checkpoints != null && !made ==> unchanged(checkpoints))
    {
      if autoCheckpoint && toolWasCalled {
        if !IsCheckpointTool(lastToolCalled) {
          CreateAutoCheckpoint(AfterTool(lastToolCalled.value), now);
        }
      }
    }

    /** The part of `from_checkpoint` that puts the checkpoint's state and
        history into the new session and marks the agent as restored. */
    method Restore(target: Checkpoint)
      requires session != null
      modifies this, session
      ensures session == old(session)
      ensures session.Data() == old(session.Data()).(sessionState := target.sessionState, history := target.history)
      ensures restoredFromCheckpoint && restoredHistory == target.history
      ensures sessionState == old(sessionState) && toolWasCalled == old(toolWasCalled)
      ensures lastToolCalled == old(lastToolCalled)
    {
      session.sessionState := target.sessionState;
      session.history := target.history;
      restoredFromCheckpoint := true;
      restoredHistory := target.history;
    }

    /** `create_checkpoint_tool`: with a table and a truthy session id, a
        manual snapshot is stored, the checkpoint count goes up by one and the
        session is saved; otherwise nothing changes. */
    method CreateCheckpointTool(name: Option<string>, now: Datetime, tf: TimeFormat) returns (reply: ToolReply)
      requires Valid() && session != null
      modifies session, checkpoints, sessions
      ensures Valid()
      ensures var title := DefaultName(name, now, tf);
              var made := checkpoints != null && IdTruthy(old(session.id));
              && (made ==>
                    && checkpoints.rows == old(checkpoints.rows)[old(checkpoints.nextId) :=
                         Stored(FromInternalSession(old(session.Data()), Some(title), false, now), old(checkpoints.nextId))]
                    && checkpoints.nextId == old(checkpoints.nextId) + 1
                    && session.Data() == old(session.Data()).(checkpointCount := old(session.checkpointCount) + 1)
                    && (sessions != null ==> sessions.rows == IR.UpdatedRows(old(sessions.rows), session.Data()))
                    && (sessions != null ==> sessions.nextId == old(sessions.nextId))
                    && reply == Created(title, old(checkpoints.nextId)))
              && (!made ==>
                    && reply == CreateFailed && session.Data() == old(session.Data())
                    && (checkpoints != null ==> unchanged(checkpoints))
                    && (sessions != null ==> unchanged(sessions)))
    {
      var title := DefaultName(name, now, tf);
      if checkpoints != null && IdTruthy(session.id) {
        var c := FromInternalSession(session.Data(), Some(title), false, now);
        var stored := checkpoints.Create(c, now);
        session.checkpointCount := session.checkpointCount + 1;
        SaveInternalSession();
        return Created(title, stored.id.value);
      }
      return CreateFailed;
    }

    /** What `list_checkpoints_tool` reports: all checkpoints of the session,
        newest first. */
    function Listed(): ToolReply
      reads this, session, checkpoints
      requires checkpoints != null ==> checkpoints.Valid()
    {
      if checkpoints == null || !Saved() then NoSession
      else
        var cs := checkpoints.GetByInternalSession(session.id.value, false);
        if cs == [] then NoneListed else Listing(cs)
    }

    /** `list_checkpoints_tool`: the listing is built entry by entry. */
    method ListCheckpointsTool(tf: TimeFormat) returns (reply: string)
      requires Valid()
      ensures reply == Text(Listed(), tf)
    {
      if checkpoints == null || session == null || !IdTruthy(session.id) {
        return Text(NoSession, tf);
      }
      var cs := checkpoints.GetByInternalSession(session.id.value, false);
      if cs == [] {
        return Text(NoneListed, tf);
      }
      var lines := ConcatLoop(cs, EntryOf(tf));
      reply := "Available checkpoints:\n" + lines;
    }

    /** The checkpoint `rollback_to_checkpoint_tool` resolves `arg` to, in
        the agent's own table and session. */
    function Resolve(arg: Target): Option<Checkpoint>
      reads this, session, checkpoints
      requires checkpoints != null && checkpoints.Valid()
    {
      ResolveIn(checkpoints.rows, checkpoints.nextId, if session == null then None else session.id, arg)
    }

    /** `rollback_to_checkpoint_tool`: only the request flags change, and only
        when the target resolves. */
    method RollbackToCheckpointTool(arg: Target) returns (reply: ToolReply)
      requires Valid()
      modifies this
      ensures Valid()
      ensures checkpoints == null ==> reply == Unavailable && sessionState == old(sessionState)
      ensures checkpoints != null && Resolve(arg).None? ==>
                reply == NotFound(TargetText(arg)) && sessionState == old(sessionState)
      ensures checkpoints != null && Resolve(arg).Some? ==>
                && sessionState == RollbackRequested(old(sessionState), Resolve(arg).value.id)
                && reply == Requested(Resolve(arg).value)
      ensures session == old(session) && toolWasCalled == old(toolWasCalled)
      ensures lastToolCalled == old(lastToolCalled) && restoredFromCheckpoint == old(restoredFromCheckpoint)
      ensures restoredHistory == old(restoredHistory)
    {
      if checkpoints == null {
        return Unavailable;
      }
      var target: Option<Checkpoint> := None;
      var n := TargetId(arg);
      if n.Some? {
        target := checkpoints.GetById(n.value);
      } else if session != null && IdTruthy(session.id) {
        var all := checkpoints.GetByInternalSession(session.id.value, false);
        target := FindByName(all, Lower(TargetText(arg)));
      }
      if target.None? {
        return NotFound(TargetText(arg));
      }
      sessionState := RollbackRequested(sessionState, target.value.id);
      reply := Requested(target.value);
    }

    /** `delete_checkpoint_tool`: a checkpoint of another internal session is
        refused and stays. */
    method DeleteCheckpointTool(id: int) returns (reply: ToolReply)
      requires Valid() && session != null
      modifies checkpoints
      ensures Valid()
      ensures checkpoints == null ==> reply == Unavailable
      ensures checkpoints != null ==>
                var own := id in old(checkpoints.rows) && Some(old(checkpoints.rows)[id].internalSessionId) == session.id;
                && checkpoints.rows == (if own then old(checkpoints.rows) - {id} else old(checkpoints.rows))
                && checkpoints.nextId == old(checkpoints.nextId)
                && reply == (if id !in old(checkpoints.rows) then MissingId(id)
                             else if !own then OnlyOwn else Deleted(id))
    {
      if checkpoints == null {
        return Unavailable;
      }
      var c := checkpoints.GetById(id);
      if c.None? {
        return MissingId(id);
      }
      if Some(c.value.internalSessionId) != session.id {
        return OnlyOwn;
      }
      var deleted := checkpoints.Delete(id);
      reply := if deleted then Deleted(id) else DeleteFailed(id);
    }

    /** `get_checkpoint_info_tool` */
    function GetCheckpointInfoTool(id: int): (r: ToolReply)
      reads this, checkpoints
      ensures checkpoints == null <==> r == Unavailable
      ensures r.Info? <==> checkpoints != null && id in checkpoints.rows
      ensures r.Info? ==> r.details == checkpoints.rows[id]
      ensures checkpoints != null && id !in checkpoints.rows ==> r == MissingId(id)
    {
      if checkpoints == null then Unavailable
      else if id !in checkpoints.rows then MissingId(id)
      else Info(checkpoints.rows[id])
    }

    /** `cleanup_auto_checkpoints_tool`: `delete_auto_checkpoints` on the
        current session, reporting how many rows went. */
    method CleanupAutoCheckpointsTool(keepLatest: int) returns (reply: ToolReply)
      requires Valid() && session != null
      modifies checkpoints
      ensures Valid()
      ensures checkpoints == null || !IdTruthy(session.id) ==> reply == NoSession
      ensures checkpoints != null && !IdTruthy(session.id) ==> unchanged(checkpoints)
      ensures checkpoints != null && IdTruthy(session.id) ==>
                var removed := |old(checkpoints.rows).Keys| - |checkpoints.rows.Keys|;
                && checkpoints.rows == CR.Pruned(old(checkpoints.rows), old(checkpoints.nextId), session.id.value, keepLatest)
                && checkpoints.nextId == old(checkpoints.nextId)
                && reply == Cleanup(removed, keepLatest)
    {
      if checkpoints == null || !IdTruthy(session.id) {
        return NoSession;
      }
      var removed := checkpoints.DeleteAutoCheckpoints(session.id.value, keepLatest);
      reply := Cleanup(removed, keepLatest);
    }
  }

  /** The copy loop of `from_checkpoint`: each listed checkpoint no later
      than the target is created again for session `sid`, in list order. */
  method CopyEarlier(checkpoints: CR.CheckpointRepository, original: seq<Checkpoint>, target: Checkpoint,
                     sid: int, now: Datetime)
    requires checkpoints.Valid()
    modifies checkpoints
    ensures checkpoints.Valid()
    ensures checkpoints.rows == AppendAll(old(checkpoints.rows), old(checkpoints.nextId), Copies(original, target, sid))
    ensures checkpoints.nextId == old(checkpoints.nextId) + |Copies(original, target, sid)|
  {
    ghost var rows0, next0 := checkpoints.rows, checkpoints.nextId;
    for i := 0 to |original|
      invariant checkpoints.Valid()
      invariant checkpoints.rows == AppendAll(rows0, next0, Copies(original[..i], target, sid))
      invariant checkpoints.nextId == next0 + |Copies(original[..i], target, sid)|
    {
      ghost var before := Copies(original[..i], target, sid);
      CopiesStep(original, i, target, sid);
      var c := original[i];
      if CopiedFrom(c, target) {
        var stored := checkpoints.Create(Copy(c, sid), now);
        AppendAllStep(rows0, next0, before, Copy(c, sid));
      } else {
        assert before + [] == before;
      }
    }
    assert original[..|original|] == original;
  }

  /** Saving the forked session rewrites its own row to the session and
      leaves it the only current session of its external session. */
  lemma ForkSaved(created: IR.Table, next: int, d: IS.InternalSessionData)
    requires IR.TableInvariant(created, next)
    requires d.id.Some? && d.id.value != 0 && d.id.value in created && d.isCurrent
    requires var row := created[d.id.value];
             row.externalSessionId == d.externalSessionId && row.agnoSessionId == d.agnoSessionId
             && row.createdAt == d.createdAt
    ensures var after := IR.UpdatedRows(created, d);
            && IR.TableInvariant(after, next)
            && d.id.value in after && after[d.id.value] == d
            && IR.OnlyCurrent(after, d.externalSessionId, d.id.value)
  {
    IR.UpdateKeepsOneCurrent(created, next, d);
    IR.UpdateSpec(created, next, d);
  }

  /** Saving the forked session over the row `create` just inserted gives the
      demoted table plus the forked row: every earlier row, the source
      session's included, at most loses its current flag. */
  lemma ForkedRows(rows: IR.Table, n: int, inserted: IS.InternalSessionData, d: IS.InternalSessionData)
    requires n !in rows && n != 0 && d.id == Some(n) && d.isCurrent
    requires inserted.externalSessionId == d.externalSessionId && IR.Rewritten(inserted, d) == d
    ensures IR.UpdatedRows(IR.Demoted(rows, d.externalSessionId, None)[n := inserted], d)
            == IR.Demoted(rows, d.externalSessionId, None)[n := d]
    ensures var r := IR.Demoted(rows, d.externalSessionId, None)[n := d];
            forall id :: id in rows ==> id in r && r[id] == rows[id].(isCurrent := r[id].isCurrent)
  {
    var ext := d.externalSessionId;
    var created := IR.Demoted(rows, ext, None)[n := inserted];
    IR.DemotedSpec(rows, ext, None);
    IR.DemotedSpec(created, ext, Some(n));
    var after := IR.UpdatedRows(created, d);
    var want := IR.Demoted(rows, ext, None)[n := d];
    assert after.Keys == want.Keys;
    forall k | k in after
      ensures after[k] == want[k]
    {
    }
  }

  /** The error `from_checkpoint` raises for an unknown checkpoint. */
  function MissingCheckpoint(id: int): string {
    "Checkpoint " + IntToString(id) + " not found"
  }

  /** The session `from_checkpoint` leaves behind: the new row's id, the
      target's state and history, current, no checkpoints counted. */
  function Forked(id: int, ext: int, agno: string, target: Checkpoint, now: Datetime): IS.InternalSessionData {
    IS.InternalSessionData(Some(id), ext, agno, target.sessionState, target.history, Some(now), true, 0)
  }

  /** `RollbackAgent.from_checkpoint`: fails before creating anything for an
      unknown checkpoint; otherwise starts a new current session, gives it the
      target's state and history, copies the source session's checkpoints
      that are no later than the target, and saves the session. */
  method FromCheckpoint(checkpointId: int, externalSessionId: int, agnoSessionId: string,
                        autoCheckpoint: bool, stateOverride: Option<Dict>,
                        checkpoints: CR.CheckpointRepository, sessions: IR.InternalSessionRepository,
                        externals: ER.ExternalSessionRepository, now: Datetime)
    returns (r: Result<RollbackAgent, string>)
    requires checkpoints.Valid() && sessions.Valid() && externals.Valid()
    requires !IR.AgnoTaken(sessions.rows, agnoSessionId)
    modifies checkpoints, sessions, externals
    ensures checkpoints.Valid() && sessions.Valid() && externals.Valid()
    ensures checkpointId !in old(checkpoints.rows) ==>
              && r == Err(MissingCheckpoint(checkpointId))
              && unchanged(checkpoints) && unchanged(sessions) && unchanged(externals)
    ensures checkpointId in old(checkpoints.rows) ==>
              && r.Ok? && fresh(r.value) && r.value.session != null && fresh(r.value.session)
              && var target := old(checkpoints.rows)[checkpointId];
                 var newId := old(sessions.nextId);
                 && r.value.session.Data() == Forked(newId, externalSessionId, agnoSessionId, target, now)
                 && r.value.sessionState == stateOverride.GetOr(target.sessionState)
                 && r.value.restoredFromCheckpoint && r.value.restoredHistory == target.history
                 && sessions.rows == IR.Demoted(old(sessions.rows), externalSessionId, None)[newId := r.value.session.Data()]
                 && sessions.nextId == newId + 1
                 && (forall id :: id in old(sessions.rows) ==>
                       id in sessions.rows && sessions.rows[id] == old(sessions.rows)[id].(isCurrent := sessions.rows[id].isCurrent))
                 && IR.OnlyCurrent(sessions.rows, externalSessionId, newId)
                 && checkpoints.rows == AppendAll(old(checkpoints.rows), old(checkpoints.nextId),
                      Copies(CR.Listed(old(checkpoints.rows), old(checkpoints.nextId), target.internalSessionId, false), target, newId))
                 && externals.rows == ER.WithInternal(old(externals.rows), externalSessionId, agnoSessionId, now)
  {
    ghost var rows0 := sessions.rows;
    var found := checkpoints.GetById(checkpointId);
    if found.None? {
      return Err(MissingCheckpoint(checkpointId));
    }
    var target := found.value;
    var state := if stateOverride.Some? then stateOverride.value else target.sessionState;
    var agent := new RollbackAgent(externalSessionId, agnoSessionId, autoCheckpoint, sessions, checkpoints,
                                   externals, state, true, now);
    agent.StartSession(now);
    ghost var created := sessions.rows;
    agent.Restore(target);
    var s := agent.session;
    var newId := s.id.value;
    var original := checkpoints.GetByInternalSession(target.internalSessionId, false);
    CopyEarlier(checkpoints, original, target, newId, now);
    agent.SaveInternalSession();
    ForkSaved(created, sessions.nextId, s.Data());
    ForkedRows(rows0, newId, created[newId], s.Data());
    r := Ok(agent);
  }
}
