/** The instruction text of the legacy agent
    (src/rollback_agent/utils/instructions.py): fixed checkpoint guidance,
    lines rendered from an `InstructionContext`, and optional Baidu search
    guidance. */
module Instructions {
  import opened Values

  /** `InstructionContext` */
  datatype InstructionContext = InstructionContext(
    autoCheckpointInterval: int,
    maxCheckpoints: int,
    messageCounter: int,
    checkpoints: seq<string>,
    restoredConversationContext: string)

  /** `get_checkpoint_instructions()` */
  function CheckpointInstructions(): seq<string> {
    [ "You are an AI assistant with checkpoint and rollback capabilities.",
      "You can:",
      "- Create checkpoints to save the current conversation state",
      "- List all available checkpoints",
      "- Rollback to a previous checkpoint (restores state and removes newer checkpoints)",
      "- Delete checkpoints that are no longer needed" ]
  }

  /** `get_checkpoint_context_lines(ctx)`: five lines, then the restored
      conversation context when it is not empty. */
  function ContextLines(ctx: InstructionContext): seq<string> {
    var lines := [ "Current checkpoint configuration:",
                   "- Auto checkpoint interval: " + IntToString(ctx.autoCheckpointInterval) + " messages",
                   "- Maximum checkpoints: " + IntToString(ctx.maxCheckpoints),
                   "- Current message count: " + IntToString(ctx.messageCounter),
                   "Available checkpoints: " + ReprStringList(ctx.checkpoints) ];
    if ctx.restoredConversationContext != "" then lines + [ctx.restoredConversationContext] else lines
  }

  /** `get_baidu_search_instructions()` */
  function BaiduInstructions(): seq<string> {
    [ "Baidu search usage guidelines:",
      "- Given a topic by the user, respond with the 3 most relevant search results about that topic",
      "- Search for 5 results and select the top 3 unique items",
      "- Search in both English and Chinese" ]
  }

  /** `compose_instructions(ctx, include_baidu_search=...)` */
  function ComposeInstructions(ctx: InstructionContext, includeBaiduSearch: bool): seq<string> {
    ComposeFrom(CheckpointInstructions(), ctx, BaiduInstructions(), includeBaiduSearch)
  }

  /** The composition over given fixed and Baidu lines: the fixed lines, the
      context lines, then the Baidu lines when they are asked for. */
  function ComposeFrom(fixed: seq<string>, ctx: InstructionContext, baidu: seq<string>, includeBaiduSearch: bool)
    : seq<string>
  {
    fixed + ContextLines(ctx) + (if includeBaiduSearch then baidu else [])
  }

  /** The composed list starts with the fixed checkpoint lines, goes on with
      the five context lines (header first, checkpoint names last) and,
      exactly when it is not empty, the restored conversation context, and
      ends with the Baidu lines exactly when they are asked for. With the
      real texts there are six fixed lines (`CheckpointLineCount`) and four
      Baidu lines (`BaiduLineCount`). */
  lemma ComposeShape(fixed: seq<string>, ctx: InstructionContext, baidu: seq<string>, includeBaiduSearch: bool)
    ensures var r := ComposeFrom(fixed, ctx, baidu, includeBaiduSearch);
            var n := |fixed|;
            var extra := if ctx.restoredConversationContext != "" then 1 else 0;
            && |r| == n + 5 + extra + (if includeBaiduSearch then |baidu| else 0)
            && r[..n] == fixed
            && r[n] == "Current checkpoint configuration:"
            && r[n + 4] == "Available checkpoints: " + ReprStringList(ctx.checkpoints)
            && (extra == 1 ==> r[n + 5] == ctx.restoredConversationContext)
            && (includeBaiduSearch ==> r[n + 5 + extra..] == baidu)
  {
    ContextShape(ctx);
    var c := ContextLines(ctx);
    var b := if includeBaiduSearch then baidu else [];
    Pieces(fixed, c, b);
  }

  lemma CheckpointLineCount()
    ensures |CheckpointInstructions()| == 6
  {
  }

  lemma BaiduLineCount()
    ensures |BaiduInstructions()| == 4
  {
  }

  /** The context lines: the header, three settings, the checkpoint names
      and, when it is not empty, the restored conversation context. */
  lemma ContextShape(ctx: InstructionContext)
    ensures var c := ContextLines(ctx);
            && |c| == 5 + (if ctx.restoredConversationContext != "" then 1 else 0)
            && c[0] == "Current checkpoint configuration:"
            && c[4] == "Available checkpoints: " + ReprStringList(ctx.checkpoints)
            && (ctx.restoredConversationContext != "" ==> c[5] == ctx.restoredConversationContext)
  {
  }

  /** Where the three parts of `a + c + b` sit. */
  lemma Pieces<T>(a: seq<T>, c: seq<T>, b: seq<T>)
    ensures |a + c + b| == |a| + |c| + |b|
    ensures (a + c + b)[..|a|] == a
    ensures (a + c + b)[|a|..|a| + |c|] == c
    ensures (a + c + b)[|a| + |c|..] == b
  {
    assert (a + c + b)[..|a|] == a;
    assert (a + c + b)[|a|..|a| + |c|] == c;
  }
}
