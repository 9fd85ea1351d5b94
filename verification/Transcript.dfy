/** The two shapes of a conversation and the unit between them.

    `ConversationTurn` is the shim shape the orchestrator stores; `Turn` is the
    neutral shape, an ordered list of typed blocks; `WireTurn` is the
    message-granular unit the native request builders work on. */
module Transcript {
  import opened Basics
  import opened Sequences

  /** The three roles the code compares against; any other role string is carried verbatim. */
  datatype Role = User | Assistant | Tool | Other(name: string)

  datatype Thinking = Thinking(text: string, signature: string)

  datatype ImageSource = ImageSource(kind: string, mediaType: string, data: string, url: string, fileId: string)

  datatype ContentBlock = ContentBlock(kind: string, text: string, source: Option<ImageSource>)

  const IMAGE := "image"
  const TEXT := "text"

  datatype ToolCallRequest = ToolCallRequest(id: string, name: string, input: string)

  datatype ConversationTurn = ConversationTurn(
    role: Role,
    content: string,
    contentBlocks: seq<ContentBlock>,
    toolCalls: seq<ToolCallRequest>,
    toolCallId: string,
    isError: bool,
    category: string,
    origin: string,
    summary: string,
    timestampMs: int,
    thinking: seq<Thinking>,
    providerName: string,
    model: string,
    subAgentCalls: seq<string>)

  /** A turn that sets its role and leaves every other field zero. */
  function BlankTurn(role: Role): ConversationTurn {
    ConversationTurn(role, "", [], [], "", false, "", "", "", 0, [], "", "", [])
  }

  // The neutral model.

  datatype ToolCall = ToolCall(id: string, name: string, paramsJson: string)

  datatype ToolResult = ToolResult(callId: string, content: string, isError: bool)

  const NO_RESULT := ToolResult("", "", false)

  datatype BlockKind = KText | KThinking | KToolCall | KToolResult | KImage | KOther(name: string)

  /** A block of a kind carries the payload of that kind; the other payloads may be missing. */
  datatype Block = Block(
    kind: BlockKind,
    text: string,
    thinking: Option<Thinking>,
    toolCall: Option<ToolCall>,
    toolResult: Option<ToolResult>,
    image: Option<ImageSource>)

  datatype Turn = Turn(
    role: Role,
    blocks: seq<Block>,
    category: string,
    origin: string,
    summary: string,
    timestampMs: int)

  datatype WireTurn = WireTurn(
    role: Role,
    content: string,
    thinking: seq<Thinking>,
    toolCalls: seq<ToolCall>,
    result: ToolResult,
    blocks: seq<ContentBlock>)

  function BlankUnit(role: Role): WireTurn {
    WireTurn(role, "", [], [], NO_RESULT, [])
  }

  /** An assistant turn that issued tool calls owns the run of tool turns right after it. */
  predicate IsCaller(t: ConversationTurn) {
    t.role == Assistant && t.toolCalls != []
  }

  predicate IsCallerUnit(u: WireTurn) {
    u.role == Assistant && u.toolCalls != []
  }

  function CallIds(calls: seq<ToolCallRequest>): (ids: set<string>) {
    set c | c in calls :: c.id
  }

  function ResultIds(run: seq<ConversationTurn>): (ids: set<string>) {
    set t | t in run :: t.toolCallId
  }

  ghost predicate AllTools(ts: seq<ConversationTurn>) {
    forall i :: 0 <= i < |ts| ==> ts[i].role == Tool
  }

  /** The number of consecutive tool turns at the front. */
  function ToolRun(ts: seq<ConversationTurn>): (n: nat)
    ensures n <= |ts|
    ensures AllTools(ts[..n])
    ensures n < |ts| ==> ts[n].role != Tool
  {
    if ts == [] || ts[0].role != Tool then 0 else 1 + ToolRun(ts[1..])
  }

  /** A run of tool turns in front of a turn of another role is exactly the leading tool run. */
  lemma {:induction false} ToolRunConcat(run: seq<ConversationTurn>, rest: seq<ConversationTurn>)
    requires AllTools(run)
    requires rest == [] || rest[0].role != Tool
    ensures ToolRun(run + rest) == |run|
    ensures (run + rest)[..|run|] == run && (run + rest)[|run|..] == rest
  {
    if run == [] {
      assert run + rest == rest;
    } else {
      assert (run + rest)[1..] == run[1..] + rest;
      ToolRunConcat(run[1..], rest);
    }
    ConcatParts(run, rest);
  }
}
