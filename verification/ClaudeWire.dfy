/** Claude requests: the shim builder, the native builder over wire units, their
    equality, and the adjacency rule the emitted messages satisfy. */
module ClaudeWire {
  import opened Basics
  import opened Sequences
  import opened Transcript
  import opened ToolPairing

  datatype WireBlock =
    | WText(text: string)
    | WThinking(thinking: string, signature: string)
    | WToolUse(id: string, name: string, input: string)
    | WToolResult(toolUseId: string, content: string, isError: bool)
    | WImage(source: Option<ImageSource>)

  datatype Content = Plain(text: string) | Blocks(blocks: seq<WireBlock>) | Attachments(attachments: seq<ContentBlock>)

  datatype Message = Message(role: Role, content: Content)

  /** The leaf transforms both builders share: media-type healing of an image block and
      the replacement of invalid tool input. */
  datatype Edge = Edge(healImage: ContentBlock -> ContentBlock, sanitizeInput: string -> string)

  // Emission of one turn.

  function BlockOnWire(e: Edge, cb: ContentBlock): WireBlock {
    if cb.kind == IMAGE then WImage(e.healImage(cb).source) else WText(cb.text)
  }

  function BlocksOnWire(e: Edge, cbs: seq<ContentBlock>): seq<WireBlock> {
    seq(|cbs|, i requires 0 <= i < |cbs| => BlockOnWire(e, cbs[i]))
  }

  function LeadingText(content: string): seq<WireBlock> {
    if content == "" then [] else [WText(content)]
  }

  function UserMessage(e: Edge, content: string, cbs: seq<ContentBlock>): Message {
    if cbs == [] then Message(User, Plain(content))
    else Message(User, Blocks(LeadingText(content) + BlocksOnWire(e, cbs)))
  }

  function ReplayedThinking(ts: seq<Thinking>): seq<WireBlock> {
    if ts == [] then []
    else if ts[0].text == "" && ts[0].signature == "" then ReplayedThinking(ts[1..])
    else [WThinking(ts[0].text, ts[0].signature)] + ReplayedThinking(ts[1..])
  }

  function ToolUses(e: Edge, cs: seq<ToolCallRequest>): seq<WireBlock> {
    seq(|cs|, i requires 0 <= i < |cs| => WToolUse(cs[i].id, cs[i].name, e.sanitizeInput(cs[i].input)))
  }

  function AssistantBlocks(e: Edge, t: ConversationTurn): seq<WireBlock> {
    ReplayedThinking(t.thinking) + LeadingText(t.content) + ToolUses(e, t.toolCalls)
  }

  /** An assistant turn with nothing to say emits no message. */
  function OptionalAssistant(blocks: seq<WireBlock>): seq<Message> {
    if blocks == [] then [] else [Message(Assistant, Blocks(blocks))]
  }

  function ResultBlocks(run: seq<ConversationTurn>): seq<WireBlock> {
    seq(|run|, i requires 0 <= i < |run| => WToolResult(run[i].toolCallId, run[i].content, run[i].isError))
  }

  function HealedBlocks(e: Edge, cbs: seq<ContentBlock>): seq<ContentBlock> {
    seq(|cbs|, i requires 0 <= i < |cbs| => e.healImage(cbs[i]))
  }

  function RunAttachments(e: Edge, run: seq<ConversationTurn>): seq<ContentBlock> {
    if run == [] then [] else HealedBlocks(e, run[0].contentBlocks) + RunAttachments(e, run[1..])
  }

  function OptionalAttachments(cbs: seq<ContentBlock>): seq<Message> {
    if cbs == [] then [] else [Message(User, Attachments(cbs))]
  }

  /** What a turn that is not a tool result emits on its own. */
  function EmitTurn(e: Edge, t: ConversationTurn): seq<Message> {
    match t.role
    case User => [UserMessage(e, t.content, t.contentBlocks)]
    case Assistant => OptionalAssistant(AssistantBlocks(e, t))
    case _ => []
  }

  /** A whole run of tool results becomes one message, its attachments one more. */
  function EmitResults(e: Edge, run: seq<ConversationTurn>): seq<Message> {
    [Message(User, Blocks(ResultBlocks(run)))] + OptionalAttachments(RunAttachments(e, run))
  }

  function Emit(e: Edge, ts: seq<ConversationTurn>): seq<Message>
    decreases |ts|
  {
    if ts == [] then []
    else if ts[0].role == Tool then EmitResults(e, ts[..ToolRun(ts)]) + Emit(e, ts[ToolRun(ts)..])
    else EmitTurn(e, ts[0]) + Emit(e, ts[1..])
  }

  /** The request the shim builder makes of a conversation. */
  function Messages(e: Edge, conv: seq<ConversationTurn>): seq<Message> {
    Emit(e, HealPairing(HealHead(conv)))
  }

  // The shim builder's loops.

  method EmitUser(e: Edge, content: string, cbs: seq<ContentBlock>) returns (m: Message)
    ensures m == UserMessage(e, content, cbs)
  {
    if |cbs| > 0 {
      var blocks := [];
      for i := 0 to |cbs|
        invariant blocks == BlocksOnWire(e, cbs[..i])
      {
        blocks := blocks + [BlockOnWire(e, cbs[i])];
      }
      assert cbs[..|cbs|] == cbs;
      if content != "" {
        blocks := [WText(content)] + blocks;
      }
      assert blocks == LeadingText(content) + BlocksOnWire(e, cbs);
      m := Message(User, Blocks(blocks));
    } else {
      m := Message(User, Plain(content));
    }
  }

  method EmitThinking(ts: seq<Thinking>) returns (blocks: seq<WireBlock>)
    ensures blocks == ReplayedThinking(ts)
  {
    blocks := [];
    for i := 0 to |ts|
      invariant ReplayedThinking(ts) == blocks + ReplayedThinking(ts[i..])
    {
      DropStep(ts, i);
      if !(ts[i].text == "" && ts[i].signature == "") {
        blocks := blocks + [WThinking(ts[i].text, ts[i].signature)];
      }
    }
  }

  method EmitAssistant(e: Edge, t: ConversationTurn) returns (ms: seq<Message>)
    ensures ms == OptionalAssistant(AssistantBlocks(e, t))
  {
    var blocks := EmitThinking(t.thinking);
    if t.content != "" {
      blocks := blocks + [WText(t.content)];
    }
    ghost var head := blocks;
    for i := 0 to |t.toolCalls|
      invariant blocks == head + ToolUses(e, t.toolCalls[..i])
    {
      var tc := t.toolCalls[i];
      blocks := blocks + [WToolUse(tc.id, tc.name, e.sanitizeInput(tc.input))];
    }
    assert t.toolCalls[..|t.toolCalls|] == t.toolCalls;
    if |blocks| > 0 {
      ms := [Message(Assistant, Blocks(blocks))];
    } else {
      ms := [];
    }
  }

  lemma {:induction false} RunAttachmentsSnoc(e: Edge, run: seq<ConversationTurn>, t: ConversationTurn)
    ensures RunAttachments(e, run + [t]) == RunAttachments(e, run) + HealedBlocks(e, t.contentBlocks)
  {
    if run == [] {
      assert run + [t] == [t];
    } else {
      assert (run + [t])[1..] == run[1..] + [t];
      RunAttachmentsSnoc(e, run[1..], t);
    }
  }

  lemma ResultBlocksSnoc(run: seq<ConversationTurn>, t: ConversationTurn)
    ensures ResultBlocks(run + [t]) == ResultBlocks(run) + [WToolResult(t.toolCallId, t.content, t.isError)]
  {
  }

  /** The inner loop over a run of tool turns; `next` is the turn after the run. */
  method EmitToolRun(e: Edge, conv: seq<ConversationTurn>, from: nat) returns (ms: seq<Message>, next: nat)
    requires from < |conv| && conv[from].role == Tool
    ensures next == from + ToolRun(conv[from..]) && from < next <= |conv|
    ensures ms == EmitResults(e, conv[from..next])
  {
    var results, attachments := [], [];
    next := from;
    while next < |conv| && conv[next].role == Tool
      invariant from <= next <= |conv|
      invariant ToolRun(conv[from..]) == (next - from) + ToolRun(conv[next..])
      invariant results == ResultBlocks(conv[from..next])
      invariant attachments == RunAttachments(e, conv[from..next])
    {
      var tr := conv[next];
      SliceSnoc(conv, from, next);
      DropStep(conv, next);
      ResultBlocksSnoc(conv[from..next], tr);
      RunAttachmentsSnoc(e, conv[from..next], tr);
      results := results + [WToolResult(tr.toolCallId, tr.content, tr.isError)];
      attachments := attachments + HealedBlocks(e, tr.contentBlocks);
      next := next + 1;
    }
    ms := [Message(User, Blocks(results))];
    if |attachments| > 0 {
      ms := ms + [Message(User, Attachments(attachments))];
    }
  }

  lemma EmitFrom(e: Edge, conv: seq<ConversationTurn>, i: nat, next: nat)
    requires i < |conv|
    requires next == if conv[i].role == Tool then i + ToolRun(conv[i..]) else i + 1
    ensures Emit(e, conv[i..])
         == (if conv[i].role == Tool then EmitResults(e, conv[i..next]) else EmitTurn(e, conv[i])) + Emit(e, conv[next..])
  {
    DropStep(conv, i);
    DropSplit(conv, i, next);
  }

  /** One iteration of the emission loop: the messages of the turn, or of the whole tool run, at `ti`. */
  method EmitAt(e: Edge, conv: seq<ConversationTurn>, ti: nat) returns (ms: seq<Message>, next: nat)
    requires ti < |conv|
    ensures ti < next <= |conv|
    ensures Emit(e, conv[ti..]) == ms + Emit(e, conv[next..])
  {
    var turn := conv[ti];
    ms, next := [], ti + 1;
    match turn.role {
      case User =>
        var m := EmitUser(e, turn.content, turn.contentBlocks);
        ms := [m];
      case Assistant =>
        ms := EmitAssistant(e, turn);
      case Tool =>
        ms, next := EmitToolRun(e, conv, ti);
      case Other(_) =>
    }
    EmitFrom(e, conv, ti, next);
  }

  method BuildMessages(e: Edge, conversation: seq<ConversationTurn>) returns (messages: seq<Message>)
    ensures messages == Messages(e, conversation)
  {
    var conv := HealConversationHead(conversation);
    conv := HealToolPairing(conv);
    messages := [];
    var ti := 0;
    while ti < |conv|
      invariant 0 <= ti <= |conv|
      invariant Emit(e, conv) == messages + Emit(e, conv[ti..])
    {
      var ms, next := EmitAt(e, conv, ti);
      Assoc(messages, ms, Emit(e, conv[next..]));
      messages := messages + ms;
      ti := next;
    }
  }

  // The adjacency rule of the Messages API.

  predicate CallsTools(m: Message) {
    m.content.Blocks? && exists b :: b in m.content.blocks && b.WToolUse?
  }

  predicate CarriesResults(m: Message) {
    m.content.Blocks? && exists b :: b in m.content.blocks && b.WToolResult?
  }

  function UsedIds(blocks: seq<WireBlock>): set<string> {
    set b | b in blocks && b.WToolUse? :: b.id
  }

  function AnsweredIdsOf(blocks: seq<WireBlock>): set<string> {
    set b | b in blocks && b.WToolResult? :: b.toolUseId
  }

  ghost predicate DistinctUses(blocks: seq<WireBlock>) {
    forall i, j :: 0 <= i < j < |blocks| && blocks[i].WToolUse? && blocks[j].WToolUse? ==> blocks[i].id != blocks[j].id
  }

  ghost predicate DistinctAnswers(blocks: seq<WireBlock>) {
    forall i, j :: 0 <= i < j < |blocks| && blocks[i].WToolResult? && blocks[j].WToolResult? ==>
      blocks[i].toolUseId != blocks[j].toolUseId
  }

  /** A user message made only of tool results, answering every call of the given assistant message and
      nothing else, and each call once when the calls have ids of their own. */
  ghost predicate Answers(result: Message, call: Message)
    requires call.content.Blocks?
  {
    && result.role == User && result.content.Blocks?
    && (forall b :: b in result.content.blocks ==> b.WToolResult?)
    && AnsweredIdsOf(result.content.blocks) == UsedIds(call.content.blocks)
    && (DistinctUses(call.content.blocks) ==> DistinctAnswers(result.content.blocks))
  }

  /** Every message with tool calls is an assistant message answered by the very next message,
      and results appear nowhere else. */
  ghost predicate Adjacent(ms: seq<Message>) {
    forall i :: 0 <= i < |ms| ==> AdjacentAt(ms, i)
  }

  ghost predicate AdjacentAt(ms: seq<Message>, i: nat)
    requires i < |ms|
  {
    && (CallsTools(ms[i]) ==> ms[i].role == Assistant && i + 1 < |ms| && Answers(ms[i + 1], ms[i]))
    && (CarriesResults(ms[i]) ==> i > 0 && CallsTools(ms[i - 1]))
  }

  lemma AdjacentPlain(m: Message, ms: seq<Message>)
    requires Adjacent(ms) && !CallsTools(m) && !CarriesResults(m)
    ensures Adjacent([m] + ms)
  {
    var all := [m] + ms;
    forall i | 0 <= i < |all| ensures AdjacentAt(all, i) {
      if i > 0 {
        assert AdjacentAt(ms, i - 1);
      }
    }
  }

  lemma AdjacentPair(call: Message, result: Message, ms: seq<Message>)
    requires Adjacent(ms) && call.role == Assistant && call.content.Blocks?
    requires CallsTools(call) && !CarriesResults(call) && Answers(result, call)
    ensures Adjacent([call, result] + ms)
  {
    var all := [call, result] + ms;
    forall i | 0 <= i < |all| ensures AdjacentAt(all, i) {
      if i > 1 {
        assert AdjacentAt(ms, i - 2);
      }
    }
  }

  lemma {:induction false} ThinkingIsThinking(ts: seq<Thinking>)
    ensures forall b :: b in ReplayedThinking(ts) ==> b.WThinking?
  {
    if ts != [] {
      ThinkingIsThinking(ts[1..]);
    }
  }

  lemma AssistantCalls(e: Edge, t: ConversationTurn)
    ensures forall b :: b in AssistantBlocks(e, t) ==> !b.WToolResult?
    ensures UsedIds(AssistantBlocks(e, t)) == CallIds(t.toolCalls)
    ensures t.toolCalls != [] <==> exists b :: b in AssistantBlocks(e, t) && b.WToolUse?
  {
    ThinkingIsThinking(t.thinking);
    var bs, uses := AssistantBlocks(e, t), ToolUses(e, t.toolCalls);
    forall b | b in bs ensures !b.WToolResult? && (b.WToolUse? ==> b in uses) {
    }
    assert forall b :: b in uses ==> b in bs;
    forall id ensures id in UsedIds(bs) <==> id in CallIds(t.toolCalls) {
      if id in CallIds(t.toolCalls) {
        var k :| 0 <= k < |t.toolCalls| && t.toolCalls[k].id == id;
        assert uses[k] in bs && uses[k].id == id;
      }
    }
    if t.toolCalls != [] {
      assert uses[0] in bs && uses[0].WToolUse?;
    }
  }

  lemma UsesAreCalls(e: Edge, t: ConversationTurn)
    requires DistinctUses(AssistantBlocks(e, t))
    ensures DistinctIds(t.toolCalls)
  {
    var bs, uses := AssistantBlocks(e, t), ToolUses(e, t.toolCalls);
    var n := |bs| - |uses|;
    assert bs[n..] == uses;
    forall i, j | 0 <= i < j < |t.toolCalls| ensures t.toolCalls[i].id != t.toolCalls[j].id {
      assert bs[n + i] == uses[i] && bs[n + j] == uses[j];
    }
  }

  lemma AnswersAreResults(run: seq<ConversationTurn>)
    requires DistinctResults(run)
    ensures DistinctAnswers(ResultBlocks(run))
  {
  }

  lemma RunAnswers(run: seq<ConversationTurn>)
    ensures AnsweredIdsOf(ResultBlocks(run)) == ResultIds(run)
    ensures forall b :: b in ResultBlocks(run) ==> b.WToolResult?
  {
    var bs := ResultBlocks(run);
    forall id ensures id in AnsweredIdsOf(bs) <==> id in ResultIds(run) {
      if id in ResultIds(run) {
        var k :| 0 <= k < |run| && run[k].toolCallId == id;
        assert bs[k] in bs;
      }
    }
  }

  lemma UserMessageIsPlain(e: Edge, content: string, cbs: seq<ContentBlock>)
    ensures !CallsTools(UserMessage(e, content, cbs)) && !CarriesResults(UserMessage(e, content, cbs))
  {
  }

  lemma EmitRun(e: Edge, run: seq<ConversationTurn>, tail: seq<ConversationTurn>)
    requires run != [] && AllTools(run) && (tail == [] || tail[0].role != Tool)
    ensures Emit(e, run + tail) == EmitResults(e, run) + Emit(e, tail)
  {
    ToolRunConcat(run, tail);
    assert (run + tail)[0].role == Tool;
  }

  lemma EmitCaller(e: Edge, owner: ConversationTurn, ts: seq<ConversationTurn>)
    requires IsCaller(owner)
    ensures Emit(e, [owner] + ts) == [Message(Assistant, Blocks(AssistantBlocks(e, owner)))] + Emit(e, ts)
  {
    AssistantCalls(e, owner);
    ConsParts(owner, ts);
  }

  lemma GroupAdjacent(e: Edge, owner: ConversationTurn, run: seq<ConversationTurn>, tail: seq<ConversationTurn>)
    requires IsCaller(owner) && AllTools(run) && ResultIds(run) == CallIds(owner.toolCalls)
    requires DistinctIds(owner.toolCalls) ==> DistinctResults(run)
    requires (tail == [] || tail[0].role != Tool) && Adjacent(Emit(e, tail))
    ensures Adjacent(Emit(e, [owner] + (run + tail)))
  {
    assert owner.toolCalls[0].id in CallIds(owner.toolCalls);
    assert run != [];
    AssistantCalls(e, owner);
    RunAnswers(run);
    var call, result := Message(Assistant, Blocks(AssistantBlocks(e, owner))), Message(User, Blocks(ResultBlocks(run)));
    if DistinctUses(AssistantBlocks(e, owner)) {
      UsesAreCalls(e, owner);
      AnswersAreResults(run);
    }
    hide DistinctUses, DistinctAnswers, DistinctIds, DistinctResults;
    var attached := OptionalAttachments(RunAttachments(e, run));
    var after := attached + Emit(e, tail);
    if attached == [] {
      assert after == Emit(e, tail);
    } else {
      AdjacentPlain(attached[0], Emit(e, tail));
      assert after == [attached[0]] + Emit(e, tail);
    }
    AdjacentPair(call, result, after);
    EmitCaller(e, owner, run + tail);
    EmitRun(e, run, tail);
    Assoc([result], attached, Emit(e, tail));
    PairConcat(call, result, after);
  }

  lemma SingleAdjacent(e: Edge, t: ConversationTurn, tail: seq<ConversationTurn>)
    requires !IsCaller(t) && t.role != Tool && Adjacent(Emit(e, tail))
    ensures Adjacent(Emit(e, [t] + tail))
  {
    ConsParts(t, tail);
    var ms := EmitTurn(e, t);
    if ms == [] {
      assert ms + Emit(e, tail) == Emit(e, tail);
    } else {
      AssistantCalls(e, t);
      UserMessageIsPlain(e, t.content, t.contentBlocks);
      AdjacentPlain(ms[0], Emit(e, tail));
      assert ms + Emit(e, tail) == [ms[0]] + Emit(e, tail);
    }
  }

  /** The messages of a healed transcript obey the adjacency rule. */
  lemma {:induction false} HealedEmissionAdjacent(e: Edge, ts: seq<ConversationTurn>)
    ensures Adjacent(Emit(e, HealPairing(ts)))
    decreases |ts|
  {
    if ts == [] {
    } else if IsCaller(ts[0]) {
      var run, rest := SplitGroup(ts);
      HealGroup(ts, run, rest);
      HealedEmissionAdjacent(e, rest);
      HealedRunAnswers(ts[0], run);
      if DistinctIds(ts[0].toolCalls) {
        OneResultPerCall(ts[0], run);
      }
      HealStartsOutsideRun(rest);
      GroupAdjacent(e, ts[0], HealedRun(ts[0], run), HealPairing(rest));
      assert HealPairing(ts) == [ts[0]] + (HealedRun(ts[0], run) + HealPairing(rest));
    } else {
      HealedEmissionAdjacent(e, ts[1..]);
      if ts[0].role != Tool {
        SingleAdjacent(e, ts[0], HealPairing(ts[1..]));
      }
    }
  }

  /** For every transcript, however damaged, the emitted request obeys the adjacency rule and
      starts with a user message whenever the transcript has a user turn. */
  lemma RequestIsWellFormed(e: Edge, conv: seq<ConversationTurn>)
    ensures Adjacent(Messages(e, conv))
    ensures (exists t :: t in conv && t.role == User) ==>
              Messages(e, conv) != [] && Messages(e, conv)[0].role == User && !CarriesResults(Messages(e, conv)[0])
  {
    var ts := HealHead(conv);
    HealedEmissionAdjacent(e, ts);
    if exists t :: t in conv && t.role == User {
      HealHeadStartsWithUser(conv);
      UserMessageIsPlain(e, ts[0].content, ts[0].contentBlocks);
      assert HealPairing(ts)[0] == ts[0];
    }
  }
}
