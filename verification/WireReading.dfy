/** Reading requests back: whatever a transcript says, the messages of each dialect say, in order and
    complete. Nothing here mentions how a request is built. */
module WireReading {
  import opened Basics
  import opened Sequences
  import opened Transcript
  import opened ToolPairing
  import opened TurnConversion
  import opened ClaudeWire
  import opened NativeClaudeWire
  import opened OpenAiWire

  /** One thing said: a text, an image, a thought, a call, the result of one, an attachment. */
  datatype Piece =
    | Text(text: string)
    | Image(source: Option<ImageSource>)
    | Thought(text: string, signature: string)
    | Call(id: string, name: string, input: string)
    | Result(id: string, content: string, isError: bool)
    | Attached(block: ContentBlock)

  /** Who said what, at once. */
  datatype Heard = Heard(role: Role, pieces: seq<Piece>)

  // Reading messages.

  function ReadBlock(b: WireBlock): Piece {
    match b
    case WText(text) => Text(text)
    case WThinking(text, signature) => Thought(text, signature)
    case WToolUse(id, name, input) => Call(id, name, input)
    case WToolResult(id, content, isError) => Result(id, content, isError)
    case WImage(source) => Image(source)
  }

  function ReadBlocks(bs: seq<WireBlock>): seq<Piece> {
    seq(|bs|, i requires 0 <= i < |bs| => ReadBlock(bs[i]))
  }

  function ReadMessage(m: Message): Heard {
    match m.content
    case Plain(text) => Heard(m.role, [Text(text)])
    case Blocks(bs) => Heard(m.role, ReadBlocks(bs))
    case Attachments(cbs) => Heard(m.role, seq(|cbs|, i requires 0 <= i < |cbs| => Attached(cbs[i])))
  }

  function Read(ms: seq<Message>): seq<Heard> {
    seq(|ms|, i requires 0 <= i < |ms| => ReadMessage(ms[i]))
  }

  // What a transcript says.

  function TextIfAny(s: string): seq<Piece> {
    if s == "" then [] else [Text(s)]
  }

  function ShownBlocks(e: Edge, cbs: seq<ContentBlock>): seq<Piece> {
    seq(|cbs|, i requires 0 <= i < |cbs| => if cbs[i].kind == "image" then Image(e.healImage(cbs[i]).source) else Text(cbs[i].text))
  }

  function Thoughts(ts: seq<Thinking>): seq<Piece> {
    if ts == [] then []
    else
      var init, last := Thoughts(ts[..|ts| - 1]), ts[|ts| - 1];
      if last.text == "" && last.signature == "" then init else init + [Thought(last.text, last.signature)]
  }

  function Calls(e: Edge, cs: seq<ToolCallRequest>): seq<Piece> {
    seq(|cs|, i requires 0 <= i < |cs| => Call(cs[i].id, cs[i].name, e.sanitizeInput(cs[i].input)))
  }

  /** A user's text alone, or before the blocks if there is one; an assistant's thoughts, text and calls. */
  function Says(e: Edge, t: ConversationTurn): seq<Piece> {
    match t.role
    case User => if t.contentBlocks == [] then [Text(t.content)] else TextIfAny(t.content) + ShownBlocks(e, t.contentBlocks)
    case Assistant => Thoughts(t.thinking) + TextIfAny(t.content) + Calls(e, t.toolCalls)
    case _ => []
  }

  function Results(run: seq<ConversationTurn>): seq<Piece> {
    seq(|run|, i requires 0 <= i < |run| => Result(run[i].toolCallId, run[i].content, run[i].isError))
  }

  function AttachedOf(e: Edge, t: ConversationTurn): seq<Piece> {
    seq(|t.contentBlocks|, i requires 0 <= i < |t.contentBlocks| => Attached(e.healImage(t.contentBlocks[i])))
  }

  function AttachedAll(e: Edge, run: seq<ConversationTurn>): seq<Piece> {
    if run == [] then [] else AttachedAll(e, run[..|run| - 1]) + AttachedOf(e, run[|run| - 1])
  }

  function HeardIfAny(role: Role, pieces: seq<Piece>): seq<Heard> {
    if pieces == [] then [] else [Heard(role, pieces)]
  }

  /** A user speaks in every turn; an assistant if there is something to say; a run of results is said at
      once, its attachments right behind it; turns of other roles are silent. */
  function Said(e: Edge, ts: seq<ConversationTurn>): seq<Heard>
    decreases |ts|
  {
    if ts == [] then []
    else
      var n := ToolRun(ts);
      if n > 0 then [Heard(User, Results(ts[..n]))] + HeardIfAny(User, AttachedAll(e, ts[..n])) + Said(e, ts[n..])
      else
        (match ts[0].role
         case User => [Heard(User, Says(e, ts[0]))]
         case Assistant => HeardIfAny(Assistant, Says(e, ts[0]))
         case _ => []) + Said(e, ts[1..])
  }

  // Claude requests.

  lemma ReadConcat(a: seq<Message>, b: seq<Message>)
    ensures Read(a + b) == Read(a) + Read(b)
  {
  }

  lemma ReadBlocksConcat(a: seq<WireBlock>, b: seq<WireBlock>)
    ensures ReadBlocks(a + b) == ReadBlocks(a) + ReadBlocks(b)
  {
  }

  lemma {:induction false} ThoughtsRead(ts: seq<Thinking>)
    ensures ReadBlocks(ReplayedThinking(ts)) == Thoughts(ts)
  {
    if ts != [] {
      var n := |ts| - 1;
      assert ts == ts[..n] + [ts[n]];
      ThoughtsRead(ts[..n]);
      ThinkingSnoc(ts[..n], ts[n]);
      ReadBlocksConcat(ReplayedThinking(ts[..n]), ReplayedThinking([ts[n]]));
    }
  }

  lemma {:induction false} ThinkingSnoc(ts: seq<Thinking>, t: Thinking)
    ensures ReplayedThinking(ts + [t]) == ReplayedThinking(ts) + ReplayedThinking([t])
  {
    if ts == [] {
      assert [] + [t] == [t];
    } else {
      assert (ts + [t])[1..] == ts[1..] + [t];
      ThinkingSnoc(ts[1..], t);
    }
  }

  lemma UserRead(e: Edge, t: ConversationTurn)
    requires t.role == User
    ensures Read(EmitTurn(e, t)) == [Heard(User, Says(e, t))]
  {
    ReadBlocksConcat(LeadingText(t.content), BlocksOnWire(e, t.contentBlocks));
    assert ReadBlocks(BlocksOnWire(e, t.contentBlocks)) == ShownBlocks(e, t.contentBlocks);
    assert ReadBlocks(LeadingText(t.content)) == TextIfAny(t.content);
  }

  lemma AssistantRead(e: Edge, t: ConversationTurn)
    requires t.role == Assistant
    ensures Read(EmitTurn(e, t)) == HeardIfAny(Assistant, Says(e, t))
  {
    ThoughtsRead(t.thinking);
    assert ReadBlocks(LeadingText(t.content)) == TextIfAny(t.content);
    assert ReadBlocks(ToolUses(e, t.toolCalls)) == Calls(e, t.toolCalls);
    ReadBlocksConcat(ReplayedThinking(t.thinking), LeadingText(t.content));
    ReadBlocksConcat(ReplayedThinking(t.thinking) + LeadingText(t.content), ToolUses(e, t.toolCalls));
    assert |ReadBlocks(AssistantBlocks(e, t))| == |AssistantBlocks(e, t)|;
  }

  function Attach(cbs: seq<ContentBlock>): seq<Piece> {
    seq(|cbs|, i requires 0 <= i < |cbs| => Attached(cbs[i]))
  }

  lemma {:induction false} AttachedRead(e: Edge, run: seq<ConversationTurn>)
    ensures Attach(RunAttachments(e, run)) == AttachedAll(e, run)
  {
    if run != [] {
      var n := |run| - 1;
      assert run == run[..n] + [run[n]];
      AttachedRead(e, run[..n]);
      RunAttachmentsSnoc(e, run[..n], run[n]);
      assert Attach(HealedBlocks(e, run[n].contentBlocks)) == AttachedOf(e, run[n]);
    }
  }

  lemma ResultsRead(e: Edge, run: seq<ConversationTurn>)
    ensures Read(EmitResults(e, run)) == [Heard(User, Results(run))] + HeardIfAny(User, AttachedAll(e, run))
  {
    AttachedRead(e, run);
    var cbs := RunAttachments(e, run);
    assert |Attach(cbs)| == |cbs|;
    assert ReadBlocks(ResultBlocks(run)) == Results(run);
    ReadConcat([Message(User, Blocks(ResultBlocks(run)))], OptionalAttachments(cbs));
    assert Read(OptionalAttachments(cbs)) == HeardIfAny(User, Attach(cbs));
  }

  lemma {:induction false} EmissionSays(e: Edge, ts: seq<ConversationTurn>)
    ensures Read(Emit(e, ts)) == Said(e, ts)
    decreases |ts|
  {
    hide Says, EmitTurn, EmitResults, HeardIfAny, AttachedAll, Results;
    if ts != [] {
      var n := ToolRun(ts);
      if ts[0].role == Tool {
        ResultsRead(e, ts[..n]);
        EmissionSays(e, ts[n..]);
        ReadConcat(EmitResults(e, ts[..n]), Emit(e, ts[n..]));
      } else {
        EmissionSays(e, ts[1..]);
        ReadConcat(EmitTurn(e, ts[0]), Emit(e, ts[1..]));
        OneTurnRead(e, ts[0]);
      }
    }
  }

  lemma OneTurnRead(e: Edge, t: ConversationTurn)
    requires t.role != Tool
    ensures Read(EmitTurn(e, t)) == match t.role
                                    case User => [Heard(User, Says(e, t))]
                                    case Assistant => HeardIfAny(Assistant, Says(e, t))
                                    case _ => []
  {
    match t.role
    case User => UserRead(e, t);
    case Assistant => AssistantRead(e, t);
    case _ =>
  }

  /** The request for a conversation says what the healed conversation says: every text, image, thought,
      call and result, with its speaker, in order. */
  lemma RequestSaysAll(e: Edge, conv: seq<ConversationTurn>)
    ensures Read(Messages(e, conv)) == Said(e, HealPairing(HealHead(conv)))
  {
    EmissionSays(e, HealPairing(HealHead(conv)));
  }

  /** The request built from neutral turns says what their conversation says. */
  lemma NativeRequestSaysAll(e: Edge, turns: seq<Turn>)
    ensures Read(NativeMessages(e, turns)) == Said(e, HealPairing(HealHead(ShimAll(turns))))
  {
    NativeEqualsShim(e, turns);
    RequestSaysAll(e, ShimAll(turns));
  }

  // Everything said, and when: no grouping.

  function Flat(hs: seq<Heard>): seq<Piece> {
    if hs == [] then [] else Flat(hs[..|hs| - 1]) + hs[|hs| - 1].pieces
  }

  function WithoutAttached(ps: seq<Piece>): seq<Piece> {
    if ps == [] then []
    else WithoutAttached(ps[..|ps| - 1]) + if ps[|ps| - 1].Attached? then [] else [ps[|ps| - 1]]
  }

  function OnlyAttached(ps: seq<Piece>): seq<Piece> {
    if ps == [] then []
    else OnlyAttached(ps[..|ps| - 1]) + if ps[|ps| - 1].Attached? then [ps[|ps| - 1]] else []
  }

  /** What one turn says, whatever stands around it. */
  function SaysAlone(e: Edge, t: ConversationTurn): seq<Piece> {
    if t.role == Tool then [Result(t.toolCallId, t.content, t.isError)] else Says(e, t)
  }

  function AllSay(e: Edge, ts: seq<ConversationTurn>): seq<Piece> {
    if ts == [] then [] else AllSay(e, ts[..|ts| - 1]) + SaysAlone(e, ts[|ts| - 1])
  }

  function AllAttach(e: Edge, ts: seq<ConversationTurn>): seq<Piece> {
    if ts == [] then []
    else AllAttach(e, ts[..|ts| - 1]) + if ts[|ts| - 1].role == Tool then AttachedOf(e, ts[|ts| - 1]) else []
  }

  lemma {:induction false} FlatConcat(a: seq<Heard>, b: seq<Heard>)
    ensures Flat(a + b) == Flat(a) + Flat(b)
  {
    if b == [] {
      assert a + b == a;
    } else {
      assert (a + b)[..|a + b| - 1] == a + b[..|b| - 1];
      FlatConcat(a, b[..|b| - 1]);
    }
  }

  lemma {:induction false} SplitConcat(a: seq<Piece>, b: seq<Piece>)
    ensures WithoutAttached(a + b) == WithoutAttached(a) + WithoutAttached(b)
    ensures OnlyAttached(a + b) == OnlyAttached(a) + OnlyAttached(b)
  {
    if b == [] {
      assert a + b == a;
    } else {
      assert (a + b)[..|a + b| - 1] == a + b[..|b| - 1];
      SplitConcat(a, b[..|b| - 1]);
    }
  }

  lemma {:induction false} SplitPure(ps: seq<Piece>)
    ensures (forall p :: p in ps ==> !p.Attached?) ==> WithoutAttached(ps) == ps && OnlyAttached(ps) == []
    ensures (forall p :: p in ps ==> p.Attached?) ==> WithoutAttached(ps) == [] && OnlyAttached(ps) == ps
  {
    if ps != [] {
      var n := |ps| - 1;
      SplitPure(ps[..n]);
      assert ps == ps[..n] + [ps[n]];
      assert ps[n] in ps;
    }
  }

  lemma {:induction false} AllSayConcat(e: Edge, a: seq<ConversationTurn>, b: seq<ConversationTurn>)
    ensures AllSay(e, a + b) == AllSay(e, a) + AllSay(e, b)
    ensures AllAttach(e, a + b) == AllAttach(e, a) + AllAttach(e, b)
  {
    hide SaysAlone, AttachedOf;
    if b == [] {
      assert a + b == a;
    } else {
      assert (a + b)[..|a + b| - 1] == a + b[..|b| - 1];
      AllSayConcat(e, a, b[..|b| - 1]);
    }
  }

  lemma {:induction false} RunSays(e: Edge, run: seq<ConversationTurn>)
    requires AllTools(run)
    ensures AllSay(e, run) == Results(run) && AllAttach(e, run) == AttachedAll(e, run)
    ensures forall p :: p in AttachedAll(e, run) ==> p.Attached?
  {
    if run != [] {
      var n := |run| - 1;
      RunSays(e, run[..n]);
      assert Results(run) == Results(run[..n]) + [Result(run[n].toolCallId, run[n].content, run[n].isError)];
    }
  }

  lemma {:induction false} ThoughtsAreThoughts(ts: seq<Thinking>)
    ensures forall p :: p in Thoughts(ts) ==> p.Thought?
  {
    if ts != [] {
      ThoughtsAreThoughts(ts[..|ts| - 1]);
    }
  }

  lemma SpokenIsNoAttachment(e: Edge, t: ConversationTurn)
    ensures forall p :: p in Says(e, t) ==> !p.Attached?
  {
    ThoughtsAreThoughts(t.thinking);
  }

  lemma FlatOne(role: Role, ps: seq<Piece>)
    ensures Flat([Heard(role, ps)]) == ps && Flat(HeardIfAny(role, ps)) == ps
  {
    assert [Heard(role, ps)][..0] == [];
  }

  /** Attachments aside, the request says what the turns say, one after another; and it carries the
      attachments of all results, in order. */
  lemma {:induction false} SaidInOrder(e: Edge, ts: seq<ConversationTurn>)
    ensures WithoutAttached(Flat(Said(e, ts))) == AllSay(e, ts)
    ensures OnlyAttached(Flat(Said(e, ts))) == AllAttach(e, ts)
    decreases |ts|
  {
    hide Says, AttachedAll, Results, Flat, WithoutAttached, OnlyAttached, HeardIfAny, AllSay, AllAttach;
    if ts == [] {
      NothingSaid(e);
    } else {
      var n := ToolRun(ts);
      if n > 0 {
        TakeDrop(ts, n);
        SaidInOrder(e, ts[n..]);
        AllSayConcat(e, ts[..n], ts[n..]);
        RunSays(e, ts[..n]);
        RunSaidInOrder(e, ts[..n], Said(e, ts[n..]));
      } else {
        assert ts == [ts[0]] + ts[1..];
        SaidInOrder(e, ts[1..]);
        AllSayConcat(e, [ts[0]], ts[1..]);
        TurnSaidInOrder(e, ts[0], Said(e, ts[1..]));
      }
    }
  }

  lemma NothingSaid(e: Edge)
    ensures Flat([]) == [] && WithoutAttached(Flat([])) == AllSay(e, []) == [] && OnlyAttached(Flat([])) == AllAttach(e, []) == []
  {
  }

  lemma RunSaidInOrder(e: Edge, run: seq<ConversationTurn>, rest: seq<Heard>)
    requires forall p :: p in AttachedAll(e, run) ==> p.Attached?
    ensures var all := [Heard(User, Results(run))] + HeardIfAny(User, AttachedAll(e, run)) + rest;
            && WithoutAttached(Flat(all)) == Results(run) + WithoutAttached(Flat(rest))
            && OnlyAttached(Flat(all)) == AttachedAll(e, run) + OnlyAttached(Flat(rest))
  {
    hide AttachedAll, Flat, WithoutAttached, OnlyAttached, HeardIfAny;
    var a, b := [Heard(User, Results(run))], HeardIfAny(User, AttachedAll(e, run));
    FlatConcat(a + b, rest);
    FlatConcat(a, b);
    FlatOne(User, Results(run));
    FlatOne(User, AttachedAll(e, run));
    SplitConcat(Results(run) + AttachedAll(e, run), Flat(rest));
    SplitConcat(Results(run), AttachedAll(e, run));
    SplitPure(Results(run));
    SplitPure(AttachedAll(e, run));
    assert Results(run) + [] == Results(run) && [] + AttachedAll(e, run) == AttachedAll(e, run);
  }

  lemma TurnSaidInOrder(e: Edge, t: ConversationTurn, rest: seq<Heard>)
    requires t.role != Tool
    ensures var all := (match t.role
                        case User => [Heard(User, Says(e, t))]
                        case Assistant => HeardIfAny(Assistant, Says(e, t))
                        case _ => []) + rest;
            && WithoutAttached(Flat(all)) == AllSay(e, [t]) + WithoutAttached(Flat(rest))
            && OnlyAttached(Flat(all)) == AllAttach(e, [t]) + OnlyAttached(Flat(rest))
  {
    hide Flat, WithoutAttached, OnlyAttached, HeardIfAny;
    var first := match t.role
                 case User => [Heard(User, Says(e, t))]
                 case Assistant => HeardIfAny(Assistant, Says(e, t))
                 case _ => [];
    FlatOne(User, Says(e, t));
    FlatOne(Assistant, Says(e, t));
    NothingSaid(e);
    assert [t][..0] == [];
    assert Flat(first) == Says(e, t);
    assert AllSay(e, [t]) == AllSay(e, []) + SaysAlone(e, t) == Says(e, t);
    assert AllAttach(e, [t]) == AllAttach(e, []) + [] == [];
    FlatConcat(first, rest);
    SplitConcat(Says(e, t), Flat(rest));
    SpokenIsNoAttachment(e, t);
    SplitPure(Says(e, t));
  }

  // The OpenAI dialects.

  /** The system prompt first if there is one, then one message a turn: role, content, the call a result
      answers, and an assistant's calls with their arguments. */
  ghost predicate TurnHeard(t: ConversationTurn, m: OaiMessage) {
    && m.content == t.content
    && m.role == (if t.role == Tool then OaiTool else if t.role == Assistant then OaiAssistant else OaiUser)
    && m.toolCallId == (if t.role == Tool then t.toolCallId else "")
    && (t.role != Assistant ==> m.toolCalls == [])
    && (t.role == Assistant ==>
          && |m.toolCalls| == |t.toolCalls|
          && forall i :: 0 <= i < |t.toolCalls| ==>
               m.toolCalls[i].id == t.toolCalls[i].id && m.toolCalls[i].name == t.toolCalls[i].name
               && m.toolCalls[i].arguments == t.toolCalls[i].input)
  }

  ghost predicate ChatSays(c: Endpoint, conv: seq<ConversationTurn>, tools: seq<ToolSpec>, system: string, r: OaiRequest) {
    var n := if system == "" then 0 else 1;
    && r.model == c.model && r.tools == tools && |r.messages| == n + |conv|
    && (n == 1 ==> r.messages[0] == OaiMessage(OaiSystem, system, "", []))
    && (forall i :: 0 <= i < |conv| ==> TurnHeard(conv[i], r.messages[n + i]))
    && (c.maxTokens <= 0 ==> r.maxTokens == r.maxCompletionTokens == 0)
    && (c.maxTokens > 0 && c.completionTokensField ==> r.maxTokens == 0 && r.maxCompletionTokens == c.maxTokens)
    && (c.maxTokens > 0 && !c.completionTokensField ==> r.maxTokens == c.maxTokens && r.maxCompletionTokens == 0)
  }

  /** A Chat Completions request says the system prompt and all of the conversation, and carries the
      output cap in the field the endpoint reads. */
  lemma ChatSaysAll(c: Endpoint, conv: seq<ConversationTurn>, tools: seq<ToolSpec>, system: string)
    ensures ChatSays(c, conv, tools, system, ChatRequest(c, conv, tools, system))
  {
    var r := ChatRequest(c, conv, tools, system);
    var n := |SystemPart(system)|;
    forall i | 0 <= i < |conv| ensures TurnHeard(conv[i], r.messages[n + i]) {
      assert r.messages[n + i] == TurnsOnOai(conv)[i];
    }
  }

  lemma NativeChatSaysAll(c: Endpoint, turns: seq<Turn>, tools: seq<ToolSpec>, system: string)
    ensures ChatSays(c, ShimAll(turns), tools, system, NativeChatRequest(c, turns, tools, system))
  {
    NativeChatEqualsShim(c, turns, tools, system);
    ChatSaysAll(c, ShimAll(turns), tools, system);
  }

  /** What is read from an item of a Responses request. */
  function ReadItem(it: RespItem): (Role, Piece) {
    match it
    case RespText(role, content) => (if role == OaiAssistant then Assistant else User, Text(content))
    case RespCall(id, name, arguments) => (Assistant, Call(id, name, arguments))
    case RespOutput(id, output) => (Tool, Result(id, output, false))
  }

  function ReadItems(items: seq<RespItem>): seq<(Role, Piece)> {
    seq(|items|, i requires 0 <= i < |items| => ReadItem(items[i]))
  }

  /** What a turn is to say there: a result with its failure marked, an assistant's text if any and its
      calls, with an empty object for missing arguments; any other turn its content. */
  function ItemsSaid(t: ConversationTurn): seq<(Role, Piece)> {
    if t.role == Tool then [(Tool, Result(t.toolCallId, (if t.isError then "ERROR: " else "") + t.content, false))]
    else if t.role == Assistant then
      (if t.content == "" then [] else [(Assistant, Text(t.content))])
      + seq(|t.toolCalls|, i requires 0 <= i < |t.toolCalls| =>
              (Assistant, Call(t.toolCalls[i].id, t.toolCalls[i].name, if t.toolCalls[i].input == "" then "{}" else t.toolCalls[i].input)))
    else [(User, Text(t.content))]
  }

  function AllItemsSaid(ts: seq<ConversationTurn>): seq<(Role, Piece)> {
    if ts == [] then [] else AllItemsSaid(ts[..|ts| - 1]) + ItemsSaid(ts[|ts| - 1])
  }

  lemma ItemsRead(t: ConversationTurn)
    ensures ReadItems(TurnItems(t)) == ItemsSaid(t)
  {
    var items, said := ReadItems(TurnItems(t)), ItemsSaid(t);
    if t.role == Assistant {
      assert |items| == |said|;
      forall i | 0 <= i < |items| ensures items[i] == said[i] {
      }
    } else {
      assert "" + t.content == t.content;
    }
  }

  lemma {:induction false} TurnItemsSnoc(ts: seq<ConversationTurn>, t: ConversationTurn)
    ensures AllTurnItems(ts + [t]) == AllTurnItems(ts) + TurnItems(t)
  {
    hide TurnItems;
    if ts == [] {
      assert [] + [t] == [t] && [t][1..] == [];
    } else {
      assert (ts + [t])[1..] == ts[1..] + [t];
      TurnItemsSnoc(ts[1..], t);
      Assoc(TurnItems(ts[0]), AllTurnItems(ts[1..]), TurnItems(t));
    }
  }

  lemma {:induction false} AllItemsRead(ts: seq<ConversationTurn>)
    ensures ReadItems(AllTurnItems(ts)) == AllItemsSaid(ts)
  {
    hide TurnItems, ItemsSaid;
    if ts != [] {
      var n := |ts| - 1;
      assert ts == ts[..n] + [ts[n]];
      AllItemsRead(ts[..n]);
      TurnItemsSnoc(ts[..n], ts[n]);
      ItemsRead(ts[n]);
      var a, b := AllTurnItems(ts[..n]), TurnItems(ts[n]);
      assert ReadItems(a + b) == ReadItems(a) + ReadItems(b);
    }
  }

  /** A Responses request says all of the conversation in order, under its instructions and its cap. */
  lemma ResponsesSayAll(c: Endpoint, conv: seq<ConversationTurn>, tools: seq<ToolSpec>, system: string)
    ensures var r := ResponsesRequest(c, conv, tools, system);
            && ReadItems(r.input) == AllItemsSaid(conv)
            && r.model == c.model && r.instructions == system && r.maxOutputTokens == c.maxTokens && r.tools == tools
  {
    AllItemsRead(conv);
  }

  lemma NativeResponsesSayAll(c: Endpoint, turns: seq<Turn>, tools: seq<ToolSpec>, system: string)
    ensures var r := NativeResponsesRequest(c, turns, tools, system);
            && ReadItems(r.input) == AllItemsSaid(ShimAll(turns))
            && r.model == c.model && r.instructions == system && r.maxOutputTokens == c.maxTokens && r.tools == tools
  {
    NativeResponsesEqualsShim(c, turns, tools, system);
    ResponsesSayAll(c, ShimAll(turns), tools, system);
  }
}
