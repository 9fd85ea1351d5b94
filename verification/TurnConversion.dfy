/** Conversions between the shim and the neutral transcript, the native flattening,
    and the two laws between them: the canonical round trip, and the agreement of the
    two separately written fan-outs. */
module TurnConversion {
  import opened Basics
  import opened Sequences
  import opened Transcript

  // Shim turn -> neutral turn.

  function ThinkingBlock(t: Thinking): Block {
    Block(KThinking, "", Some(t), None, None, None)
  }

  function CallBlock(c: ToolCallRequest): Block {
    Block(KToolCall, "", None, Some(ToolCall(c.id, c.name, c.input)), None, None)
  }

  function ResultBlock(r: ToolResult): Block {
    Block(KToolResult, "", None, None, Some(r), None)
  }

  function TextBlock(text: string): Block {
    Block(KText, text, None, None, None, None)
  }

  /** Anything but an image block reads as text. */
  function BlockFromContentBlock(cb: ContentBlock): Block {
    if cb.kind == IMAGE then Block(KImage, "", None, None, None, cb.source) else TextBlock(cb.text)
  }

  function ThinkingBlocks(ts: seq<Thinking>): seq<Block> { seq(|ts|, i requires 0 <= i < |ts| => ThinkingBlock(ts[i])) }

  function CallBlocks(cs: seq<ToolCallRequest>): seq<Block> { seq(|cs|, i requires 0 <= i < |cs| => CallBlock(cs[i])) }

  function AttachmentBlocks(cbs: seq<ContentBlock>): seq<Block> {
    seq(|cbs|, i requires 0 <= i < |cbs| => BlockFromContentBlock(cbs[i]))
  }

  /** The block that carries a turn's own content: a result for a tool turn, else its text when nonempty. */
  function ContentPart(ct: ConversationTurn): seq<Block> {
    if ct.role == Tool then [ResultBlock(ToolResult(ct.toolCallId, ct.content, ct.isError))]
    else if ct.content != "" then [TextBlock(ct.content)]
    else []
  }

  function Neutral(ct: ConversationTurn): Turn {
    Turn(ct.role,
         ThinkingBlocks(ct.thinking) + ContentPart(ct) + CallBlocks(ct.toolCalls) + AttachmentBlocks(ct.contentBlocks),
         ct.category, ct.origin, ct.summary, ct.timestampMs)
  }

  function NeutralAll(conv: seq<ConversationTurn>): seq<Turn> {
    seq(|conv|, i requires 0 <= i < |conv| => Neutral(conv[i]))
  }

  method TurnFromConversation(ct: ConversationTurn) returns (t: Turn)
    ensures t == Neutral(ct)
  {
    var blocks := [];
    for i := 0 to |ct.thinking|
      invariant blocks == ThinkingBlocks(ct.thinking[..i])
    {
      blocks := blocks + [ThinkingBlock(ct.thinking[i])];
    }
    assert ct.thinking[..|ct.thinking|] == ct.thinking;
    if ct.role == Tool {
      blocks := blocks + [ResultBlock(ToolResult(ct.toolCallId, ct.content, ct.isError))];
    } else if ct.content != "" {
      blocks := blocks + [TextBlock(ct.content)];
    }
    ghost var head := blocks;
    for i := 0 to |ct.toolCalls|
      invariant blocks == head + CallBlocks(ct.toolCalls[..i])
    {
      blocks := blocks + [CallBlock(ct.toolCalls[i])];
    }
    assert ct.toolCalls[..|ct.toolCalls|] == ct.toolCalls;
    ghost var middle := blocks;
    for i := 0 to |ct.contentBlocks|
      invariant blocks == middle + AttachmentBlocks(ct.contentBlocks[..i])
    {
      blocks := blocks + [BlockFromContentBlock(ct.contentBlocks[i])];
    }
    assert ct.contentBlocks[..|ct.contentBlocks|] == ct.contentBlocks;
    t := Turn(ct.role, blocks, ct.category, ct.origin, ct.summary, ct.timestampMs);
  }

  method TurnsFromConversation(conv: seq<ConversationTurn>) returns (out: seq<Turn>)
    ensures out == NeutralAll(conv)
  {
    out := [];
    for i := 0 to |conv|
      invariant out == NeutralAll(conv[..i])
    {
      var t := TurnFromConversation(conv[i]);
      out := out + [t];
    }
    assert conv[..|conv|] == conv;
  }

  // Neutral turn -> shim turns.

  /** The converter's loop state. The carrier is always the last emitted turn. */
  datatype Shim = Shim(emitted: seq<ConversationTurn>, firstHasResult: bool, promotable: bool)

  function ShimStart(t: Turn): Shim {
    Shim([BlankTurn(t.role).(category := t.category, origin := t.origin, summary := t.summary, timestampMs := t.timestampMs)],
         false, true)
  }

  function OnLast(ts: seq<ConversationTurn>, t: ConversationTurn): seq<ConversationTurn>
    requires ts != []
  {
    ts[|ts| - 1 := t]
  }

  function ResultOf(b: Block): ToolResult {
    if b.toolResult.Some? then b.toolResult.value else NO_RESULT
  }

  function ShimStep(t: Turn, s: Shim, b: Block): (r: Shim)
    requires s.emitted != []
    ensures r.emitted != []
  {
    var carrier := s.emitted[|s.emitted| - 1];
    match b.kind
    case KThinking =>
      if b.thinking.Some?
      then s.(emitted := OnLast(s.emitted, carrier.(thinking := carrier.thinking + [b.thinking.value])))
      else s
    case KToolCall =>
      if b.toolCall.Some?
      then var c := b.toolCall.value;
           s.(emitted := OnLast(s.emitted, carrier.(toolCalls := carrier.toolCalls + [ToolCallRequest(c.id, c.name, c.paramsJson)])),
              promotable := false)
      else s.(promotable := false)
    case KToolResult =>
      var r := ResultOf(b);
      if t.role == Tool && !s.firstHasResult && |s.emitted| == 1 then
        Shim([carrier.(toolCallId := r.callId, content := r.content, isError := r.isError)], true, false)
      else
        s.(emitted := s.emitted + [BlankTurn(Tool).(toolCallId := r.callId, content := r.content, isError := r.isError,
                                                    category := t.category, origin := t.origin, summary := t.summary,
                                                    timestampMs := t.timestampMs)],
           promotable := false)
    case KImage =>
      s.(emitted := OnLast(s.emitted, carrier.(contentBlocks := carrier.contentBlocks + [ContentBlock(IMAGE, "", b.image)])),
         promotable := false)
    case _ =>
      if t.role != Tool && s.promotable then
        s.(emitted := s.emitted[0 := s.emitted[0].(content := b.text)], promotable := false)
      else
        s.(emitted := OnLast(s.emitted, carrier.(contentBlocks := carrier.contentBlocks + [ContentBlock(TEXT, b.text, None)])),
           promotable := false)
  }

  function ShimFold(t: Turn, s: Shim, blocks: seq<Block>): (r: Shim)
    requires s.emitted != []
    ensures r.emitted != []
    decreases |blocks|
  {
    if blocks == [] then s else ShimFold(t, ShimStep(t, s, blocks[0]), blocks[1..])
  }

  /** The shim turns one neutral turn fans out into. */
  function ShimTurns(t: Turn): seq<ConversationTurn> {
    ShimFold(t, ShimStart(t), t.blocks).emitted
  }

  function ShimAll(turns: seq<Turn>): seq<ConversationTurn> {
    if turns == [] then [] else ShimTurns(turns[0]) + ShimAll(turns[1..])
  }

  method ConversationTurnsFromTurn(t: Turn) returns (emitted: seq<ConversationTurn>)
    ensures emitted == ShimTurns(t)
  {
    emitted := [BlankTurn(t.role).(category := t.category, origin := t.origin, summary := t.summary, timestampMs := t.timestampMs)];
    var carrier := 0;
    var firstHasResult, promotable := false, true;
    for k := 0 to |t.blocks|
      invariant emitted != [] && carrier == |emitted| - 1
      invariant ShimTurns(t) == ShimFold(t, Shim(emitted, firstHasResult, promotable), t.blocks[k..]).emitted
    {
      var b := t.blocks[k];
      ghost var before := Shim(emitted, firstHasResult, promotable);
      DropStep(t.blocks, k);
      match b.kind {
      case KThinking =>
        if b.thinking.Some? {
          emitted := emitted[carrier := emitted[carrier].(thinking := emitted[carrier].thinking + [b.thinking.value])];
        }
      case KToolCall =>
        promotable := false;
        if b.toolCall.Some? {
          var c := b.toolCall.value;
          emitted := emitted[carrier := emitted[carrier].(toolCalls := emitted[carrier].toolCalls + [ToolCallRequest(c.id, c.name, c.paramsJson)])];
        }
      case KToolResult =>
        promotable := false;
        var r := NO_RESULT;
        if b.toolResult.Some? {
          r := b.toolResult.value;
        }
        if t.role == Tool && !firstHasResult && carrier == 0 {
          emitted := emitted[0 := emitted[0].(toolCallId := r.callId, content := r.content, isError := r.isError)];
          firstHasResult := true;
        } else {
          emitted := emitted + [BlankTurn(Tool).(toolCallId := r.callId, content := r.content, isError := r.isError,
                                                 category := t.category, origin := t.origin, summary := t.summary,
                                                 timestampMs := t.timestampMs)];
          carrier := |emitted| - 1;
        }
      case KImage =>
        promotable := false;
        emitted := emitted[carrier := emitted[carrier].(contentBlocks := emitted[carrier].contentBlocks + [ContentBlock(IMAGE, "", b.image)])];
      case _ =>
        if t.role != Tool && promotable {
          emitted := emitted[0 := emitted[0].(content := b.text)];
          promotable := false;
        } else {
          promotable := false;
          emitted := emitted[carrier := emitted[carrier].(contentBlocks := emitted[carrier].contentBlocks + [ContentBlock(TEXT, b.text, None)])];
        }
      }
      assert emitted == ShimStep(t, before, b).emitted;
    }
  }

  method ConversationFromTurns(turns: seq<Turn>) returns (out: seq<ConversationTurn>)
    ensures out == ShimAll(turns)
  {
    out := [];
    for i := 0 to |turns|
      invariant ShimAll(turns) == out + ShimAll(turns[i..])
    {
      var ts := ConversationTurnsFromTurn(turns[i]);
      DropStep(turns, i);
      Assoc(out, ts, ShimAll(turns[i + 1..]));
      out := out + ts;
    }
  }

  // Neutral turn -> wire units, the native port of the same fan-out.

  datatype Flat = Flat(emitted: seq<WireTurn>, firstHasResult: bool, promotable: bool)

  function FlatStart(t: Turn): Flat {
    Flat([BlankUnit(t.role)], false, true)
  }

  function FlatStep(t: Turn, s: Flat, b: Block): (r: Flat)
    requires s.emitted != []
    ensures r.emitted != []
  {
    var last := |s.emitted| - 1;
    var carrier := s.emitted[last];
    match b.kind
    case KThinking =>
      if b.thinking.Some?
      then s.(emitted := s.emitted[last := carrier.(thinking := carrier.thinking + [b.thinking.value])])
      else s
    case KToolCall =>
      if b.toolCall.Some?
      then s.(emitted := s.emitted[last := carrier.(toolCalls := carrier.toolCalls + [b.toolCall.value])], promotable := false)
      else s.(promotable := false)
    case KToolResult =>
      if t.role == Tool && !s.firstHasResult && |s.emitted| == 1 then
        Flat([carrier.(result := ResultOf(b))], true, false)
      else
        s.(emitted := s.emitted + [BlankUnit(Tool).(result := ResultOf(b))], promotable := false)
    case KImage =>
      s.(emitted := s.emitted[last := carrier.(blocks := carrier.blocks + [ContentBlock(IMAGE, "", b.image)])],
         promotable := false)
    case _ =>
      if t.role != Tool && s.promotable then
        s.(emitted := s.emitted[0 := s.emitted[0].(content := b.text)], promotable := false)
      else
        s.(emitted := s.emitted[last := carrier.(blocks := carrier.blocks + [ContentBlock(TEXT, b.text, None)])],
           promotable := false)
  }

  function FlatFold(t: Turn, s: Flat, blocks: seq<Block>): (r: Flat)
    requires s.emitted != []
    ensures r.emitted != []
    decreases |blocks|
  {
    if blocks == [] then s else FlatFold(t, FlatStep(t, s, blocks[0]), blocks[1..])
  }

  function Flatten(t: Turn): seq<WireTurn> {
    FlatFold(t, FlatStart(t), t.blocks).emitted
  }

  function FlattenAll(turns: seq<Turn>): seq<WireTurn> {
    if turns == [] then [] else Flatten(turns[0]) + FlattenAll(turns[1..])
  }

  method FlattenTurn(t: Turn) returns (emitted: seq<WireTurn>)
    ensures emitted == Flatten(t)
  {
    emitted := [BlankUnit(t.role)];
    var carrier := 0;
    var firstHasResult, promotable := false, true;
    for k := 0 to |t.blocks|
      invariant emitted != [] && carrier == |emitted| - 1
      invariant Flatten(t) == FlatFold(t, Flat(emitted, firstHasResult, promotable), t.blocks[k..]).emitted
    {
      var b := t.blocks[k];
      ghost var before := Flat(emitted, firstHasResult, promotable);
      DropStep(t.blocks, k);
      match b.kind {
      case KThinking =>
        if b.thinking.Some? {
          emitted := emitted[carrier := emitted[carrier].(thinking := emitted[carrier].thinking + [b.thinking.value])];
        }
      case KToolCall =>
        promotable := false;
        if b.toolCall.Some? {
          emitted := emitted[carrier := emitted[carrier].(toolCalls := emitted[carrier].toolCalls + [b.toolCall.value])];
        }
      case KToolResult =>
        promotable := false;
        var r := NO_RESULT;
        if b.toolResult.Some? {
          r := b.toolResult.value;
        }
        if t.role == Tool && !firstHasResult && carrier == 0 {
          emitted := emitted[0 := emitted[0].(result := r)];
          firstHasResult := true;
        } else {
          emitted := emitted + [BlankUnit(Tool).(result := r)];
          carrier := |emitted| - 1;
        }
      case KImage =>
        promotable := false;
        emitted := emitted[carrier := emitted[carrier].(blocks := emitted[carrier].blocks + [ContentBlock(IMAGE, "", b.image)])];
      case _ =>
        if t.role != Tool && promotable {
          emitted := emitted[0 := emitted[0].(content := b.text)];
          promotable := false;
        } else {
          promotable := false;
          emitted := emitted[carrier := emitted[carrier].(blocks := emitted[carrier].blocks + [ContentBlock(TEXT, b.text, None)])];
        }
      }
      assert emitted == FlatStep(t, before, b).emitted;
    }
  }

  method FlattenTurns(turns: seq<Turn>) returns (out: seq<WireTurn>)
    ensures out == FlattenAll(turns)
  {
    out := [];
    for i := 0 to |turns|
      invariant FlattenAll(turns) == out + FlattenAll(turns[i..])
    {
      var us := FlattenTurn(turns[i]);
      DropStep(turns, i);
      Assoc(out, us, FlattenAll(turns[i + 1..]));
      out := out + us;
    }
  }

  // The two fan-outs agree through the shim-to-unit projection.

  function UnitCalls(cs: seq<ToolCallRequest>): seq<ToolCall> {
    seq(|cs|, i requires 0 <= i < |cs| => ToolCall(cs[i].id, cs[i].name, cs[i].input))
  }

  /** What the wire keeps of a shim turn: a tool turn's content is its result payload. */
  function UnitOf(ct: ConversationTurn): WireTurn {
    if ct.role == Tool
    then WireTurn(Tool, "", ct.thinking, UnitCalls(ct.toolCalls), ToolResult(ct.toolCallId, ct.content, ct.isError), ct.contentBlocks)
    else WireTurn(ct.role, ct.content, ct.thinking, UnitCalls(ct.toolCalls), NO_RESULT, ct.contentBlocks)
  }

  function UnitsOf(ts: seq<ConversationTurn>): (us: seq<WireTurn>)
    ensures |us| == |ts|
  {
    seq(|ts|, i requires 0 <= i < |ts| => UnitOf(ts[i]))
  }

  function FlatOf(s: Shim): Flat {
    Flat(UnitsOf(s.emitted), s.firstHasResult, s.promotable)
  }

  /** The first emitted turn keeps the role of the neutral turn it came from. */
  ghost predicate LedBy(t: Turn, s: Shim) {
    s.emitted != [] && s.emitted[0].role == t.role
  }

  lemma UnitsUpdate(ts: seq<ConversationTurn>, i: nat, t: ConversationTurn)
    requires i < |ts|
    ensures UnitsOf(ts[i := t]) == UnitsOf(ts)[i := UnitOf(t)]
  {
  }

  lemma UnitsAppend(ts: seq<ConversationTurn>, t: ConversationTurn)
    ensures UnitsOf(ts + [t]) == UnitsOf(ts) + [UnitOf(t)]
  {
  }

  lemma ResultStepCommutes(t: Turn, s: Shim, b: Block)
    requires LedBy(t, s) && b.kind == KToolResult
    ensures LedBy(t, ShimStep(t, s, b))
    ensures FlatOf(ShimStep(t, s, b)) == FlatStep(t, FlatOf(s), b)
  {
    assert UnitCalls([]) == [];
    var next := ShimStep(t, s, b);
    if t.role == Tool && !s.firstHasResult && |s.emitted| == 1 {
      assert UnitsOf(next.emitted) == [UnitOf(next.emitted[0])];
    } else {
      UnitsAppend(s.emitted, next.emitted[|s.emitted|]);
    }
  }

  lemma CallStepCommutes(t: Turn, s: Shim, b: Block)
    requires LedBy(t, s) && b.kind == KToolCall
    ensures LedBy(t, ShimStep(t, s, b))
    ensures FlatOf(ShimStep(t, s, b)) == FlatStep(t, FlatOf(s), b)
  {
    var last := |s.emitted| - 1;
    if b.toolCall.Some? {
      var c := b.toolCall.value;
      var calls := s.emitted[last].toolCalls;
      assert UnitCalls(calls + [ToolCallRequest(c.id, c.name, c.paramsJson)]) == UnitCalls(calls) + [c];
      UnitsUpdate(s.emitted, last, ShimStep(t, s, b).emitted[last]);
    }
  }

  lemma ContentStepCommutes(t: Turn, s: Shim, b: Block)
    requires LedBy(t, s) && b.kind != KToolResult && b.kind != KToolCall
    ensures LedBy(t, ShimStep(t, s, b))
    ensures FlatOf(ShimStep(t, s, b)) == FlatStep(t, FlatOf(s), b)
  {
    var last := |s.emitted| - 1;
    var next := ShimStep(t, s, b);
    if b.kind == KThinking || b.kind == KImage || t.role == Tool || !s.promotable {
      UnitsUpdate(s.emitted, last, next.emitted[last]);
    } else {
      UnitsUpdate(s.emitted, 0, next.emitted[0]);
    }
  }

  lemma StepCommutes(t: Turn, s: Shim, b: Block)
    requires LedBy(t, s)
    ensures LedBy(t, ShimStep(t, s, b))
    ensures FlatOf(ShimStep(t, s, b)) == FlatStep(t, FlatOf(s), b)
  {
    if b.kind == KToolResult {
      ResultStepCommutes(t, s, b);
    } else if b.kind == KToolCall {
      CallStepCommutes(t, s, b);
    } else {
      ContentStepCommutes(t, s, b);
    }
  }

  lemma {:induction false} FoldCommutes(t: Turn, s: Shim, blocks: seq<Block>)
    requires LedBy(t, s)
    ensures FlatOf(ShimFold(t, s, blocks)) == FlatFold(t, FlatOf(s), blocks)
    decreases |blocks|
  {
    if blocks != [] {
      StepCommutes(t, s, blocks[0]);
      FoldCommutes(t, ShimStep(t, s, blocks[0]), blocks[1..]);
    }
  }

  /** For every neutral transcript, flattening natively is converting to the shim and projecting. */
  lemma {:induction false} FlattenAgrees(turns: seq<Turn>)
    ensures FlattenAll(turns) == UnitsOf(ShimAll(turns))
  {
    if turns != [] {
      var t := turns[0];
      assert UnitCalls([]) == [];
      assert FlatOf(ShimStart(t)).emitted == FlatStart(t).emitted;
      FoldCommutes(t, ShimStart(t), t.blocks);
      FlattenAgrees(turns[1..]);
      assert UnitsOf(ShimTurns(t) + ShimAll(turns[1..])) == UnitsOf(ShimTurns(t)) + UnitsOf(ShimAll(turns[1..]));
    }
  }

  // The round trip shim -> neutral -> shim.

  /** Rule C2: an unknown block comes back as text, an image keeps its source only. */
  function CanonicalBlock(cb: ContentBlock): ContentBlock {
    if cb.kind == IMAGE then ContentBlock(IMAGE, "", cb.source) else ContentBlock(TEXT, cb.text, None)
  }

  function CanonicalBlocks(cbs: seq<ContentBlock>): seq<ContentBlock> {
    seq(|cbs|, i requires 0 <= i < |cbs| => CanonicalBlock(cbs[i]))
  }

  /** Rule C1: the leading text attachment becomes the content when there is no content and no call. */
  predicate Promotes(ct: ConversationTurn) {
    ct.role != Tool && ct.content == "" && ct.toolCalls == [] && ct.contentBlocks != [] && ct.contentBlocks[0].kind != IMAGE
  }

  function Canonical(ct: ConversationTurn): ConversationTurn {
    ConversationTurn(
      ct.role,
      if Promotes(ct) then ct.contentBlocks[0].text else ct.content,
      CanonicalBlocks(if Promotes(ct) then ct.contentBlocks[1..] else ct.contentBlocks),
      ct.toolCalls,
      if ct.role == Tool then ct.toolCallId else "",
      ct.role == Tool && ct.isError,
      ct.category, ct.origin, ct.summary, ct.timestampMs, ct.thinking, "", "", [])
  }

  function CanonicalAll(conv: seq<ConversationTurn>): seq<ConversationTurn> {
    seq(|conv|, i requires 0 <= i < |conv| => Canonical(conv[i]))
  }

  lemma {:induction false} FoldConcat(t: Turn, s: Shim, a: seq<Block>, b: seq<Block>)
    requires s.emitted != []
    ensures ShimFold(t, s, a + b) == ShimFold(t, ShimFold(t, s, a), b)
    decreases |a|
  {
    if a == [] {
      assert a + b == b;
    } else {
      assert (a + b)[1..] == a[1..] + b;
      FoldConcat(t, ShimStep(t, s, a[0]), a[1..], b);
    }
  }

  lemma {:induction false} FoldThinking(t: Turn, s: Shim, ts: seq<Thinking>)
    requires |s.emitted| == 1
    ensures ShimFold(t, s, ThinkingBlocks(ts)) == s.(emitted := [s.emitted[0].(thinking := s.emitted[0].thinking + ts)])
    decreases |ts|
  {
    if ts == [] {
      assert s.emitted[0].thinking + ts == s.emitted[0].thinking;
    } else {
      var bs := ThinkingBlocks(ts);
      assert bs[1..] == ThinkingBlocks(ts[1..]);
      var s' := ShimStep(t, s, bs[0]);
      FoldThinking(t, s', ts[1..]);
      assert s.emitted[0].thinking + [ts[0]] + ts[1..] == s.emitted[0].thinking + ts;
    }
  }

  lemma {:induction false} FoldCalls(t: Turn, s: Shim, cs: seq<ToolCallRequest>)
    requires |s.emitted| == 1
    ensures ShimFold(t, s, CallBlocks(cs))
         == Shim([s.emitted[0].(toolCalls := s.emitted[0].toolCalls + cs)], s.firstHasResult, s.promotable && cs == [])
    decreases |cs|
  {
    if cs == [] {
      assert s.emitted[0].toolCalls + cs == s.emitted[0].toolCalls;
    } else {
      var bs := CallBlocks(cs);
      assert bs[1..] == CallBlocks(cs[1..]);
      var s' := ShimStep(t, s, bs[0]);
      FoldCalls(t, s', cs[1..]);
      assert s.emitted[0].toolCalls + [cs[0]] + cs[1..] == s.emitted[0].toolCalls + cs;
    }
  }

  lemma {:induction false} FoldAttachments(t: Turn, s: Shim, cbs: seq<ContentBlock>)
    requires |s.emitted| == 1 && (t.role == Tool || !s.promotable)
    ensures ShimFold(t, s, AttachmentBlocks(cbs)).emitted
         == [s.emitted[0].(contentBlocks := s.emitted[0].contentBlocks + CanonicalBlocks(cbs))]
    decreases |cbs|
  {
    if cbs == [] {
      assert s.emitted[0].contentBlocks + CanonicalBlocks(cbs) == s.emitted[0].contentBlocks;
    } else {
      var bs := AttachmentBlocks(cbs);
      assert bs[1..] == AttachmentBlocks(cbs[1..]);
      var s' := ShimStep(t, s, bs[0]);
      FoldAttachments(t, s', cbs[1..]);
      assert s.emitted[0].contentBlocks + [CanonicalBlock(cbs[0])] + CanonicalBlocks(cbs[1..])
          == s.emitted[0].contentBlocks + CanonicalBlocks(cbs);
    }
  }

  lemma FoldFirstAttachment(t: Turn, s: Shim, cbs: seq<ContentBlock>)
    requires |s.emitted| == 1 && t.role != Tool && s.promotable && cbs != [] && s.emitted[0].contentBlocks == []
    ensures ShimFold(t, s, AttachmentBlocks(cbs)).emitted
         == [if cbs[0].kind == IMAGE then s.emitted[0].(contentBlocks := CanonicalBlocks(cbs))
             else s.emitted[0].(content := cbs[0].text, contentBlocks := CanonicalBlocks(cbs[1..]))]
  {
    var bs := AttachmentBlocks(cbs);
    assert bs[1..] == AttachmentBlocks(cbs[1..]);
    FoldAttachments(t, ShimStep(t, s, bs[0]), cbs[1..]);
    if cbs[0].kind == IMAGE {
      assert ShimStep(t, s, bs[0]).emitted[0].contentBlocks == [CanonicalBlock(cbs[0])];
      assert [CanonicalBlock(cbs[0])] + CanonicalBlocks(cbs[1..]) == CanonicalBlocks(cbs);
    } else {
      assert [] + CanonicalBlocks(cbs[1..]) == CanonicalBlocks(cbs[1..]);
    }
  }

  /** A shim turn comes back from the neutral model as exactly one turn, its canonical form. */
  lemma RoundTrip(ct: ConversationTurn)
    ensures ShimTurns(Neutral(ct)) == [Canonical(ct)]
  {
    var t := Neutral(ct);
    var th, part := ThinkingBlocks(ct.thinking), ContentPart(ct);
    var cs, cbs := CallBlocks(ct.toolCalls), AttachmentBlocks(ct.contentBlocks);
    var s0 := ShimStart(t);
    FoldConcat(t, s0, th + part + cs, cbs);
    FoldConcat(t, s0, th + part, cs);
    FoldConcat(t, s0, th, part);
    FoldThinking(t, s0, ct.thinking);
    var s1 := ShimFold(t, s0, th);
    assert s0.emitted[0].thinking + ct.thinking == ct.thinking;
    var s2 := ShimFold(t, s1, part);
    assert s2 == AfterContent(ct, s1) by {
      assert part != [] ==> part[1..] == [];
    }
    RoundTripTail(ct, t, s2);
  }

  /** The calls and attachments of a turn, consumed from the state its content left. */
  lemma RoundTripTail(ct: ConversationTurn, t: Turn, s: Shim)
    requires |s.emitted| == 1 && t.role == ct.role
    requires s.emitted[0].toolCalls == [] && s.emitted[0].contentBlocks == []
    ensures ShimFold(t, ShimFold(t, s, CallBlocks(ct.toolCalls)), AttachmentBlocks(ct.contentBlocks)).emitted
         == if ct.role != Tool && s.promotable && ct.toolCalls == [] && ct.contentBlocks != [] && ct.contentBlocks[0].kind != IMAGE
            then [s.emitted[0].(content := ct.contentBlocks[0].text, contentBlocks := CanonicalBlocks(ct.contentBlocks[1..]))]
            else [s.emitted[0].(toolCalls := ct.toolCalls, contentBlocks := CanonicalBlocks(ct.contentBlocks))]
  {
    FoldCalls(t, s, ct.toolCalls);
    assert s.emitted[0].toolCalls + ct.toolCalls == ct.toolCalls;
    var s' := ShimFold(t, s, CallBlocks(ct.toolCalls));
    if t.role == Tool || !s'.promotable || ct.contentBlocks == [] {
      if t.role != Tool && s'.promotable {
        assert AttachmentBlocks(ct.contentBlocks) == [];
      } else {
        FoldAttachments(t, s', ct.contentBlocks);
      }
      assert s'.emitted[0].contentBlocks + CanonicalBlocks(ct.contentBlocks) == CanonicalBlocks(ct.contentBlocks);
    } else {
      FoldFirstAttachment(t, s', ct.contentBlocks);
    }
  }

  /** The converter's state once the turn's own content block is consumed. */
  function AfterContent(ct: ConversationTurn, s: Shim): Shim
    requires |s.emitted| == 1
  {
    if ct.role == Tool then
      Shim([s.emitted[0].(toolCallId := ct.toolCallId, content := ct.content, isError := ct.isError)], true, false)
    else if ct.content != "" && s.promotable then
      Shim([s.emitted[0].(content := ct.content)], s.firstHasResult, false)
    else s
  }

  lemma NeutralAllCons(conv: seq<ConversationTurn>)
    requires conv != []
    ensures NeutralAll(conv) != [] && NeutralAll(conv)[0] == Neutral(conv[0])
    ensures NeutralAll(conv)[1..] == NeutralAll(conv[1..])
    ensures CanonicalAll(conv) == [Canonical(conv[0])] + CanonicalAll(conv[1..])
  {
  }

  /** The round trip is one-to-one, turn by turn, for every conversation. */
  lemma {:induction false} RoundTripAll(conv: seq<ConversationTurn>)
    ensures ShimAll(NeutralAll(conv)) == CanonicalAll(conv)
  {
    if conv != [] {
      NeutralAllCons(conv);
      RoundTrip(conv[0]);
      RoundTripAll(conv[1..]);
    }
  }

  /** A second round trip changes the turn exactly when rule C1 promoted an empty text and
      another text attachment follows it. */
  lemma SecondRoundTripKeepsIff(ct: ConversationTurn)
    ensures ShimTurns(Neutral(Canonical(ct))) == [Canonical(ct)]
       <==> !(Promotes(ct) && ct.contentBlocks[0].text == "" && |ct.contentBlocks| > 1 && ct.contentBlocks[1].kind != IMAGE)
  {
    var c := Canonical(ct);
    RoundTrip(c);
    assert CanonicalBlocks(c.contentBlocks) == c.contentBlocks;
    if Promotes(c) {
      assert |CanonicalBlocks(c.contentBlocks[1..])| == |c.contentBlocks| - 1;
    }
  }
}
