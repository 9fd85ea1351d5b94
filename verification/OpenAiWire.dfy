/** The two OpenAI dialects: Chat Completions and Responses, each with its shim builder and
    its native builder, and the equality of the two for every list of neutral turns. */
module OpenAiWire {
  import opened Sequences
  import opened Transcript
  import opened TurnConversion

  datatype ToolSpec = ToolSpec(name: string, description: string, parameters: string)

  // Chat Completions.

  datatype OaiCall = OaiCall(id: string, name: string, arguments: string)
  datatype OaiRole = OaiSystem | OaiUser | OaiAssistant | OaiTool
  datatype OaiMessage = OaiMessage(role: OaiRole, content: string, toolCallId: string, toolCalls: seq<OaiCall>)
  datatype OaiRequest = OaiRequest(model: string, messages: seq<OaiMessage>, tools: seq<ToolSpec>,
                                   maxTokens: int, maxCompletionTokens: int)

  /** The construction-time settings both builders read. */
  datatype Endpoint = Endpoint(model: string, maxTokens: int, completionTokensField: bool)

  function OaiCalls(cs: seq<ToolCallRequest>): seq<OaiCall> {
    seq(|cs|, i requires 0 <= i < |cs| => OaiCall(cs[i].id, cs[i].name, cs[i].input))
  }

  function OaiUnitCalls(cs: seq<ToolCall>): seq<OaiCall> {
    seq(|cs|, i requires 0 <= i < |cs| => OaiCall(cs[i].id, cs[i].name, cs[i].paramsJson))
  }

  function TurnOnOai(t: ConversationTurn): OaiMessage {
    match t.role
    case Tool => OaiMessage(OaiTool, t.content, t.toolCallId, [])
    case Assistant => OaiMessage(OaiAssistant, t.content, "", OaiCalls(t.toolCalls))
    case _ => OaiMessage(OaiUser, t.content, "", [])
  }

  function UnitOnOai(u: WireTurn): OaiMessage {
    match u.role
    case Tool => OaiMessage(OaiTool, u.result.content, u.result.callId, [])
    case Assistant => OaiMessage(OaiAssistant, u.content, "", OaiUnitCalls(u.toolCalls))
    case _ => OaiMessage(OaiUser, u.content, "", [])
  }

  function SystemPart(system: string): seq<OaiMessage> {
    if system == "" then [] else [OaiMessage(OaiSystem, system, "", [])]
  }

  function TurnsOnOai(ts: seq<ConversationTurn>): seq<OaiMessage> {
    seq(|ts|, i requires 0 <= i < |ts| => TurnOnOai(ts[i]))
  }

  function UnitsOnOai(us: seq<WireTurn>): seq<OaiMessage> {
    seq(|us|, i requires 0 <= i < |us| => UnitOnOai(us[i]))
  }

  /** The output cap goes into the one field the endpoint accepts; no cap sets neither. */
  function WithMaxTokens(c: Endpoint, messages: seq<OaiMessage>, tools: seq<ToolSpec>): OaiRequest {
    OaiRequest(c.model, messages, tools,
               if c.maxTokens > 0 && !c.completionTokensField then c.maxTokens else 0,
               if c.maxTokens > 0 && c.completionTokensField then c.maxTokens else 0)
  }

  function ChatRequest(c: Endpoint, conv: seq<ConversationTurn>, tools: seq<ToolSpec>, system: string): OaiRequest {
    WithMaxTokens(c, SystemPart(system) + TurnsOnOai(conv), tools)
  }

  function NativeChatRequest(c: Endpoint, turns: seq<Turn>, tools: seq<ToolSpec>, system: string): OaiRequest {
    WithMaxTokens(c, SystemPart(system) + UnitsOnOai(FlattenAll(turns)), tools)
  }

  method TurnToOai(t: ConversationTurn) returns (m: OaiMessage)
    ensures m == TurnOnOai(t)
  {
    match t.role
    case Tool =>
      m := OaiMessage(OaiTool, t.content, t.toolCallId, []);
    case Assistant =>
      var calls := [];
      for i := 0 to |t.toolCalls|
        invariant calls == OaiCalls(t.toolCalls[..i])
      {
        calls := calls + [OaiCall(t.toolCalls[i].id, t.toolCalls[i].name, t.toolCalls[i].input)];
      }
      TakeAll(t.toolCalls);
      m := OaiMessage(OaiAssistant, t.content, "", calls);
    case _ =>
      m := OaiMessage(OaiUser, t.content, "", []);
  }

  method UnitToOai(u: WireTurn) returns (m: OaiMessage)
    ensures m == UnitOnOai(u)
  {
    match u.role
    case Tool =>
      m := OaiMessage(OaiTool, u.result.content, u.result.callId, []);
    case Assistant =>
      var calls := [];
      for i := 0 to |u.toolCalls|
        invariant calls == OaiUnitCalls(u.toolCalls[..i])
      {
        calls := calls + [OaiCall(u.toolCalls[i].id, u.toolCalls[i].name, u.toolCalls[i].paramsJson)];
      }
      TakeAll(u.toolCalls);
      m := OaiMessage(OaiAssistant, u.content, "", calls);
    case _ =>
      m := OaiMessage(OaiUser, u.content, "", []);
  }

  method BuildRequest(c: Endpoint, conversation: seq<ConversationTurn>, tools: seq<ToolSpec>, system: string)
    returns (r: OaiRequest)
    ensures r == ChatRequest(c, conversation, tools, system)
  {
    var msgs := [];
    if system != "" {
      msgs := msgs + [OaiMessage(OaiSystem, system, "", [])];
    }
    ghost var head := msgs;
    for i := 0 to |conversation|
      invariant msgs == head + TurnsOnOai(conversation[..i])
    {
      var m := TurnToOai(conversation[i]);
      msgs := msgs + [m];
    }
    TakeAll(conversation);
    r := SetMaxTokens(c, msgs, tools);
  }

  method BuildTurnRequest(c: Endpoint, turns: seq<Turn>, tools: seq<ToolSpec>, system: string) returns (r: OaiRequest)
    ensures r == NativeChatRequest(c, turns, tools, system)
    ensures r == ChatRequest(c, ShimAll(turns), tools, system)
  {
    var units := FlattenTurns(turns);
    var msgs := [];
    if system != "" {
      msgs := msgs + [OaiMessage(OaiSystem, system, "", [])];
    }
    ghost var head := msgs;
    for i := 0 to |units|
      invariant msgs == head + UnitsOnOai(units[..i])
    {
      var m := UnitToOai(units[i]);
      msgs := msgs + [m];
    }
    TakeAll(units);
    r := SetMaxTokens(c, msgs, tools);
    NativeChatEqualsShim(c, turns, tools, system);
  }

  method SetMaxTokens(c: Endpoint, messages: seq<OaiMessage>, tools: seq<ToolSpec>) returns (r: OaiRequest)
    ensures r == WithMaxTokens(c, messages, tools)
  {
    r := OaiRequest(c.model, messages, tools, 0, 0);
    if c.maxTokens <= 0 {
      return;
    }
    if c.completionTokensField {
      r := r.(maxCompletionTokens := c.maxTokens);
      return;
    }
    r := r.(maxTokens := c.maxTokens);
  }

  /** For every list of neutral turns, the native Chat Completions request is the shim one. */
  lemma NativeChatEqualsShim(c: Endpoint, turns: seq<Turn>, tools: seq<ToolSpec>, system: string)
    ensures NativeChatRequest(c, turns, tools, system) == ChatRequest(c, ShimAll(turns), tools, system)
  {
    FlattenAgrees(turns);
    var conv := ShimAll(turns);
    forall i | 0 <= i < |conv| ensures UnitOnOai(UnitOf(conv[i])) == TurnOnOai(conv[i]) {
      assert OaiUnitCalls(UnitCalls(conv[i].toolCalls)) == OaiCalls(conv[i].toolCalls);
    }
    assert UnitsOnOai(UnitsOf(conv)) == TurnsOnOai(conv);
  }

  // Responses.

  datatype RespItem =
    | RespText(role: OaiRole, content: string)
    | RespCall(callId: string, name: string, arguments: string)
    | RespOutput(callId: string, output: string)

  datatype RespRequest = RespRequest(model: string, instructions: string, maxOutputTokens: int,
                                     input: seq<RespItem>, tools: seq<ToolSpec>)

  /** The dialect has no error flag, so a failure is marked in the text. */
  function Output(content: string, isError: bool): string {
    if isError then "ERROR: " + content else content
  }

  function Arguments(raw: string): string {
    if raw == "" then "{}" else raw
  }

  function RespTextPart(content: string): seq<RespItem> {
    if content == "" then [] else [RespText(OaiAssistant, content)]
  }

  function RespCalls(cs: seq<ToolCallRequest>): seq<RespItem> {
    seq(|cs|, i requires 0 <= i < |cs| => RespCall(cs[i].id, cs[i].name, Arguments(cs[i].input)))
  }

  function RespUnitCalls(cs: seq<ToolCall>): seq<RespItem> {
    seq(|cs|, i requires 0 <= i < |cs| => RespCall(cs[i].id, cs[i].name, Arguments(cs[i].paramsJson)))
  }

  function TurnItems(t: ConversationTurn): seq<RespItem> {
    match t.role
    case Tool => [RespOutput(t.toolCallId, Output(t.content, t.isError))]
    case Assistant => RespTextPart(t.content) + RespCalls(t.toolCalls)
    case _ => [RespText(OaiUser, t.content)]
  }

  function UnitItems(u: WireTurn): seq<RespItem> {
    match u.role
    case Tool => [RespOutput(u.result.callId, Output(u.result.content, u.result.isError))]
    case Assistant => RespTextPart(u.content) + RespUnitCalls(u.toolCalls)
    case _ => [RespText(OaiUser, u.content)]
  }

  function AllTurnItems(ts: seq<ConversationTurn>): seq<RespItem> {
    if ts == [] then [] else TurnItems(ts[0]) + AllTurnItems(ts[1..])
  }

  function AllUnitItems(us: seq<WireTurn>): seq<RespItem> {
    if us == [] then [] else UnitItems(us[0]) + AllUnitItems(us[1..])
  }

  function ResponsesRequest(c: Endpoint, conv: seq<ConversationTurn>, tools: seq<ToolSpec>, system: string): RespRequest {
    RespRequest(c.model, system, c.maxTokens, AllTurnItems(conv), tools)
  }

  function NativeResponsesRequest(c: Endpoint, turns: seq<Turn>, tools: seq<ToolSpec>, system: string): RespRequest {
    RespRequest(c.model, system, c.maxTokens, AllUnitItems(FlattenAll(turns)), tools)
  }

  method TurnToResponses(t: ConversationTurn) returns (items: seq<RespItem>)
    ensures items == TurnItems(t)
  {
    match t.role
    case Tool =>
      var out := t.content;
      if t.isError {
        out := "ERROR: " + out;
      }
      items := [RespOutput(t.toolCallId, out)];
    case Assistant =>
      items := [];
      if t.content != "" {
        items := items + [RespText(OaiAssistant, t.content)];
      }
      ghost var head := items;
      for i := 0 to |t.toolCalls|
        invariant items == head + RespCalls(t.toolCalls[..i])
      {
        var args := t.toolCalls[i].input;
        if args == "" {
          args := "{}";
        }
        items := items + [RespCall(t.toolCalls[i].id, t.toolCalls[i].name, args)];
      }
      TakeAll(t.toolCalls);
    case _ =>
      items := [RespText(OaiUser, t.content)];
  }

  method UnitToResponses(u: WireTurn) returns (items: seq<RespItem>)
    ensures items == UnitItems(u)
  {
    match u.role
    case Tool =>
      var out := u.result.content;
      if u.result.isError {
        out := "ERROR: " + out;
      }
      items := [RespOutput(u.result.callId, out)];
    case Assistant =>
      items := [];
      if u.content != "" {
        items := items + [RespText(OaiAssistant, u.content)];
      }
      ghost var head := items;
      for i := 0 to |u.toolCalls|
        invariant items == head + RespUnitCalls(u.toolCalls[..i])
      {
        var args := u.toolCalls[i].paramsJson;
        if args == "" {
          args := "{}";
        }
        items := items + [RespCall(u.toolCalls[i].id, u.toolCalls[i].name, args)];
      }
      TakeAll(u.toolCalls);
    case _ =>
      items := [RespText(OaiUser, u.content)];
  }

  method BuildResponsesRequest(c: Endpoint, conversation: seq<ConversationTurn>, tools: seq<ToolSpec>, system: string)
    returns (r: RespRequest)
    ensures r == ResponsesRequest(c, conversation, tools, system)
  {
    var input := [];
    for i := 0 to |conversation|
      invariant AllTurnItems(conversation) == input + AllTurnItems(conversation[i..])
    {
      var items := TurnToResponses(conversation[i]);
      DropStep(conversation, i);
      Assoc(input, items, AllTurnItems(conversation[i + 1..]));
      input := input + items;
    }
    r := RespRequest(c.model, system, c.maxTokens, input, tools);
  }

  method BuildTurnResponsesRequest(c: Endpoint, turns: seq<Turn>, tools: seq<ToolSpec>, system: string)
    returns (r: RespRequest)
    ensures r == NativeResponsesRequest(c, turns, tools, system)
    ensures r == ResponsesRequest(c, ShimAll(turns), tools, system)
  {
    var units := FlattenTurns(turns);
    var input := [];
    for i := 0 to |units|
      invariant AllUnitItems(units) == input + AllUnitItems(units[i..])
    {
      var items := UnitToResponses(units[i]);
      DropStep(units, i);
      Assoc(input, items, AllUnitItems(units[i + 1..]));
      input := input + items;
    }
    r := RespRequest(c.model, system, c.maxTokens, input, tools);
    NativeResponsesEqualsShim(c, turns, tools, system);
  }

  lemma {:induction false} ItemsCommute(ts: seq<ConversationTurn>)
    ensures AllUnitItems(UnitsOf(ts)) == AllTurnItems(ts)
  {
    if ts != [] {
      assert UnitsOf(ts)[1..] == UnitsOf(ts[1..]);
      assert RespUnitCalls(UnitCalls(ts[0].toolCalls)) == RespCalls(ts[0].toolCalls);
      ItemsCommute(ts[1..]);
    }
  }

  /** For every list of neutral turns, the native Responses request is the shim one. */
  lemma NativeResponsesEqualsShim(c: Endpoint, turns: seq<Turn>, tools: seq<ToolSpec>, system: string)
    ensures NativeResponsesRequest(c, turns, tools, system) == ResponsesRequest(c, ShimAll(turns), tools, system)
  {
    FlattenAgrees(turns);
    ItemsCommute(ShimAll(turns));
  }
}
