/** The native Claude request builder over wire units, and its equality with the shim
    builder for every list of neutral turns. */
module NativeClaudeWire {
  import opened Sequences
  import opened Transcript
  import opened ToolPairing
  import opened TurnConversion
  import opened ClaudeWire

  // Units: runs, healing, emission.

  function UnitRun(us: seq<WireTurn>): (n: nat)
    ensures n <= |us|
    ensures forall i :: 0 <= i < n ==> us[i].role == Tool
  {
    if us == [] || us[0].role != Tool then 0 else 1 + UnitRun(us[1..])
  }

  function UnitCallIds(calls: seq<ToolCall>): set<string> {
    set c | c in calls :: c.id
  }

  function UnitResultIds(run: seq<WireTurn>): set<string> {
    set u | u in run :: u.result.callId
  }

  function SynthesizedUnit(callId: string): WireTurn {
    BlankUnit(Tool).(result := ToolResult(callId, HEALED_NOTE, true))
  }

  function KeptUnits(run: seq<WireTurn>, wanted: set<string>, answered: set<string>): seq<WireTurn> {
    if run == [] then []
    else if run[0].result.callId in wanted && run[0].result.callId !in answered then
      [run[0]] + KeptUnits(run[1..], wanted, answered + {run[0].result.callId})
    else KeptUnits(run[1..], wanted, answered)
  }

  function MissingUnits(calls: seq<ToolCall>, answered: set<string>): seq<WireTurn> {
    if calls == [] then []
    else if calls[0].id in answered then MissingUnits(calls[1..], answered)
    else [SynthesizedUnit(calls[0].id)] + MissingUnits(calls[1..], answered)
  }

  function HealedUnitRun(owner: WireTurn, run: seq<WireTurn>): seq<WireTurn> {
    var wanted := UnitCallIds(owner.toolCalls);
    KeptUnits(run, wanted, {}) + MissingUnits(owner.toolCalls, wanted * UnitResultIds(run))
  }

  function HealUnits(us: seq<WireTurn>): seq<WireTurn>
    decreases |us|
  {
    if us == [] then []
    else if IsCallerUnit(us[0]) then
      var n := UnitRun(us[1..]);
      [us[0]] + HealedUnitRun(us[0], us[1..][..n]) + HealUnits(us[1..][n..])
    else if us[0].role == Tool then HealUnits(us[1..])
    else [us[0]] + HealUnits(us[1..])
  }

  function LeadingNonUserUnits(us: seq<WireTurn>): (n: nat)
    ensures n <= |us|
  {
    if us == [] || us[0].role == User then 0 else 1 + LeadingNonUserUnits(us[1..])
  }

  function HealUnitsFront(us: seq<WireTurn>): seq<WireTurn> {
    var i := LeadingNonUserUnits(us);
    if i == |us| then us else us[i..]
  }

  function UnitToolUses(e: Edge, cs: seq<ToolCall>): seq<WireBlock> {
    seq(|cs|, i requires 0 <= i < |cs| => WToolUse(cs[i].id, cs[i].name, e.sanitizeInput(cs[i].paramsJson)))
  }

  function UnitAssistantBlocks(e: Edge, u: WireTurn): seq<WireBlock> {
    ReplayedThinking(u.thinking) + LeadingText(u.content) + UnitToolUses(e, u.toolCalls)
  }

  function UnitResultBlocks(run: seq<WireTurn>): seq<WireBlock> {
    seq(|run|, i requires 0 <= i < |run| => WToolResult(run[i].result.callId, run[i].result.content, run[i].result.isError))
  }

  function UnitAttachments(e: Edge, run: seq<WireTurn>): seq<ContentBlock> {
    if run == [] then [] else HealedBlocks(e, run[0].blocks) + UnitAttachments(e, run[1..])
  }

  function EmitUnit(e: Edge, u: WireTurn): seq<Message> {
    match u.role
    case User => [UserMessage(e, u.content, u.blocks)]
    case Assistant => OptionalAssistant(UnitAssistantBlocks(e, u))
    case _ => []
  }

  function EmitUnitResults(e: Edge, run: seq<WireTurn>): seq<Message> {
    [Message(User, Blocks(UnitResultBlocks(run)))] + OptionalAttachments(UnitAttachments(e, run))
  }

  function EmitUnits(e: Edge, us: seq<WireTurn>): seq<Message>
    decreases |us|
  {
    if us == [] then []
    else if us[0].role == Tool then EmitUnitResults(e, us[..UnitRun(us)]) + EmitUnits(e, us[UnitRun(us)..])
    else EmitUnit(e, us[0]) + EmitUnits(e, us[1..])
  }

  /** The request the native builder makes of neutral turns. */
  function NativeMessages(e: Edge, turns: seq<Turn>): seq<Message> {
    EmitUnits(e, HealUnits(HealUnitsFront(FlattenAll(turns))))
  }

  // The native builder's loops.

  method HealUnitsHead(units: seq<WireTurn>) returns (out: seq<WireTurn>)
    ensures out == HealUnitsFront(units)
  {
    var i := 0;
    while i < |units| && units[i].role != User
      invariant 0 <= i <= |units|
      invariant LeadingNonUserUnits(units) == i + LeadingNonUserUnits(units[i..])
    {
      DropStep(units, i);
      i := i + 1;
    }
    if i >= |units| {
      return units;
    }
    return units[i..];
  }

  lemma {:induction false} KeptUnitsSnoc(run: seq<WireTurn>, u: WireTurn, wanted: set<string>, answered: set<string>)
    ensures KeptUnits(run + [u], wanted, answered)
         == KeptUnits(run, wanted, answered)
          + (if u.result.callId in wanted && u.result.callId !in answered && u.result.callId !in UnitResultIds(run) then [u] else [])
  {
    if run == [] {
      assert run + [u] == [u];
    } else {
      assert (run + [u])[1..] == run[1..] + [u];
      Cons(run);
      assert UnitResultIds(run) == {run[0].result.callId} + UnitResultIds(run[1..]);
      if run[0].result.callId in wanted && run[0].result.callId !in answered {
        KeptUnitsSnoc(run[1..], u, wanted, answered + {run[0].result.callId});
      } else {
        KeptUnitsSnoc(run[1..], u, wanted, answered);
      }
    }
  }

  lemma AnsweredUnitsSnoc(wanted: set<string>, run: seq<WireTurn>, u: WireTurn)
    ensures wanted * UnitResultIds(run + [u])
         == if u.result.callId in wanted then wanted * UnitResultIds(run) + {u.result.callId} else wanted * UnitResultIds(run)
  {
    assert UnitResultIds(run + [u]) == UnitResultIds(run) + {u.result.callId};
  }

  method CollectUnitResults(units: seq<WireTurn>, from: nat, wanted: set<string>)
    returns (kept: seq<WireTurn>, answered: set<string>, j: nat)
    requires from <= |units|
    ensures j == from + UnitRun(units[from..])
    ensures from <= j <= |units| && kept == KeptUnits(units[from..j], wanted, {})
    ensures answered == wanted * UnitResultIds(units[from..j])
  {
    kept, answered, j := [], {}, from;
    ghost var run: seq<WireTurn> := [];
    while j < |units| && units[j].role == Tool
      invariant from <= j <= |units| && run == units[from..j]
      invariant UnitRun(units[from..]) == (j - from) + UnitRun(units[j..])
      invariant answered == wanted * UnitResultIds(run)
      invariant kept == KeptUnits(run, wanted, {})
    {
      var tr := units[j];
      SliceSnoc(units, from, j);
      DropStep(units, j);
      KeptUnitsSnoc(run, tr, wanted, {});
      AnsweredUnitsSnoc(wanted, run, tr);
      run := run + [tr];
      if tr.result.callId in wanted && tr.result.callId !in answered {
        answered := answered + {tr.result.callId};
        kept := kept + [tr];
      }
      j := j + 1;
    }
  }

  method InventMissingUnits(calls: seq<ToolCall>, answered: set<string>) returns (missing: seq<WireTurn>)
    ensures missing == MissingUnits(calls, answered)
  {
    missing := [];
    for k := 0 to |calls|
      invariant MissingUnits(calls, answered) == missing + MissingUnits(calls[k..], answered)
    {
      DropStep(calls, k);
      if calls[k].id !in answered {
        missing := missing + [SynthesizedUnit(calls[k].id)];
      }
    }
  }

  lemma HealUnitsFrom(units: seq<WireTurn>, i: nat, j: nat)
    requires i < |units| && IsCallerUnit(units[i]) && j == i + 1 + UnitRun(units[i + 1..])
    ensures HealUnits(units[i..]) == [units[i]] + HealedUnitRun(units[i], units[i + 1..j]) + HealUnits(units[j..])
  {
    DropStep(units, i);
    DropSplit(units, i + 1, j);
  }

  method HealUnitsToolPairing(units: seq<WireTurn>) returns (out: seq<WireTurn>)
    ensures out == HealUnits(units)
  {
    out := [];
    var i := 0;
    while i < |units|
      invariant 0 <= i <= |units|
      invariant HealUnits(units) == out + HealUnits(units[i..])
    {
      var u := units[i];
      DropStep(units, i);
      if IsCallerUnit(u) {
        var kept, answered, j := CollectUnitResults(units, i + 1, UnitCallIds(u.toolCalls));
        var missing := InventMissingUnits(u.toolCalls, answered);
        HealUnitsFrom(units, i, j);
        Assoc(out, [u] + (kept + missing), HealUnits(units[j..]));
        out := out + ([u] + (kept + missing));
        i := j;
      } else if u.role == Tool {
        i := i + 1;
      } else {
        Assoc(out, [u], HealUnits(units[i + 1..]));
        out := out + [u];
        i := i + 1;
      }
    }
  }

  method EmitAssistantUnit(e: Edge, u: WireTurn) returns (ms: seq<Message>)
    ensures ms == OptionalAssistant(UnitAssistantBlocks(e, u))
  {
    var blocks := EmitThinking(u.thinking);
    if u.content != "" {
      blocks := blocks + [WText(u.content)];
    }
    ghost var head := blocks;
    for i := 0 to |u.toolCalls|
      invariant blocks == head + UnitToolUses(e, u.toolCalls[..i])
    {
      var tc := u.toolCalls[i];
      blocks := blocks + [WToolUse(tc.id, tc.name, e.sanitizeInput(tc.paramsJson))];
    }
    TakeAll(u.toolCalls);
    if |blocks| > 0 {
      ms := [Message(Assistant, Blocks(blocks))];
    } else {
      ms := [];
    }
  }

  lemma {:induction false} UnitAttachmentsSnoc(e: Edge, run: seq<WireTurn>, u: WireTurn)
    ensures UnitAttachments(e, run + [u]) == UnitAttachments(e, run) + HealedBlocks(e, u.blocks)
  {
    if run == [] {
      assert run + [u] == [u];
    } else {
      assert (run + [u])[1..] == run[1..] + [u];
      UnitAttachmentsSnoc(e, run[1..], u);
    }
  }

  lemma UnitResultBlocksSnoc(run: seq<WireTurn>, u: WireTurn)
    ensures UnitResultBlocks(run + [u])
         == UnitResultBlocks(run) + [WToolResult(u.result.callId, u.result.content, u.result.isError)]
  {
  }

  method EmitUnitRun(e: Edge, units: seq<WireTurn>, from: nat) returns (ms: seq<Message>, next: nat)
    requires from < |units| && units[from].role == Tool
    ensures next == from + UnitRun(units[from..]) && from < next <= |units|
    ensures ms == EmitUnitResults(e, units[from..next])
  {
    var results, attachments := [], [];
    next := from;
    while next < |units| && units[next].role == Tool
      invariant from <= next <= |units|
      invariant UnitRun(units[from..]) == (next - from) + UnitRun(units[next..])
      invariant results == UnitResultBlocks(units[from..next])
      invariant attachments == UnitAttachments(e, units[from..next])
    {
      var tr := units[next];
      SliceSnoc(units, from, next);
      DropStep(units, next);
      UnitResultBlocksSnoc(units[from..next], tr);
      UnitAttachmentsSnoc(e, units[from..next], tr);
      results := results + [WToolResult(tr.result.callId, tr.result.content, tr.result.isError)];
      attachments := attachments + HealedBlocks(e, tr.blocks);
      next := next + 1;
    }
    ms := [Message(User, Blocks(results))];
    if |attachments| > 0 {
      ms := ms + [Message(User, Attachments(attachments))];
    }
  }

  lemma EmitUnitsFrom(e: Edge, units: seq<WireTurn>, i: nat, next: nat)
    requires i < |units|
    requires next == if units[i].role == Tool then i + UnitRun(units[i..]) else i + 1
    ensures EmitUnits(e, units[i..])
         == (if units[i].role == Tool then EmitUnitResults(e, units[i..next]) else EmitUnit(e, units[i]))
          + EmitUnits(e, units[next..])
  {
    DropStep(units, i);
    DropSplit(units, i, next);
  }

  method EmitUnitAt(e: Edge, units: seq<WireTurn>, ti: nat) returns (ms: seq<Message>, next: nat)
    requires ti < |units|
    ensures ti < next <= |units|
    ensures EmitUnits(e, units[ti..]) == ms + EmitUnits(e, units[next..])
  {
    var u := units[ti];
    ms, next := [], ti + 1;
    match u.role {
      case User =>
        var m := EmitUser(e, u.content, u.blocks);
        ms := [m];
      case Assistant =>
        ms := EmitAssistantUnit(e, u);
      case Tool =>
        ms, next := EmitUnitRun(e, units, ti);
      case Other(_) =>
    }
    EmitUnitsFrom(e, units, ti, next);
  }

  method MessagesFromUnits(e: Edge, units: seq<WireTurn>) returns (messages: seq<Message>)
    ensures messages == EmitUnits(e, units)
  {
    messages := [];
    var ti := 0;
    while ti < |units|
      invariant 0 <= ti <= |units|
      invariant EmitUnits(e, units) == messages + EmitUnits(e, units[ti..])
    {
      var ms, next := EmitUnitAt(e, units, ti);
      Assoc(messages, ms, EmitUnits(e, units[next..]));
      messages := messages + ms;
      ti := next;
    }
  }

  method BuildTurnMessages(e: Edge, turns: seq<Turn>) returns (messages: seq<Message>)
    ensures messages == NativeMessages(e, turns)
    ensures messages == Messages(e, ShimAll(turns))
  {
    var units := FlattenTurns(turns);
    units := HealUnitsHead(units);
    units := HealUnitsToolPairing(units);
    messages := MessagesFromUnits(e, units);
    NativeEqualsShim(e, turns);
  }

  // Each stage commutes with the projection of shim turns to units.

  lemma UnitsOfParts(ts: seq<ConversationTurn>, n: nat)
    requires n <= |ts|
    ensures UnitsOf(ts)[..n] == UnitsOf(ts[..n]) && UnitsOf(ts)[n..] == UnitsOf(ts[n..])
  {
  }

  lemma UnitsOfConcat(a: seq<ConversationTurn>, b: seq<ConversationTurn>)
    ensures UnitsOf(a + b) == UnitsOf(a) + UnitsOf(b)
  {
  }

  lemma UnitsOfCons(ts: seq<ConversationTurn>)
    requires ts != []
    ensures UnitsOf(ts) != [] && UnitsOf(ts)[0] == UnitOf(ts[0]) && UnitsOf(ts)[1..] == UnitsOf(ts[1..])
  {
  }

  lemma {:induction false} RunCommutes(ts: seq<ConversationTurn>)
    ensures UnitRun(UnitsOf(ts)) == ToolRun(ts)
  {
    if ts != [] {
      UnitsOfCons(ts);
      RunCommutes(ts[1..]);
    }
  }

  lemma ResultIdsCommute(run: seq<ConversationTurn>)
    requires AllTools(run)
    ensures UnitResultIds(UnitsOf(run)) == ResultIds(run)
  {
    var us := UnitsOf(run);
    forall id ensures id in UnitResultIds(us) <==> id in ResultIds(run) {
      if id in ResultIds(run) {
        var k :| 0 <= k < |run| && run[k].toolCallId == id;
        assert us[k] in us;
      }
      if id in UnitResultIds(us) {
        var k :| 0 <= k < |us| && us[k].result.callId == id;
        assert run[k] in run;
      }
    }
  }

  lemma CallIdsCommute(calls: seq<ToolCallRequest>)
    ensures UnitCallIds(UnitCalls(calls)) == CallIds(calls)
  {
    var us := UnitCalls(calls);
    forall id ensures id in UnitCallIds(us) <==> id in CallIds(calls) {
      if id in CallIds(calls) {
        var k :| 0 <= k < |calls| && calls[k].id == id;
        assert us[k] in us;
      }
      if id in UnitCallIds(us) {
        var k :| 0 <= k < |us| && us[k].id == id;
        assert calls[k] in calls;
      }
    }
  }

  lemma {:induction false} KeptCommutes(run: seq<ConversationTurn>, wanted: set<string>, answered: set<string>)
    requires AllTools(run)
    ensures KeptUnits(UnitsOf(run), wanted, answered) == UnitsOf(Kept(run, wanted, answered))
  {
    if run != [] {
      UnitsOfCons(run);
      var id := run[0].toolCallId;
      if id in wanted && id !in answered {
        KeptCommutes(run[1..], wanted, answered + {id});
        UnitsOfConcat([run[0]], Kept(run[1..], wanted, answered + {id}));
        assert UnitsOf([run[0]]) == [UnitOf(run[0])];
      } else {
        KeptCommutes(run[1..], wanted, answered);
      }
    }
  }

  lemma {:induction false} MissingCommutes(owner: ConversationTurn, calls: seq<ToolCallRequest>, answered: set<string>)
    ensures MissingUnits(UnitCalls(calls), answered) == UnitsOf(Missing(owner, calls, answered))
  {
    if calls != [] {
      assert UnitCalls(calls)[1..] == UnitCalls(calls[1..]);
      MissingCommutes(owner, calls[1..], answered);
      if calls[0].id !in answered {
        var s := Synthesized(owner, calls[0].id);
        assert UnitCalls([]) == [];
        assert UnitOf(s) == SynthesizedUnit(calls[0].id);
        UnitsOfConcat([s], Missing(owner, calls[1..], answered));
        assert UnitsOf([s]) == [UnitOf(s)];
      }
    }
  }

  lemma HealedRunCommutes(owner: ConversationTurn, run: seq<ConversationTurn>)
    requires IsCaller(owner) && AllTools(run)
    ensures HealedUnitRun(UnitOf(owner), UnitsOf(run)) == UnitsOf(HealedRun(owner, run))
  {
    var wanted := CallIds(owner.toolCalls);
    CallIdsCommute(owner.toolCalls);
    ResultIdsCommute(run);
    KeptCommutes(run, wanted, {});
    MissingCommutes(owner, owner.toolCalls, wanted * ResultIds(run));
    UnitsOfConcat(Kept(run, wanted, {}), Missing(owner, owner.toolCalls, wanted * ResultIds(run)));
  }

  lemma CallerCommutes(t: ConversationTurn)
    ensures IsCallerUnit(UnitOf(t)) <==> IsCaller(t)
  {
    assert |UnitCalls(t.toolCalls)| == |t.toolCalls|;
  }

  /** Pairing healing commutes with the projection. */
  lemma {:induction false} HealCommutes(ts: seq<ConversationTurn>)
    ensures HealUnits(UnitsOf(ts)) == UnitsOf(HealPairing(ts))
    decreases |ts|
  {
    if ts != [] {
      UnitsOfCons(ts);
      CallerCommutes(ts[0]);
      if IsCaller(ts[0]) {
        var run, rest := SplitGroup(ts);
        HealGroup(ts, run, rest);
        RunCommutes(ts[1..]);
        UnitsOfParts(ts[1..], |run|);
        HealedRunCommutes(ts[0], run);
        HealCommutes(rest);
        UnitsOfConcat([ts[0]], HealedRun(ts[0], run));
        UnitsOfConcat([ts[0]] + HealedRun(ts[0], run), HealPairing(rest));
        assert UnitsOf([ts[0]]) == [UnitOf(ts[0])];
      } else {
        HealCommutes(ts[1..]);
        if ts[0].role != Tool {
          UnitsOfConcat([ts[0]], HealPairing(ts[1..]));
          assert UnitsOf([ts[0]]) == [UnitOf(ts[0])];
        }
      }
    }
  }

  lemma {:induction false} LeadingCommutes(ts: seq<ConversationTurn>)
    ensures LeadingNonUserUnits(UnitsOf(ts)) == LeadingNonUser(ts)
  {
    if ts != [] {
      UnitsOfCons(ts);
      LeadingCommutes(ts[1..]);
    }
  }

  /** Head healing commutes with the projection. */
  lemma HeadCommutes(ts: seq<ConversationTurn>)
    ensures HealUnitsFront(UnitsOf(ts)) == UnitsOf(HealHead(ts))
  {
    LeadingCommutes(ts);
    UnitsOfParts(ts, LeadingNonUser(ts));
  }

  lemma {:induction false} AttachmentsCommute(e: Edge, run: seq<ConversationTurn>)
    ensures UnitAttachments(e, UnitsOf(run)) == RunAttachments(e, run)
  {
    if run != [] {
      UnitsOfCons(run);
      AttachmentsCommute(e, run[1..]);
    }
  }

  lemma EmitTurnCommutes(e: Edge, t: ConversationTurn)
    requires t.role != Tool
    ensures EmitUnit(e, UnitOf(t)) == EmitTurn(e, t)
  {
    assert UnitToolUses(e, UnitCalls(t.toolCalls)) == ToolUses(e, t.toolCalls);
  }

  lemma EmitRunCommutes(e: Edge, run: seq<ConversationTurn>)
    requires AllTools(run)
    ensures EmitUnitResults(e, UnitsOf(run)) == EmitResults(e, run)
  {
    assert UnitResultBlocks(UnitsOf(run)) == ResultBlocks(run);
    AttachmentsCommute(e, run);
  }

  /** Emission depends on a shim turn only through its unit. */
  lemma {:induction false} EmitCommutes(e: Edge, ts: seq<ConversationTurn>)
    ensures EmitUnits(e, UnitsOf(ts)) == Emit(e, ts)
    decreases |ts|
  {
    if ts != [] {
      UnitsOfCons(ts);
      if ts[0].role == Tool {
        var n := ToolRun(ts);
        RunCommutes(ts);
        UnitsOfParts(ts, n);
        EmitRunCommutes(e, ts[..n]);
        EmitCommutes(e, ts[n..]);
      } else {
        EmitTurnCommutes(e, ts[0]);
        EmitCommutes(e, ts[1..]);
      }
    }
  }

  /** For every list of neutral turns, the native request is the shim request of the converted conversation. */
  lemma NativeEqualsShim(e: Edge, turns: seq<Turn>)
    ensures NativeMessages(e, turns) == Messages(e, ShimAll(turns))
  {
    var conv := ShimAll(turns);
    FlattenAgrees(turns);
    HeadCommutes(conv);
    HealCommutes(HealHead(conv));
    EmitCommutes(e, HealPairing(HealHead(conv)));
  }

  /** The adjacency rule therefore holds of every native request as well. */
  lemma NativeRequestIsWellFormed(e: Edge, turns: seq<Turn>)
    ensures Adjacent(NativeMessages(e, turns))
    ensures (exists t :: t in turns && t.role == User) ==>
              NativeMessages(e, turns) != [] && NativeMessages(e, turns)[0].role == User
  {
    NativeEqualsShim(e, turns);
    RequestIsWellFormed(e, ShimAll(turns));
    if t :| t in turns && t.role == User {
      UserTurnSurvives(turns, t);
    }
  }

  lemma {:induction false} UserTurnSurvives(turns: seq<Turn>, t: Turn)
    requires t in turns && t.role == User
    ensures exists ct :: ct in ShimAll(turns) && ct.role == User
  {
    if turns[0] == t {
      LedFold(t, ShimStart(t), t.blocks);
      assert ShimTurns(t)[0] in ShimAll(turns);
    } else {
      UserTurnSurvives(turns[1..], t);
      var ct :| ct in ShimAll(turns[1..]) && ct.role == User;
      assert ct in ShimAll(turns);
    }
  }

  lemma {:induction false} LedFold(t: Turn, s: Shim, blocks: seq<Block>)
    requires LedBy(t, s)
    ensures LedBy(t, ShimFold(t, s, blocks))
    decreases |blocks|
  {
    if blocks != [] {
      StepCommutes(t, s, blocks[0]);
      LedFold(t, ShimStep(t, s, blocks[0]), blocks[1..]);
    }
  }
}
