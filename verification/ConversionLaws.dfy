/** What the turns hold that a neutral turn fans out into, for any blocks in any order. */
module ConversionLaws {
  import opened Basics
  import opened Sequences
  import opened Transcript
  import opened TurnConversion

  // What a stretch of blocks holds, kind by kind and in order.

  function ThoughtsIn(bs: seq<Block>): seq<Thinking> {
    if bs == [] then []
    else
      var b := bs[|bs| - 1];
      ThoughtsIn(bs[..|bs| - 1]) + if b.kind == KThinking && b.thinking.Some? then [b.thinking.value] else []
  }

  function CallsIn(bs: seq<Block>): seq<ToolCallRequest> {
    if bs == [] then []
    else
      var b := bs[|bs| - 1];
      CallsIn(bs[..|bs| - 1])
      + if b.kind == KToolCall && b.toolCall.Some?
        then [ToolCallRequest(b.toolCall.value.id, b.toolCall.value.name, b.toolCall.value.paramsJson)] else []
  }

  predicate TextLike(b: Block) {
    b.kind.KText? || b.kind.KOther?
  }

  function AttachedIn(bs: seq<Block>): seq<ContentBlock> {
    if bs == [] then []
    else
      var b := bs[|bs| - 1];
      AttachedIn(bs[..|bs| - 1])
      + if b.kind == KImage then [ContentBlock("image", "", b.image)]
        else if TextLike(b) then [ContentBlock("text", b.text, None)] else []
  }

  // The turn made from a stretch.

  ghost predicate IsResult(bs: seq<Block>, j: int) {
    0 <= j < |bs| && bs[j].kind == KToolResult
  }

  ghost predicate HasResult(bs: seq<Block>) {
    exists j :: IsResult(bs, j)
  }

  ghost predicate OnlyThoughts(bs: seq<Block>) {
    forall i :: 0 <= i < |bs| ==> bs[i].kind == KThinking
  }

  /** The text that becomes a turn's content: it opens the turn, but for thoughts. */
  ghost predicate Opens(role: Role, first: bool, bs: seq<Block>, j: int) {
    first && role != Tool && 0 <= j < |bs| && TextLike(bs[j]) && OnlyThoughts(bs[..j])
  }

  ghost predicate HasPayload(u: ConversationTurn, r: Option<ToolResult>) {
    if r.None? then u.toolCallId == "" && u.content == "" && !u.isError
    else u.toolCallId == r.value.callId && u.content == r.value.content && u.isError == r.value.isError
  }

  /** A turn holds its stretch's thoughts, calls, images and texts; and either the stretch's result, or the
      text that opens it as its content. */
  ghost predicate Holds(t: Turn, first: bool, bs: seq<Block>, u: ConversationTurn) {
    && u.role == (if first then t.role else Tool)
    && u.category == t.category && u.origin == t.origin && u.summary == t.summary && u.timestampMs == t.timestampMs
    && u.providerName == "" && u.model == "" && u.subAgentCalls == []
    && u.thinking == ThoughtsIn(bs) && u.toolCalls == CallsIn(bs)
    && (forall j :: Opens(t.role, first, bs, j) ==>
          u.content == bs[j].text && u.toolCallId == "" && !u.isError && u.contentBlocks == AttachedIn(bs[j + 1..]))
    && ((forall j :: !Opens(t.role, first, bs, j)) ==> u.contentBlocks == AttachedIn(bs))
    && (forall j :: IsResult(bs, j) ==> HasPayload(u, bs[j].toolResult))
    && ((forall j :: !Opens(t.role, first, bs, j)) && (forall j :: !IsResult(bs, j)) ==> HasPayload(u, None))
  }

  /** A later stretch begins with its result and has no other. */
  ghost predicate BehindResult(bs: seq<Block>) {
    IsResult(bs, 0) && forall j :: IsResult(bs, j) ==> j == 0
  }

  /** The first stretch has no result, unless the turn is a tool turn: then it has one, if there is any. */
  ghost predicate BeforeResults(t: Turn, bs: seq<Block>) {
    && (t.role != Tool ==> forall j :: !IsResult(bs, j))
    && (forall i, j :: IsResult(bs, i) && IsResult(bs, j) ==> i == j)
  }

  function Joined(segs: seq<seq<Block>>): seq<Block> {
    if segs == [] then [] else Joined(segs[..|segs| - 1]) + segs[|segs| - 1]
  }

  /** The blocks fall into stretches, one per turn. */
  ghost predicate FallsInto(t: Turn, bs: seq<Block>, segs: seq<seq<Block>>, ts: seq<ConversationTurn>) {
    && |segs| == |ts| && segs != [] && Joined(segs) == bs
    && BeforeResults(t, segs[0]) && (forall k :: 0 < k < |segs| ==> BehindResult(segs[k]))
    && (t.role == Tool && |segs| > 1 ==> HasResult(segs[0]))
    && (forall k :: 0 <= k < |segs| ==> Holds(t, k == 0, segs[k], ts[k]))
  }

  // One more block.

  lemma InSnoc(bs: seq<Block>, b: Block)
    ensures ThoughtsIn(bs + [b]) == ThoughtsIn(bs) + if b.kind == KThinking && b.thinking.Some? then [b.thinking.value] else []
    ensures CallsIn(bs + [b]) == CallsIn(bs) + if b.kind == KToolCall && b.toolCall.Some?
              then [ToolCallRequest(b.toolCall.value.id, b.toolCall.value.name, b.toolCall.value.paramsJson)] else []
    ensures AttachedIn(bs + [b]) == AttachedIn(bs) + if b.kind == KImage then [ContentBlock("image", "", b.image)]
              else if TextLike(b) then [ContentBlock("text", b.text, None)] else []
  {
    assert (bs + [b])[..|bs|] == bs;
  }

  lemma {:induction false} ThoughtsAttachNothing(bs: seq<Block>)
    requires OnlyThoughts(bs)
    ensures AttachedIn(bs) == []
  {
    if bs != [] {
      ThoughtsAttachNothing(bs[..|bs| - 1]);
    }
  }

  lemma OpensSnoc(role: Role, first: bool, bs: seq<Block>, b: Block, j: int)
    ensures j < |bs| ==> (Opens(role, first, bs + [b], j) <==> Opens(role, first, bs, j))
    ensures Opens(role, first, bs + [b], |bs|) <==> first && role != Tool && TextLike(b) && OnlyThoughts(bs)
    ensures j > |bs| ==> !Opens(role, first, bs + [b], j)
  {
    if 0 <= j < |bs| {
      assert (bs + [b])[..j] == bs[..j];
    }
    assert (bs + [b])[..|bs|] == bs;
  }

  lemma ResultSnoc(bs: seq<Block>, b: Block, j: int)
    ensures IsResult(bs + [b], j) <==> IsResult(bs, j) || (j == |bs| && b.kind == KToolResult)
  {
  }

  /** A thought joins the turn it comes in. */
  lemma HoldsThought(t: Turn, first: bool, bs: seq<Block>, u: ConversationTurn, b: Block)
    requires Holds(t, first, bs, u) && b.kind == KThinking
    ensures Holds(t, first, bs + [b], if b.thinking.Some? then u.(thinking := u.thinking + [b.thinking.value]) else u)
  {
    hide HasPayload, ThoughtsIn, CallsIn, AttachedIn, IsResult, Opens;
    InSnoc(bs, b);
    AddsNothing(t, first, bs, b);
    assert u.thinking + [] == u.thinking;
    Unadded(u.toolCalls, u.contentBlocks);
    SamePayload(bs, u, b, if b.thinking.Some? then u.(thinking := u.thinking + [b.thinking.value]) else u);
  }

  lemma Unadded(cs: seq<ToolCallRequest>, bs: seq<ContentBlock>)
    ensures cs + [] == cs && bs + [] == bs
  {
  }

  /** A block that opens nothing leaves the openers as they were. */
  lemma AddsNothing(t: Turn, first: bool, bs: seq<Block>, b: Block)
    requires !(first && t.role != Tool && TextLike(b) && OnlyThoughts(bs))
    ensures forall j :: Opens(t.role, first, bs + [b], j) <==> Opens(t.role, first, bs, j)
    ensures forall j :: Opens(t.role, first, bs, j) ==>
              (bs + [b])[j] == bs[j] && (bs + [b])[j + 1..] == bs[j + 1..] + [b]
              && AttachedIn((bs + [b])[j + 1..]) == AttachedIn(bs[j + 1..])
                 + if b.kind == KImage then [ContentBlock("image", "", b.image)]
                   else if TextLike(b) then [ContentBlock("text", b.text, None)] else []
  {
    hide AttachedIn;
    forall j ensures Opens(t.role, first, bs + [b], j) <==> Opens(t.role, first, bs, j) {
      OpensSnoc(t.role, first, bs, b, j);
    }
    forall j | Opens(t.role, first, bs, j)
      ensures (bs + [b])[j] == bs[j] && (bs + [b])[j + 1..] == bs[j + 1..] + [b]
              && AttachedIn((bs + [b])[j + 1..]) == AttachedIn(bs[j + 1..])
                 + if b.kind == KImage then [ContentBlock("image", "", b.image)]
                   else if TextLike(b) then [ContentBlock("text", b.text, None)] else []
    {
      InSnoc(bs[j + 1..], b);
    }
  }

  /** A block that is no result leaves the turn's result as it was. */
  lemma SamePayload(bs: seq<Block>, u: ConversationTurn, b: Block, v: ConversationTurn)
    requires b.kind != KToolResult && v.toolCallId == u.toolCallId && v.content == u.content && v.isError == u.isError
    requires forall j :: IsResult(bs, j) ==> HasPayload(u, bs[j].toolResult)
    ensures forall j :: IsResult(bs + [b], j) <==> IsResult(bs, j)
    ensures forall j :: IsResult(bs + [b], j) ==> HasPayload(v, (bs + [b])[j].toolResult)
    ensures HasPayload(u, None) <==> HasPayload(v, None)
  {
  }

  /** So does a call. */
  lemma HoldsCall(t: Turn, first: bool, bs: seq<Block>, u: ConversationTurn, b: Block)
    requires Holds(t, first, bs, u) && b.kind == KToolCall
    ensures Holds(t, first, bs + [b],
                  if b.toolCall.Some?
                  then u.(toolCalls := u.toolCalls + [ToolCallRequest(b.toolCall.value.id, b.toolCall.value.name, b.toolCall.value.paramsJson)])
                  else u)
  {
    hide HasPayload, ThoughtsIn, CallsIn, AttachedIn, IsResult, Opens;
    InSnoc(bs, b);
    AddsNothing(t, first, bs, b);
    assert u.thinking + [] == u.thinking;
    Unadded(u.toolCalls, u.contentBlocks);
    SamePayload(bs, u, b, if b.toolCall.Some?
                   then u.(toolCalls := u.toolCalls + [ToolCallRequest(b.toolCall.value.id, b.toolCall.value.name, b.toolCall.value.paramsJson)])
                   else u);
  }

  /** So do an image and a text that does not open the turn. */
  lemma HoldsAttachment(t: Turn, first: bool, bs: seq<Block>, u: ConversationTurn, b: Block)
    requires Holds(t, first, bs, u) && (b.kind == KImage || TextLike(b))
    requires !(first && t.role != Tool && TextLike(b) && OnlyThoughts(bs))
    ensures Holds(t, first, bs + [b],
                  u.(contentBlocks := u.contentBlocks + [if b.kind == KImage then ContentBlock("image", "", b.image) else ContentBlock("text", b.text, None)]))
  {
    hide HasPayload, ThoughtsIn, CallsIn, AttachedIn, IsResult, Opens;
    InSnoc(bs, b);
    AddsNothing(t, first, bs, b);
    assert u.thinking + [] == u.thinking;
    Unadded(u.toolCalls, u.contentBlocks);
    SamePayload(bs, u, b, u.(contentBlocks := u.contentBlocks + [if b.kind == KImage then ContentBlock("image", "", b.image) else ContentBlock("text", b.text, None)]));
  }

  /** The text that opens the turn becomes its content. */
  lemma HoldsOpener(t: Turn, bs: seq<Block>, u: ConversationTurn, b: Block)
    requires Holds(t, true, bs, u) && TextLike(b) && t.role != Tool && OnlyThoughts(bs)
    ensures Holds(t, true, bs + [b], u.(content := b.text))
  {
    OpensHere(t.role, bs, b);
    InSnoc(bs, b);
    ThoughtsAttachNothing(bs);
    hide ThoughtsIn, CallsIn, IsResult, Opens, AttachedIn;
    assert u.thinking + [] == u.thinking;
    Unadded(u.toolCalls, u.contentBlocks);
  }

  lemma OpensHere(role: Role, bs: seq<Block>, b: Block)
    requires TextLike(b) && role != Tool && OnlyThoughts(bs)
    ensures var all := bs + [b];
            && Opens(role, true, all, |bs|) && (forall j :: Opens(role, true, all, j) ==> j == |bs|) && (forall j :: !Opens(role, true, bs, j))
            && (forall j :: !IsResult(all, j)) && (forall j :: !IsResult(bs, j))
            && all[|bs|] == b && AttachedIn(all[|bs| + 1..]) == []
  {
    var all := bs + [b];
    OpensSnoc(role, true, bs, b, |bs|);
    forall j | Opens(role, true, all, j) ensures j == |bs| {
      OpensSnoc(role, true, bs, b, j);
    }
    assert all[|bs| + 1..] == [];
  }

  /** A tool turn takes its first result. */
  lemma HoldsFirstResult(t: Turn, bs: seq<Block>, u: ConversationTurn, b: Block)
    requires Holds(t, true, bs, u) && b.kind == KToolResult && t.role == Tool && !HasResult(bs)
    ensures var r := ResultOf(b); Holds(t, true, bs + [b], u.(toolCallId := r.callId, content := r.content, isError := r.isError))
  {
    var all := bs + [b];
    forall j ensures IsResult(all, j) <==> j == |bs| {
      ResultSnoc(bs, b, j);
    }
    InSnoc(bs, b);
    assert forall j :: !Opens(t.role, true, bs, j) && !Opens(t.role, true, all, j);
    hide ThoughtsIn, CallsIn, AttachedIn, IsResult, Opens;
    assert u.thinking + [] == u.thinking;
    Unadded(u.toolCalls, u.contentBlocks);
  }

  /** Any other result begins a turn of its own. */
  lemma HoldsNewResult(t: Turn, b: Block)
    requires b.kind == KToolResult
    ensures var r := ResultOf(b);
            Holds(t, false, [b], BlankTurn(Tool).(toolCallId := r.callId, content := r.content, isError := r.isError,
                                                  category := t.category, origin := t.origin, summary := t.summary,
                                                  timestampMs := t.timestampMs))
    ensures BehindResult([b])
  {
    assert [b][..0] == [];
    assert IsResult([b], 0) && forall j :: IsResult([b], j) ==> j == 0;
    assert forall j :: !Opens(t.role, false, [b], j);
    assert ThoughtsIn([b]) == [] && CallsIn([b]) == [] && AttachedIn([b]) == [];
  }

  // The whole turn.

  lemma JoinedOn(segs: seq<seq<Block>>, bs: seq<Block>)
    ensures Joined(segs + [bs]) == Joined(segs) + bs
    ensures segs != [] ==> Joined(segs[|segs| - 1 := segs[|segs| - 1] + bs]) == Joined(segs) + bs
  {
    assert (segs + [bs])[..|segs|] == segs;
    if segs != [] {
      var n := |segs| - 1;
      var longer := segs[n := segs[n] + bs];
      assert longer[..n] == segs[..n];
      Assoc(Joined(segs[..n]), segs[n], bs);
    }
  }

  /** The state of the conversion is what the blocks so far say it is. */
  ghost predicate Follows(t: Turn, bs: seq<Block>, segs: seq<seq<Block>>, s: Shim) {
    && FallsInto(t, bs, segs, s.emitted)
    && (s.promotable <==> OnlyThoughts(bs)) && (s.promotable ==> |segs| == 1)
    && (t.role == Tool ==> (s.firstHasResult <==> HasResult(segs[0])))
  }

  lemma LastGrows(t: Turn, bs: seq<Block>, segs: seq<seq<Block>>, ts: seq<ConversationTurn>, b: Block, u: ConversationTurn)
    requires FallsInto(t, bs, segs, ts) && Holds(t, |segs| == 1, segs[|segs| - 1] + [b], u)
    requires b.kind == KToolResult ==> |segs| == 1 && t.role == Tool && !HasResult(segs[0])
    ensures FallsInto(t, bs + [b], segs[|segs| - 1 := segs[|segs| - 1] + [b]], ts[|ts| - 1 := u])
    ensures HasResult(segs[|segs| - 1 := segs[|segs| - 1] + [b]][0]) <==> HasResult(segs[0]) || (|segs| == 1 && b.kind == KToolResult)
  {
    hide Holds, Joined, IsResult;
    var n := |segs| - 1;
    JoinedOn(segs, [b]);
    forall j ensures IsResult(segs[n] + [b], j) <==> IsResult(segs[n], j) || (j == |segs[n]| && b.kind == KToolResult) {
      ResultSnoc(segs[n], b, j);
    }
    NotNegative(segs[0]);
    if b.kind == KToolResult {
      assert IsResult(segs[n] + [b], |segs[n]|);
    }
  }

  lemma NotNegative(bs: seq<Block>)
    ensures forall j :: IsResult(bs, j) ==> 0 <= j < |bs|
  {
  }

  lemma StretchBegins(t: Turn, bs: seq<Block>, segs: seq<seq<Block>>, ts: seq<ConversationTurn>, b: Block, u: ConversationTurn)
    requires FallsInto(t, bs, segs, ts) && Holds(t, false, [b], u) && BehindResult([b])
    requires t.role == Tool ==> HasResult(segs[0])
    ensures FallsInto(t, bs + [b], segs + [[b]], ts + [u])
  {
    hide Holds, Joined, IsResult, HasResult, BehindResult, BeforeResults;
    JoinedOn(segs, [b]);
    var all, us := segs + [[b]], ts + [u];
    forall k | 0 <= k < |all| ensures Holds(t, k == 0, all[k], us[k]) && (k > 0 ==> BehindResult(all[k])) {
      if k == |segs| {
        assert all[k] == [b] && us[k] == u;
      }
    }
  }

  lemma ThoughtsSnoc(bs: seq<Block>, b: Block)
    ensures OnlyThoughts(bs + [b]) <==> OnlyThoughts(bs) && b.kind == KThinking
  {
    if OnlyThoughts(bs + [b]) {
      assert forall i :: 0 <= i < |bs| ==> (bs + [b])[i] == bs[i];
      assert (bs + [b])[|bs|] == b;
    }
  }

  /** While only thoughts came there is one stretch, which is all there is. */
  lemma OneStretch(segs: seq<seq<Block>>)
    requires |segs| == 1
    ensures Joined(segs) == segs[0]
  {
    assert segs[..0] == [];
  }

  lemma ResultFollows(t: Turn, bs: seq<Block>, segs: seq<seq<Block>>, s: Shim, b: Block) returns (next: seq<seq<Block>>)
    requires Follows(t, bs, segs, s) && b.kind == KToolResult
    ensures s.emitted != [] && Follows(t, bs + [b], next, ShimStep(t, s, b))
  {
    hide Holds, Joined, IsResult, HasResult, BehindResult, BeforeResults, OnlyThoughts;
    ThoughtsSnoc(bs, b);
    if t.role == Tool && !s.firstHasResult && |s.emitted| == 1 {
      var u := ShimStep(t, s, b).emitted[0];
      HoldsFirstResult(t, segs[0], s.emitted[0], b);
      LastGrows(t, bs, segs, s.emitted, b, u);
      next := segs[|segs| - 1 := segs[|segs| - 1] + [b]];
      assert s.emitted[0 := u] == [u];
    } else {
      HoldsNewResult(t, b);
      StretchBegins(t, bs, segs, s.emitted, b, ShimStep(t, s, b).emitted[|s.emitted|]);
      next := segs + [[b]];
    }
  }

  /** One block that is no result changes the last turn, as its stretch grows. */
  lemma LastTakes(t: Turn, bs: seq<Block>, s: Shim, b: Block)
    requires s.emitted != [] && b.kind != KToolResult && (s.promotable ==> |s.emitted| == 1)
    requires Holds(t, |s.emitted| == 1, bs, s.emitted[|s.emitted| - 1])
    requires |s.emitted| == 1 ==> (s.promotable <==> OnlyThoughts(bs))
    ensures var n, r := |s.emitted| - 1, ShimStep(t, s, b);
            && |r.emitted| == n + 1 && Holds(t, n == 0, bs + [b], r.emitted[n]) && r.emitted == s.emitted[n := r.emitted[n]]
            && r.firstHasResult == s.firstHasResult && r.promotable == (s.promotable && b.kind == KThinking)
  {
    hide Holds;
    var n := |s.emitted| - 1;
    if b.kind == KThinking {
      HoldsThought(t, n == 0, bs, s.emitted[n], b);
    } else if b.kind == KToolCall {
      HoldsCall(t, n == 0, bs, s.emitted[n], b);
    } else if TextLike(b) && t.role != Tool && s.promotable {
      HoldsOpener(t, bs, s.emitted[n], b);
    } else {
      HoldsAttachment(t, n == 0, bs, s.emitted[n], b);
    }
  }

  lemma OtherFollows(t: Turn, bs: seq<Block>, segs: seq<seq<Block>>, s: Shim, b: Block) returns (next: seq<seq<Block>>)
    requires Follows(t, bs, segs, s) && b.kind != KToolResult
    ensures s.emitted != [] && Follows(t, bs + [b], next, ShimStep(t, s, b))
  {
    hide Holds, Joined, IsResult, HasResult, BehindResult, BeforeResults, OnlyThoughts, ShimStep;
    var n := |segs| - 1;
    next := segs[n := segs[n] + [b]];
    ThoughtsSnoc(bs, b);
    StretchThoughts(bs, segs, s.promotable);
    LastTakes(t, segs[n], s, b);
    LastGrows(t, bs, segs, s.emitted, b, ShimStep(t, s, b).emitted[n]);
  }

  lemma StretchThoughts(bs: seq<Block>, segs: seq<seq<Block>>, promotable: bool)
    requires segs != [] && Joined(segs) == bs && (promotable <==> OnlyThoughts(bs))
    ensures |segs| == 1 ==> (promotable <==> OnlyThoughts(segs[|segs| - 1]))
  {
    if |segs| == 1 {
      OneStretch(segs);
    }
  }

  lemma {:induction false} PrefixFollows(t: Turn, bs: seq<Block>) returns (segs: seq<seq<Block>>)
    ensures Follows(t, bs, segs, ShimFold(t, ShimStart(t), bs))
    decreases |bs|
  {
    if bs == [] {
      segs := [[]];
      NothingFollows(t);
    } else {
      hide Follows, ShimStep;
      var n := |bs| - 1;
      var before := PrefixFollows(t, bs[..n]);
      assert bs == bs[..n] + [bs[n]];
      FoldConcat(t, ShimStart(t), bs[..n], [bs[n]]);
      var s := ShimFold(t, ShimStart(t), bs[..n]);
      assert ShimFold(t, s, [bs[n]]) == ShimStep(t, s, bs[n]);
      if bs[n].kind == KToolResult {
        segs := ResultFollows(t, bs[..n], before, s, bs[n]);
      } else {
        segs := OtherFollows(t, bs[..n], before, s, bs[n]);
      }
    }
  }

  lemma NothingFollows(t: Turn)
    ensures Follows(t, [], [[]], ShimStart(t))
  {
    OneStretch([[]]);
    assert forall j :: !IsResult([], j) && !Opens(t.role, true, [], j);
  }

  /** A neutral turn fans out into one turn per stretch of its blocks: each result but a tool turn's first begins
      a stretch, and every thought, call, text, image and result is in the turn of its stretch, in order. */
  lemma FansOut(t: Turn) returns (segs: seq<seq<Block>>)
    ensures FallsInto(t, t.blocks, segs, ShimTurns(t))
  {
    hide FallsInto;
    segs := PrefixFollows(t, t.blocks);
  }
}
