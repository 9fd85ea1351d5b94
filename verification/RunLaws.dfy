/** What a run does, in terms of what happened to it: which rounds it took, what it used, what each
    round left, and why it stopped. */
module RunLaws {
  import opened Basics
  import opened Sequences
  import opened Transcript
  import opened Compaction
  import opened RunLoop

  // Tokens.

  /** The tokens of the answers given in the rounds from one to another. */
  function TokensOf(env: nat -> Round, from: nat, until: nat): nat
    decreases until
  {
    if until <= from then 0
    else TokensOf(env, from, until - 1) + if env(until - 1).reply.Answer? then env(until - 1).reply.newTokens else 0
  }

  lemma {:induction false} TokensFromFirst(env: nat -> Round, from: nat, until: nat)
    requires from < until
    ensures TokensOf(env, from, until)
         == (if env(from).reply.Answer? then env(from).reply.newTokens else 0) + TokensOf(env, from + 1, until)
    decreases until
  {
    if from + 1 < until {
      TokensFromFirst(env, from, until - 1);
    }
  }

  lemma OneTurnUses(c: Config, s: State, r: Round)
    ensures OneTurn(c, s, r).0.tokensUsed == s.tokensUsed + if r.reply.Answer? then r.reply.newTokens else 0
    ensures OneTurn(c, s, r).0.iteration == s.iteration + 1
  {
    hide RunTools, Joined, SafeCut, SummaryTurn, AssistantTurn;
  }

  /** A run uses exactly the tokens of the answers it was given. */
  lemma {:induction false} RunUsesItsAnswers(c: Config, s: State, env: nat -> Round)
    ensures var t := Run(c, s, env);
            t.iteration >= s.iteration && t.tokensUsed == s.tokensUsed + TokensOf(env, s.iteration, t.iteration)
    decreases c.maxIterations - s.iteration
  {
    hide OneTurn;
    var r := env(s.iteration);
    if Halt(c, s, r).None? {
      HaltsAtCap(c, s, r);
      OneTurnUses(c, s, r);
      var (t, ends) := OneTurn(c, s, r);
      TokensFromFirst(env, s.iteration, t.iteration);
      if !ends {
        RunUsesItsAnswers(c, t, env);
        TokensFromFirst(env, s.iteration, Run(c, t, env).iteration);
      } else {
        TokensFromFirst(env, s.iteration, s.iteration + 1);
      }
    }
  }

  /** Every cap is kept: when a round is taken the run has not been cancelled, and neither its time, nor
      the tokens of the answers before, nor the rounds before, have reached their limit. */
  lemma {:induction false} NoRoundPastACap(c: Config, s: State, env: nat -> Round, k: nat)
    requires s.iteration <= k < Run(c, s, env).iteration
    ensures !env(k).cancelled && k < c.maxIterations
    ensures c.maxDuration > 0 ==> env(k).elapsed < c.maxDuration
    ensures c.maxTokens > 0 ==> s.tokensUsed + TokensOf(env, s.iteration, k) < c.maxTokens
    decreases c.maxIterations - s.iteration
  {
    hide OneTurn;
    var r := env(s.iteration);
    if Halt(c, s, r).None? {
      HaltsAtCap(c, s, r);
      OneTurnUses(c, s, r);
      var (t, ends) := OneTurn(c, s, r);
      if k > s.iteration {
        assert !ends;
        NoRoundPastACap(c, t, env, k);
        TokensFromFirst(env, s.iteration, k);
      }
    }
  }

  // Why a run stops.

  /** The limit that is due before a round, looked at in this order. */
  ghost predicate DueFor(c: Config, tokens: int, k: nat, r: Round, why: Option<Reason>) {
    why == if r.cancelled then Some(Cancelled)
           else if 0 < c.maxDuration <= r.elapsed then Some(MaxDuration)
           else if 0 < c.maxTokens <= tokens then Some(TokenBudget)
           else if c.maxIterations <= k then Some(MaxIterations)
           else None
  }

  // One round.

  /** The turns older than the cut give way to a summary; the cut is the first place from the last twelve
      turns on that is no tool's result. */
  ghost predicate CutAt(ts: seq<ConversationTurn>, cut: nat) {
    && 12 < |ts| && |ts| - 12 <= cut < |ts| && ts[cut].role != Tool && forall k :: |ts| - 12 <= k < cut ==> ts[k].role == Tool
  }

  ghost predicate Fills(c: Config, s: State) {
    0 < c.contextLimit && 0 < s.lastInputTokens && c.contextLimit * 3 / 4 <= s.lastInputTokens && 13 < |s.conversation|
  }

  ghost predicate StandsFor(head: ConversationTurn, r: Round, t: ConversationTurn) {
    t == ConversationTurn(User, SummaryContent(head, r.summary), [], [], "", false, "system", "compaction",
                          "compacted earlier conversation", r.now, [], "", "", [])
  }

  /** The conversation a round's request is made from. */
  ghost predicate MadeFrom(c: Config, s: State, r: Round, base: seq<ConversationTurn>) {
    if Fills(c, s) && (exists cut: nat :: CutAt(s.conversation, cut)) then
      exists cut: nat :: CutAt(s.conversation, cut) && |base| == 1 + |s.conversation| - cut
                    && base[1..] == s.conversation[cut..] && StandsFor(s.conversation[0], r, base[0])
    else base == s.conversation
  }

  function AllTexts(texts: seq<string>): string {
    if texts == [] then "" else texts[0] + AllTexts(texts[1..])
  }

  /** The assistant's turn for an answer: its texts joined, its calls, its thinking, and where it came from. */
  ghost predicate Speaks(c: Config, r: Round, calls: seq<ToolCallRequest>, t: ConversationTurn)
    requires r.reply.Answer?
  {
    && t.role == Assistant && t.content == AllTexts(r.reply.texts) && t.toolCalls == calls && t.thinking == r.reply.thinking
    && t.category == "ai" && t.providerName == c.provider && t.model == c.model && t.timestampMs == r.now
    && t.contentBlocks == [] && t.toolCallId == "" && !t.isError && t.origin == "" && t.summary == "" && t.subAgentCalls == []
  }

  /** The turn for one call's outcome. */
  ghost predicate Answers(call: ToolCallRequest, o: Outcome, now: int, t: ConversationTurn) {
    && t.role == Tool && t.toolCallId == call.id && t.content == o.content && t.isError == o.isError && t.category == o.category
    && t.origin == o.origin && t.summary == o.summary && t.subAgentCalls == o.subAgentCalls && t.timestampMs == now
    && t.contentBlocks == [] && t.toolCalls == [] && t.thinking == []
  }

  /** The calls run in order until one is interrupted; each that ran has its result. */
  ghost predicate Ran(calls: seq<ToolCallRequest>, r: Round, results: seq<ConversationTurn>, cancelled: bool) {
    && |results| <= |calls| && (forall j :: 0 <= j < |results| ==> Answers(calls[j], r.outcomes(j), r.now, results[j]))
    && (forall j :: 0 <= j < |results| - 1 ==> !r.outcomes(j).cancelled)
    && (cancelled <==> |results| > 0 && r.outcomes(|results| - 1).cancelled)
    && (!cancelled ==> |results| == |calls|)
  }

  /** The question left open: the last one asked, or the one there was. */
  ghost predicate LeftOpen(r: Round, n: nat, before: string, after: string) {
    || (after == before && forall j: nat :: j < n ==> r.outcomes(j).question == "")
    || (exists k: nat :: k < n && after == r.outcomes(k).question != "" && forall j: nat :: k < j < n ==> r.outcomes(j).question == "")
  }

  /** What a round adds to the conversation and how it leaves the run. */
  ghost predicate RoundLeaves(c: Config, s: State, r: Round, base: seq<ConversationTurn>, u: State) {
    if r.reply.Refused? then
      && u.conversation == base && u.question == s.question
      && u.errors == (if r.reply.cancelled then s.errors else s.errors + [r.reply.error])
    else
      && u.errors == s.errors
      && if r.reply.calls == [] then
           && u.question == s.question
           && if AllTexts(r.reply.texts) != "" && (r.reply.stop == EndTurn || r.reply.stop == MaxTokens)
              then |u.conversation| == |base| + 1 && u.conversation[..|base|] == base && Speaks(c, r, [], u.conversation[|base|])
              else u.conversation == base
         else
           && |u.conversation| > |base| && u.conversation[..|base|] == base
           && Speaks(c, r, r.reply.calls, u.conversation[|base|])
           && Ran(r.reply.calls, r, u.conversation[|base| + 1..], u.interrupted && u.reason == Some(Cancelled))
           && LeftOpen(r, |u.conversation| - |base| - 1, s.question, u.question)
  }

  /** Whether the run goes on after the round, or how it is over. */
  ghost predicate RoundEnds(c: Config, s: State, r: Round, base: seq<ConversationTurn>, u: State, ends: bool) {
    if r.reply.Refused? then
      if r.reply.cancelled then ends && u.interrupted && u.reason == Some(Cancelled) && u.phase == Paused
      else
        && !u.interrupted && (ends <==> r.reply.permanent || s.iteration + 1 >= c.maxIterations)
        && u.phase == if ends then Failed else Executing
    else if r.reply.calls == [] then
      !u.interrupted && (ends <==> r.reply.stop == EndTurn) && u.phase == if ends then Done else Executing
    else
      && (ends <==> u.interrupted) && u.phase == (if ends then Paused else Executing)
      && |u.conversation| - |base| >= 2
      && var cancelled := r.outcomes(|u.conversation| - |base| - 2).cancelled;
         (u.interrupted <==> cancelled || u.question != "") && (u.interrupted ==> u.reason == Some(if cancelled then Cancelled else AwaitingInfo))
  }

  /** One round: counted, its tokens and prompt size taken, its request made from the conversation. */
  ghost predicate RoundDone(c: Config, s: State, r: Round, u: State, ends: bool) {
    && u.iteration == s.iteration + 1 && u.tokensUsed == s.tokensUsed + (if r.reply.Answer? then r.reply.newTokens else 0)
    && exists base :: MadeFrom(c, s, r, base) && RoundLeaves(c, s, r, base, u) && RoundEnds(c, s, r, base, u, ends)
                      && PromptSize(s, r, base, u)
  }

  /** The size of the last prompt: what the answer reports, else nothing after a compaction. */
  ghost predicate PromptSize(s: State, r: Round, base: seq<ConversationTurn>, u: State) {
    u.lastInputTokens == if r.reply.Answer? && r.reply.inputTokens > 0 then r.reply.inputTokens
                         else if base != s.conversation then 0 else s.lastInputTokens
  }

  // The loop does that.

  lemma {:induction false} TextsAre(texts: seq<string>)
    ensures Joined(texts) == AllTexts(texts)
  {
    if texts != [] {
      var n := |texts| - 1;
      TextsAre(texts[..n]);
      TextsSnoc(texts[..n], texts[n]);
      assert texts == texts[..n] + [texts[n]];
    }
  }

  lemma {:induction false} TextsSnoc(texts: seq<string>, text: string)
    ensures AllTexts(texts + [text]) == AllTexts(texts) + text
  {
    if texts == [] {
      assert [] + [text] == [text] && [text][1..] == [];
    } else {
      assert (texts + [text])[1..] == texts[1..] + [text];
      TextsSnoc(texts[1..], text);
      Assoc(texts[0], AllTexts(texts[1..]), text);
    }
  }

  lemma SafeCutIs(ts: seq<ConversationTurn>)
    ensures if exists cut: nat :: CutAt(ts, cut) then CutAt(ts, SafeCut(ts)) else SafeCut(ts) == 0
  {
  }

  lemma CompactedDoes(c: Config, s: State, r: Round)
    ensures MadeFrom(c, s, r, Compacted(c, s, r).conversation)
    ensures var u := Compacted(c, s, r);
            u == s.(conversation := u.conversation, lastInputTokens := if u.conversation != s.conversation then 0 else s.lastInputTokens)
  {
    hide SafeCut, SummaryContent;
    SafeCutIs(s.conversation);
    var u := Compacted(c, s, r);
    if Fills(c, s) && exists cut: nat :: CutAt(s.conversation, cut) {
      var cut := SafeCut(s.conversation);
      assert u.conversation[1..] == s.conversation[cut..];
      assert StandsFor(s.conversation[0], r, u.conversation[0]);
      assert |u.conversation| < |s.conversation|;
    }
  }

  lemma {:induction false} ToolsDo(r: Round, calls: seq<ToolCallRequest>, n: nat, question: string)
    requires n <= |calls|
    ensures var t := RunTools(calls, n, r.outcomes, r.now, question);
            && Ran(calls[..n], r, t.results, t.cancelled) && LeftOpen(r, |t.results|, question, t.question)
  {
    hide Ran, LeftOpen;
    if n == 0 {
      NoneRan(r, question);
      assert calls[..0] == [];
    } else {
      ToolsDo(r, calls, n - 1, question);
      var before := RunTools(calls, n - 1, r.outcomes, r.now, question);
      assert calls[..n] == calls[..n - 1] + [calls[n - 1]];
      if before.cancelled {
        RanShort(r, calls[..n - 1], calls[n - 1], before.results);
      } else {
        RanLength(r, calls[..n - 1], before.results);
        RanSnoc(r, calls[..n - 1], calls[n - 1], before.results, ResultTurn(calls[n - 1], r.outcomes(n - 1), r.now));
        OpenSnoc(r, n - 1, question, before.question);
      }
    }
  }

  lemma NoneRan(r: Round, question: string)
    ensures Ran([], r, [], false) && LeftOpen(r, 0, question, question)
  {
  }

  lemma RanShort(r: Round, calls: seq<ToolCallRequest>, call: ToolCallRequest, results: seq<ConversationTurn>)
    requires Ran(calls, r, results, true)
    ensures Ran(calls + [call], r, results, true)
  {
    hide Answers;
    assert forall j :: 0 <= j < |calls| ==> (calls + [call])[j] == calls[j];
  }

  lemma RanLength(r: Round, calls: seq<ToolCallRequest>, results: seq<ConversationTurn>)
    requires Ran(calls, r, results, false)
    ensures |results| == |calls|
  {
  }

  lemma RanSnoc(r: Round, calls: seq<ToolCallRequest>, call: ToolCallRequest, results: seq<ConversationTurn>, result: ConversationTurn)
    requires Ran(calls, r, results, false) && result == ResultTurn(call, r.outcomes(|calls|), r.now)
    ensures Ran(calls + [call], r, results + [result], r.outcomes(|calls|).cancelled)
  {
    assert Answers(call, r.outcomes(|calls|), r.now, result);
    hide Answers, ResultTurn;
    var all, more := calls + [call], results + [result];
    forall j | 0 <= j < |more| ensures Answers(all[j], r.outcomes(j), r.now, more[j]) {
      if j < |calls| {
        assert all[j] == calls[j] && more[j] == results[j];
      }
    }
    forall j | 0 <= j < |more| - 1 ensures !r.outcomes(j).cancelled {
    }
  }

  lemma OpenSnoc(r: Round, n: nat, before: string, after: string)
    requires LeftOpen(r, n, before, after)
    ensures LeftOpen(r, n + 1, before, if r.outcomes(n).question != "" then r.outcomes(n).question else after)
  {
    if r.outcomes(n).question == "" {
      OpenStays(r, n, before, after);
    }
  }

  lemma OpenStays(r: Round, n: nat, before: string, after: string)
    requires LeftOpen(r, n, before, after) && r.outcomes(n).question == ""
    ensures LeftOpen(r, n + 1, before, after)
  {
    if !(after == before && forall j: nat :: j < n ==> r.outcomes(j).question == "") {
      var k: nat :| k < n && after == r.outcomes(k).question != "" && forall j: nat :: k < j < n ==> r.outcomes(j).question == "";
      assert k < n + 1 && forall j: nat :: k < j < n + 1 ==> r.outcomes(j).question == "";
    }
  }

  lemma SpokenIs(c: Config, r: Round)
    requires r.reply.Answer?
    ensures Speaks(c, r, [], AssistantTurn(c, r)) && Speaks(c, r, r.reply.calls, AssistantTurn(c, r).(toolCalls := r.reply.calls))
  {
    TextsAre(r.reply.texts);
  }

  lemma CalledDoes(c: Config, s: State, r: Round, base: State)
    requires r.reply.Answer? && r.reply.calls != [] && !base.interrupted && base.phase == Executing
    requires base.question == s.question && base.errors == s.errors && base.iteration == s.iteration + 1
    ensures var (u, ends) := Replied(c, base, r);
            RoundLeaves(c, s, r, base.conversation, u) && RoundEnds(c, s, r, base.conversation, u, ends)
            && u.iteration == base.iteration && u.tokensUsed == base.tokensUsed && u.lastInputTokens == base.lastInputTokens
  {
    hide AssistantTurn, Answers, Joined, AllTexts, RunTools, Speaks, LeftOpen, Ran;
    var calls := r.reply.calls;
    SpokenIs(c, r);
    ToolsDo(r, calls, |calls|, base.question);
    TakeAll(calls);
    var t := RunTools(calls, |calls|, r.outcomes, r.now, base.question);
    SomeRan(calls, r, t.results, t.cancelled);
    var caller := AssistantTurn(c, r).(toolCalls := calls);
    var all := base.conversation + ([caller] + t.results);
    assert all[..|base.conversation|] == base.conversation && all[|base.conversation|] == caller;
    assert all[|base.conversation| + 1..] == t.results;
  }

  lemma SomeRan(calls: seq<ToolCallRequest>, r: Round, results: seq<ConversationTurn>, cancelled: bool)
    requires Ran(calls, r, results, cancelled) && calls != []
    ensures results != [] && (cancelled <==> r.outcomes(|results| - 1).cancelled)
  {
  }

  lemma SilentDoes(c: Config, s: State, r: Round, base: State)
    requires r.reply.Answer? && r.reply.calls == [] && !base.interrupted && base.phase == Executing
    requires base.question == s.question && base.errors == s.errors && base.iteration == s.iteration + 1
    ensures var (u, ends) := Replied(c, base, r);
            RoundLeaves(c, s, r, base.conversation, u) && RoundEnds(c, s, r, base.conversation, u, ends)
            && u.iteration == base.iteration && u.tokensUsed == base.tokensUsed && u.lastInputTokens == base.lastInputTokens
  {
    hide AssistantTurn, Joined, AllTexts, RunTools, Speaks;
    TextsAre(r.reply.texts);
    SpokenIs(c, r);
    var all := base.conversation + [AssistantTurn(c, r)];
    assert all[..|base.conversation|] == base.conversation;
  }

  lemma OneTurnDoes(c: Config, s: State, r: Round)
    requires !s.interrupted
    ensures var (u, ends) := OneTurn(c, s, r); RoundDone(c, s, r, u, ends)
  {
    hide *;
    BegunDoes(c, s, r);
    TurnByReply(c, s, r);
    var base := Begun(c, s, r);
    var (u, ends) := OneTurn(c, s, r);
    if r.reply.Refused? {
      RefusedDoes(c, s, r, base);
    } else {
      AccountedDoes(base, r.reply);
      if r.reply.calls == [] {
        SilentDoes(c, s, r, Accounted(base, r.reply));
      } else {
        CalledDoes(c, s, r, Accounted(base, r.reply));
      }
    }
    RoundFrom(c, s, r, base.conversation, u, ends);
  }

  lemma BegunDoes(c: Config, s: State, r: Round)
    ensures var u := Begun(c, s, r);
            && MadeFrom(c, s, r, u.conversation) && u.iteration == s.iteration + 1 && u.tokensUsed == s.tokensUsed
            && u.lastInputTokens == (if u.conversation != s.conversation then 0 else s.lastInputTokens)
            && u.errors == s.errors && u.interrupted == s.interrupted && u.phase == Executing && u.question == s.question
  {
    hide Compacted, MadeFrom;
    var t := s.(iteration := s.iteration + 1);
    CompactedDoes(c, t, r);
    SameStart(c, s, t, r, Compacted(c, t, r).conversation);
  }

  lemma SameStart(c: Config, s: State, t: State, r: Round, base: seq<ConversationTurn>)
    requires MadeFrom(c, t, r, base) && t.conversation == s.conversation && t.lastInputTokens == s.lastInputTokens
    ensures MadeFrom(c, s, r, base)
  {
  }

  lemma AccountedDoes(s: State, reply: Reply)
    requires reply.Answer?
    ensures Accounted(s, reply) == s.(tokensUsed := s.tokensUsed + reply.newTokens,
                                      lastInputTokens := if reply.inputTokens > 0 then reply.inputTokens else s.lastInputTokens)
  {
  }

  lemma RefusedDoes(c: Config, s: State, r: Round, base: State)
    requires r.reply.Refused? && !base.interrupted && base.phase == Executing
    requires base.question == s.question && base.errors == s.errors && base.iteration == s.iteration + 1
    ensures var (u, ends) := Errored(c, base, r.reply);
            RoundLeaves(c, s, r, base.conversation, u) && RoundEnds(c, s, r, base.conversation, u, ends)
            && u.iteration == base.iteration && u.tokensUsed == base.tokensUsed && u.lastInputTokens == base.lastInputTokens
  {
  }

  lemma RoundFrom(c: Config, s: State, r: Round, base: seq<ConversationTurn>, u: State, ends: bool)
    requires MadeFrom(c, s, r, base) && RoundLeaves(c, s, r, base, u) && RoundEnds(c, s, r, base, u, ends)
    requires u.iteration == s.iteration + 1 && u.tokensUsed == s.tokensUsed + if r.reply.Answer? then r.reply.newTokens else 0
    requires u.lastInputTokens == if r.reply.Answer? && r.reply.inputTokens > 0 then r.reply.inputTokens
                                  else if base != s.conversation then 0 else s.lastInputTokens
    ensures RoundDone(c, s, r, u, ends)
  {
    hide MadeFrom, RoundLeaves, RoundEnds;
  }

  /** A run takes the rounds that come, each as it does, until a limit is due before one or a round ends it. */
  lemma RunIsRounds(c: Config, s: State, env: nat -> Round)
    requires !s.interrupted
    ensures var r := env(s.iteration);
            || (exists why :: DueFor(c, s.tokensUsed, s.iteration, r, Some(why))
                              && Run(c, s, env) == s.(interrupted := true, reason := Some(why), phase := Paused))
            || (DueFor(c, s.tokensUsed, s.iteration, r, None)
                && exists u, ends :: RoundDone(c, s, r, u, ends) && Run(c, s, env) == if ends then u else Run(c, u, env))
  {
    hide OneTurn, RoundDone;
    var r := env(s.iteration);
    var halt := Halt(c, s, r);
    assert DueFor(c, s.tokensUsed, s.iteration, r, halt);
    if halt.None? {
      OneTurnDoes(c, s, r);
      var (u, ends) := OneTurn(c, s, r);
      assert RoundDone(c, s, r, u, ends);
    }
  }
}
