/** The orchestrator's loop: model calls, tool rounds, caps, pauses and compaction, and the
    transcript it hands back however it stops. */
module RunLoop {
  import opened Basics
  import opened Sequences
  import opened Transcript
  import opened ToolPairing
  import opened SessionWindow
  import opened Compaction
  import opened Replacing

  datatype Phase = Executing | Done | Failed | Paused

  datatype StopReason = EndTurn | ToolUse | MaxTokens | OtherStop(name: string)

  /** Why a run paused. */
  datatype Reason = Cancelled | MaxDuration | TokenBudget | MaxIterations | AwaitingInfo

  const KEEP_RECENT := 12
  const CATEGORY_AI := "ai"

  /** The model's answer to one request, or the error it ended in. */
  datatype Reply =
    | Refused(error: string, permanent: bool, cancelled: bool)
    | Answer(texts: seq<string>, calls: seq<ToolCallRequest>, stop: StopReason, inputTokens: int, newTokens: nat,
             thinking: seq<Thinking>)

  /** What one tool call comes to: the result turn's content, whether the user was asked something,
      and whether the run was cancelled meanwhile. */
  datatype Outcome = Outcome(content: string, isError: bool, category: string, origin: string, summary: string,
                             subAgentCalls: seq<string>, question: string, cancelled: bool)

  /** Everything one turn of the loop takes from outside. */
  datatype Round = Round(elapsed: int, now: int, cancelled: bool, summary: string, reply: Reply, outcomes: nat -> Outcome)

  datatype Config = Config(maxIterations: int, maxDuration: int, maxTokens: int, contextLimit: int, provider: string, model: string)

  datatype State = State(conversation: seq<ConversationTurn>, iteration: nat, tokensUsed: int, lastInputTokens: int,
                         errors: seq<string>, interrupted: bool, reason: Option<Reason>, phase: Phase, question: string)

  // The loop as a function of what happens to it.

  /** The stop that is due before a turn; the caps are looked at in this order. */
  function Halt(c: Config, s: State, r: Round): Option<Reason> {
    if r.cancelled then Some(Cancelled)
    else if c.maxDuration > 0 && r.elapsed >= c.maxDuration then Some(MaxDuration)
    else if c.maxTokens > 0 && s.tokensUsed >= c.maxTokens then Some(TokenBudget)
    else if s.iteration >= c.maxIterations then Some(MaxIterations)
    else None
  }

  /** The first reason to pause is the one that is kept. */
  function Pause(s: State, reason: Reason): State {
    if s.interrupted then s else s.(interrupted := true, reason := Some(reason), phase := Paused)
  }

  function SkipTools(ts: seq<ConversationTurn>, cut: nat): (r: nat)
    requires cut <= |ts|
    ensures cut <= r <= |ts| && (r < |ts| ==> ts[r].role != Tool)
    ensures forall k :: cut <= k < r ==> ts[k].role == Tool
    decreases |ts| - cut
  {
    if cut < |ts| && ts[cut].role == Tool then SkipTools(ts, cut + 1) else cut
  }

  /** The cut that leaves recent turns and tears no tool round; 0 when there is none. */
  function SafeCut(ts: seq<ConversationTurn>): (cut: nat)
    ensures cut < |ts| || cut == 0
    ensures cut > 0 ==> ts[cut].role != Tool
  {
    if |ts| <= KEEP_RECENT then 0
    else
      var cut := SkipTools(ts, |ts| - KEEP_RECENT);
      if cut >= |ts| then 0 else cut
  }

  function SummaryTurn(head: ConversationTurn, summary: string, now: int): ConversationTurn {
    BlankTurn(User).(content := SummaryContent(head, summary), category := CATEGORY_SYSTEM, origin := COMPACTION,
                     summary := "compacted earlier conversation", timestampMs := now)
  }

  /** Older turns give way to one summary turn when the last prompt filled three quarters of the window. */
  function Compacted(c: Config, s: State, r: Round): State {
    if c.contextLimit <= 0 || s.lastInputTokens <= 0 || s.lastInputTokens < c.contextLimit * 3 / 4
       || |s.conversation| <= KEEP_RECENT + 1 || SafeCut(s.conversation) == 0 then s
    else s.(conversation := [SummaryTurn(s.conversation[0], r.summary, r.now)] + s.conversation[SafeCut(s.conversation)..], lastInputTokens := 0)
  }

  function Joined(texts: seq<string>): string {
    if texts == [] then "" else Joined(texts[..|texts| - 1]) + texts[|texts| - 1]
  }

  function AssistantTurn(c: Config, r: Round): ConversationTurn
    requires r.reply.Answer?
  {
    BlankTurn(Assistant).(content := Joined(r.reply.texts), category := CATEGORY_AI, timestampMs := r.now,
                          thinking := r.reply.thinking, providerName := c.provider, model := c.model)
  }

  function ResultTurn(call: ToolCallRequest, o: Outcome, now: int): ConversationTurn {
    BlankTurn(Tool).(content := o.content, toolCallId := call.id, isError := o.isError, category := o.category,
                     origin := o.origin, summary := o.summary, timestampMs := now, subAgentCalls := o.subAgentCalls)
  }

  /** How a tool round ends: the results so far, the open question, and whether it was cut short. */
  datatype ToolRound = ToolRound(results: seq<ConversationTurn>, question: string, cancelled: bool)

  /** The first n calls run in order, each unless an earlier one was interrupted. */
  function RunTools(calls: seq<ToolCallRequest>, n: nat, outcomes: nat -> Outcome, now: int, question: string): (t: ToolRound)
    requires n <= |calls|
    ensures AllTools(t.results) && |t.results| <= n
  {
    if n == 0 then ToolRound([], question, false)
    else
      var before := RunTools(calls, n - 1, outcomes, now, question);
      if before.cancelled then before
      else
        var o := outcomes(n - 1);
        var results := before.results + [ResultTurn(calls[n - 1], o, now)];
        AllToolsConcat(before.results, [ResultTurn(calls[n - 1], o, now)]);
        ToolRound(results, if o.question != "" then o.question else before.question, o.cancelled)
  }

  /** One turn of the loop past the caps, and whether the run ends with it. */
  function OneTurn(c: Config, s: State, r: Round): (out: (State, bool))
    ensures out.0.iteration == s.iteration + 1
  {
    var t := Begun(c, s, r);
    if r.reply.Refused? then Errored(c, t, r.reply) else Replied(c, Accounted(t, r.reply), r)
  }

  function Begun(c: Config, s: State, r: Round): (t: State)
    ensures t.iteration == s.iteration + 1
  {
    Compacted(c, s.(iteration := s.iteration + 1), r).(phase := Executing)
  }

  /** A cancelled request pauses the run; an error that cannot pass ends it, another is tried again. */
  function Errored(c: Config, s: State, reply: Reply): (out: (State, bool))
    requires reply.Refused?
    ensures out.0.iteration == s.iteration
  {
    if reply.cancelled then (Pause(s, Cancelled), true)
    else
      var t := s.(errors := s.errors + [reply.error]);
      if reply.permanent || t.iteration >= c.maxIterations then (t.(phase := Failed), true) else (t, false)
  }

  function Accounted(s: State, reply: Reply): State
    requires reply.Answer?
  {
    s.(lastInputTokens := if reply.inputTokens > 0 then reply.inputTokens else s.lastInputTokens,
       tokensUsed := s.tokensUsed + reply.newTokens)
  }

  function Replied(c: Config, s: State, r: Round): (out: (State, bool))
    requires r.reply.Answer?
    ensures out.0.iteration == s.iteration
  {
    var spoken := if Joined(r.reply.texts) != "" then s.(conversation := s.conversation + [AssistantTurn(c, r)]) else s;
    if r.reply.calls == [] && r.reply.stop == EndTurn then (spoken.(phase := Done), true)
    else if r.reply.calls != [] then
      var caller := AssistantTurn(c, r).(toolCalls := r.reply.calls);
      var round := RunTools(r.reply.calls, |r.reply.calls|, r.outcomes, r.now, s.question);
      var u := s.(conversation := s.conversation + ([caller] + round.results), question := round.question);
      if round.cancelled then (Pause(u, Cancelled), true)
      else if u.question != "" then (Pause(u, AwaitingInfo), true)
      else (u, false)
    else if r.reply.stop == MaxTokens then (spoken, false)
    else (s, false)
  }

  /** A whole run; the iteration cap bounds it. */
  function Run(c: Config, s: State, env: nat -> Round): State
    decreases c.maxIterations - s.iteration
  {
    var halt := Halt(c, s, env(s.iteration));
    if halt.Some? then Pause(s, halt.value)
    else
      var (t, ends) := OneTurn(c, s, env(s.iteration));
      if ends then t else Run(c, t, env)
  }

  /** An interrupted run closes the calls it left open. */
  function Finished(s: State, how: Closing): State {
    if s.interrupted then s.(conversation := Closed(s.conversation, how)) else s
  }

  // The transcript.

  /** Paired, and such that closing it keeps it so. */
  ghost predicate Resumable(ts: seq<ConversationTurn>) {
    Paired(ts) && !Troubled(ts)
  }

  lemma {:induction false} LastCallerOfSuffix(a: seq<ConversationTurn>, b: seq<ConversationTurn>)
    ensures LastCaller(b) >= 0 ==> LastCaller(a + b) == |a| + LastCaller(b)
    decreases |b|
  {
    if b != [] {
      var t := b[|b| - 1];
      assert (a + b)[|a + b| - 1] == t;
      assert (a + b)[..|a + b| - 1] == a + b[..|b| - 1];
      LastCallerOfSuffix(a, b[..|b| - 1]);
    }
  }

  /** Dropping turns from the front makes no trouble. */
  lemma SuffixNotTroubled(a: seq<ConversationTurn>, b: seq<ConversationTurn>)
    requires !Troubled(a + b)
    ensures !Troubled(b)
  {
    hide *;
    LastCallerOfSuffix(a, b);
    if LastCaller(b) >= 0 {
      SameTrouble(a, b);
    } else {
      NoCallerNoTrouble(b);
    }
  }

  lemma SameTrouble(a: seq<ConversationTurn>, b: seq<ConversationTurn>)
    requires LastCaller(b) >= 0 && LastCaller(a + b) == |a| + LastCaller(b)
    ensures Troubled(a + b) <==> Troubled(b)
  {
    hide *;
    var i := LastCaller(b);
    TroubledMeans(b);
    TroubledMeans(a + b);
    ConcatParts(a, b);
    DropDrop(a + b, |a|, i + 1);
    DropDrop(a + b, |a|, i);
  }

  lemma {:induction false} LastCallerBehindUser(user: ConversationTurn, b: seq<ConversationTurn>)
    requires user.role == User
    ensures LastCaller([user] + b) == if LastCaller(b) >= 0 then 1 + LastCaller(b) else -1
    decreases |b|
  {
    if b != [] {
      assert ([user] + b)[..|b|] == [user] + b[..|b| - 1];
      LastCallerBehindUser(user, b[..|b| - 1]);
    } else {
      assert [user] + b == [user];
    }
  }

  lemma CompactedIsResumable(c: Config, s: State, r: Round)
    requires Resumable(s.conversation)
    ensures Resumable(Compacted(c, s, r).conversation)
  {
    var ts := s.conversation;
    var cut := SafeCut(ts);
    if Compacted(c, s, r) != s {
      hide Paired, Troubled, SafeCut;
      var user, kept := SummaryTurn(ts[0], r.summary, r.now), ts[cut..];
      PairedParts(ts, cut);
      UserFirst(user, kept);
      TakeDrop(ts, cut);
      SuffixNotTroubled(ts[..cut], kept);
    }
  }

  lemma UserFirst(user: ConversationTurn, ts: seq<ConversationTurn>)
    requires user.role == User && Paired(ts)
    ensures Paired([user] + ts)
    ensures !Troubled(ts) ==> !Troubled([user] + ts)
  {
    UserPaired(user, ts);
    hide *;
    LastCallerBehindUser(user, ts);
    if LastCaller(ts) >= 0 {
      SameTrouble([user], ts);
    } else {
      NoCallerNoTrouble([user] + ts);
    }
  }

  lemma UserPaired(user: ConversationTurn, ts: seq<ConversationTurn>)
    requires user.role == User && Paired(ts)
    ensures Paired([user] + ts)
  {
    ConsParts(user, ts);
  }

  lemma NoCallerNoTrouble(ts: seq<ConversationTurn>)
    requires LastCaller(ts) < 0
    ensures !Troubled(ts)
  {
    hide LastCaller, CallIds, AllTools;
  }

  lemma SpokenIsResumable(ts: seq<ConversationTurn>, t: ConversationTurn)
    requires Resumable(ts) && t.role == Assistant && t.toolCalls == []
    ensures Resumable(ts + [t])
  {
    hide Paired, Troubled;
    PairedSnoc(ts, t);
    EndsSpoken(ts, t);
    NoCallerNoTrouble(ts + [t]);
  }

  lemma PairedSnoc(ts: seq<ConversationTurn>, t: ConversationTurn)
    requires Paired(ts) && t.role != Tool && !IsCaller(t)
    ensures Paired(ts + [t])
  {
    assert [t][1..] == [];
    assert Paired([t]);
    hide Paired;
    PairedConcat(ts, [t]);
  }

  lemma EndsSpoken(ts: seq<ConversationTurn>, t: ConversationTurn)
    requires !IsCaller(t) && (t.role == Assistant || t.role == User)
    ensures LastCaller(ts + [t]) == -1
  {
  }

  /** A finished round answers every call with a result of its own. */
  lemma {:induction false} RoundAnswers(calls: seq<ToolCallRequest>, n: nat, outcomes: nat -> Outcome, now: int, question: string)
    requires n <= |calls| && !RunTools(calls, n, outcomes, now, question).cancelled
    ensures var t := RunTools(calls, n, outcomes, now, question);
            |t.results| == n && forall k :: 0 <= k < n ==> t.results[k].toolCallId == calls[k].id
  {
    if n > 0 {
      RoundAnswers(calls, n - 1, outcomes, now, question);
    }
  }

  lemma ResultsCover(calls: seq<ToolCallRequest>, results: seq<ConversationTurn>)
    requires |results| == |calls| && forall k :: 0 <= k < |calls| ==> results[k].toolCallId == calls[k].id
    ensures CallIds(calls) <= ResultIds(results)
  {
    forall id | id in CallIds(calls) ensures id in ResultIds(results) {
      var k :| 0 <= k < |calls| && calls[k].id == id;
      assert results[k] in results;
    }
  }

  lemma WholeRoundIsResumable(ts: seq<ConversationTurn>, caller: ConversationTurn, results: seq<ConversationTurn>)
    requires Resumable(ts) && IsCaller(caller) && AllTools(results) && CallIds(caller.toolCalls) <= ResultIds(results)
    ensures Resumable(ts + ([caller] + results))
  {
    hide Paired, CallIds, ResultIds;
    PairedGroup(caller, results);
    PairedConcat(ts, [caller] + results);
    RoundNotTroubled(ts, caller, results);
  }

  lemma RoundNotTroubled(ts: seq<ConversationTurn>, caller: ConversationTurn, results: seq<ConversationTurn>)
    requires IsCaller(caller) && AllTools(results)
    ensures !Troubled(ts + ([caller] + results))
  {
    ToolsAreNeither(results);
    LastCallerIs(ts, caller, results);
    assert (ts + ([caller] + results))[|ts| + 1..] == results;
  }

  /** What the loop may hold when it stops: resumable, or a tool round interrupted within. */
  ghost predicate Stoppable(ts: seq<ConversationTurn>) {
    Resumable(ts) || exists base, caller, results {:trigger base + ([caller] + results)} ::
      Paired(base) && IsCaller(caller) && AllTools(results) && ts == base + ([caller] + results)
  }

  lemma StoppableCloses(ts: seq<ConversationTurn>, how: Closing)
    requires Stoppable(ts)
    ensures Resumable(Closed(ts, how))
  {
    CloseMakesNoTrouble(ts, how);
    if Resumable(ts) {
      CloseKeepsPairedIff(ts, how);
    } else {
      var base, caller, results :| Paired(base) && IsCaller(caller) && AllTools(results) && ts == base + ([caller] + results);
      ClosesRound(base, caller, results, how);
      RoundNotTroubled(base, caller, results);
    }
  }

  lemma {:induction false} LastCallerPastTools(ts: seq<ConversationTurn>, run: seq<ConversationTurn>)
    requires AllTools(run)
    ensures LastCaller(ts + run) == LastCaller(ts)
    decreases |run|
  {
    if run == [] {
      assert ts + run == ts;
    } else {
      assert (ts + run)[..|ts + run| - 1] == ts + run[..|run| - 1];
      LastCallerPastTools(ts, run[..|run| - 1]);
    }
  }

  lemma CloseMakesNoTrouble(ts: seq<ConversationTurn>, how: Closing)
    ensures Troubled(Closed(ts, how)) <==> Troubled(ts)
  {
    hide LastCaller, CallIds, AllTools, Invented, Answered, Troubled;
    var i := LastCaller(ts);
    if i >= 0 {
      var answered := Answered(ts[i + 1..]);
      InventedAnswers(ts[i].toolCalls, answered, how);
      ResultsMakeNoTrouble(ts, Invented(ts[i].toolCalls, answered, how));
    }
  }

  lemma ResultsMakeNoTrouble(ts: seq<ConversationTurn>, run: seq<ConversationTurn>)
    requires AllTools(run) && LastCaller(ts) >= 0
    ensures Troubled(ts + run) <==> Troubled(ts)
  {
    hide *;
    var i := LastCaller(ts);
    TroubledMeans(ts);
    TroubledMeans(ts + run);
    LastCallerPastTools(ts, run);
    DropConcat(ts, run, i + 1);
    DropConcat(ts, run, i);
    ToolsBehind(ts[i + 1..], run);
  }

  lemma TroubledMeans(ts: seq<ConversationTurn>)
    ensures LastCaller(ts) >= 0 ==>
              (Troubled(ts) <==> "" in CallIds(ts[LastCaller(ts)].toolCalls) && !AllTools(ts[LastCaller(ts) + 1..]))
    ensures LastCaller(ts) < |ts|
  {
    hide LastCaller, CallIds, AllTools;
  }

  lemma ToolsBehind(a: seq<ConversationTurn>, b: seq<ConversationTurn>)
    requires AllTools(b)
    ensures AllTools(a + b) <==> AllTools(a)
  {
    assert forall k :: 0 <= k < |a| ==> (a + b)[k] == a[k];
  }

  lemma ResumableCloses(ts: seq<ConversationTurn>, how: Closing)
    requires Resumable(ts)
    ensures Resumable(Closed(ts, how))
  {
    ResumableIsStoppable(ts);
    StoppableCloses(ts, how);
  }

  /** A turn of the loop goes on, or ends uninterrupted, with a resumable transcript; an interrupted one can be closed. */
  ghost predicate Sound(s: State, ends: bool) {
    Stoppable(s.conversation) && (!ends || !s.interrupted ==> Resumable(s.conversation))
  }

  lemma RepliedIsSound(c: Config, s: State, r: Round)
    requires r.reply.Answer? && Resumable(s.conversation) && !s.interrupted
    ensures var (t, ends) := Replied(c, s, r); Sound(t, ends) && (!ends ==> !t.interrupted)
  {
    hide Resumable, AllTools, Stoppable;
    var ts := s.conversation;
    ResumableIsStoppable(ts);
    if r.reply.calls == [] {
      if Joined(r.reply.texts) != "" {
        SpokenIsResumable(ts, AssistantTurn(c, r));
        ResumableIsStoppable(ts + [AssistantTurn(c, r)]);
      }
    } else {
      var caller := AssistantTurn(c, r).(toolCalls := r.reply.calls);
      var round := RunTools(r.reply.calls, |r.reply.calls|, r.outcomes, r.now, s.question);
      RoundIsStoppable(ts, caller, round.results);
      if !round.cancelled {
        RoundAnswers(r.reply.calls, |r.reply.calls|, r.outcomes, r.now, s.question);
        ResultsCover(r.reply.calls, round.results);
        WholeRoundIsResumable(ts, caller, round.results);
      }
    }
  }

  lemma RoundIsStoppable(ts: seq<ConversationTurn>, caller: ConversationTurn, results: seq<ConversationTurn>)
    requires Resumable(ts) && IsCaller(caller) && AllTools(results)
    ensures Stoppable(ts + ([caller] + results))
  {
  }

  lemma TurnIsSound(c: Config, s: State, r: Round)
    requires Resumable(s.conversation) && !s.interrupted
    ensures var (t, ends) := OneTurn(c, s, r); Sound(t, ends) && (!ends ==> !t.interrupted)
  {
    hide *;
    BegunIsResumable(c, s, r);
    TurnByReply(c, s, r);
    var t := Begun(c, s, r);
    if r.reply.Answer? {
      AccountedSays(t, r.reply);
      RepliedIsSound(c, Accounted(t, r.reply), r);
    } else {
      ErroredIsSound(c, t, r.reply);
    }
  }

  lemma TurnByReply(c: Config, s: State, r: Round)
    ensures OneTurn(c, s, r) == if r.reply.Refused? then Errored(c, Begun(c, s, r), r.reply)
                                else Replied(c, Accounted(Begun(c, s, r), r.reply), r)
  {
  }

  lemma AccountedSays(s: State, reply: Reply)
    requires reply.Answer?
    ensures Accounted(s, reply).conversation == s.conversation && Accounted(s, reply).interrupted == s.interrupted
  {
  }

  lemma BegunIsResumable(c: Config, s: State, r: Round)
    requires Resumable(s.conversation)
    ensures Resumable(Begun(c, s, r).conversation) && Begun(c, s, r).interrupted == s.interrupted
  {
    hide Resumable;
    CompactedIsResumable(c, s.(iteration := s.iteration + 1), r);
  }

  lemma ErroredIsSound(c: Config, s: State, reply: Reply)
    requires reply.Refused? && Resumable(s.conversation) && !s.interrupted
    ensures var (t, ends) := Errored(c, s, reply); Sound(t, ends) && (!ends ==> !t.interrupted)
  {
    ResumableIsStoppable(s.conversation);
    hide Resumable, Stoppable;
  }

  lemma ResumableIsStoppable(ts: seq<ConversationTurn>)
    requires Resumable(ts)
    ensures Stoppable(ts)
  {
  }

  /** Whatever the model, the tools, the clock and the user do, a run that starts from a resumable
      transcript hands back a resumable one: when it is done, when it fails, at each cap, when it asks
      a question, and when it is cancelled before, during or between calls, after any compactions. */
  lemma {:induction false} RunHandsBackResumable(c: Config, s: State, env: nat -> Round, how: Closing)
    requires Resumable(s.conversation) && !s.interrupted
    ensures Resumable(Finished(Run(c, s, env), how).conversation)
    decreases c.maxIterations - s.iteration
  {
    hide Stoppable, Resumable;
    var r := env(s.iteration);
    if Halt(c, s, r).Some? {
      ResumableCloses(s.conversation, how);
    } else {
      var (t, ends) := OneTurn(c, s, r);
      TurnIsSound(c, s, r);
      if !ends {
        RunHandsBackResumable(c, t, env, how);
      } else if t.interrupted {
        StoppableCloses(t.conversation, how);
      }
    }
  }

  /** And no weaker start will do: exactly from a resumable transcript is what every run hands back
      paired. From any other paired one, a run cancelled at once does not. */
  lemma RunHandsBackPairedIff(c: Config, s: State, how: Closing)
    requires Paired(s.conversation) && !s.interrupted
    ensures Resumable(s.conversation) <==> forall env :: Paired(Finished(Run(c, s, env), how).conversation)
  {
    hide Paired, Troubled;
    if Resumable(s.conversation) {
      forall env ensures Paired(Finished(Run(c, s, env), how).conversation) {
        RunHandsBackResumable(c, s, env, how);
      }
    } else {
      var stop := Round(0, 0, true, "", Refused("", true, true), n => Outcome("", false, "", "", "", [], "", false));
      var env: nat -> Round := n => stop;
      CloseKeepsPairedIff(s.conversation, how);
      assert !Paired(Finished(Run(c, s, env), how).conversation);
    }
  }

  /** There is such a start: a run of it that is cancelled at once hands back a violation. */
  lemma SomePairedStartFails(c: Config, s: State, how: Closing)
    requires s.conversation == BrokenByClosing() && !s.interrupted
    ensures Paired(s.conversation) && exists env :: !Paired(Finished(Run(c, s, env), how).conversation)
  {
    hide Paired, Troubled, Run, Finished;
    ClosingCanBreak(how);
    RunHandsBackPairedIff(c, s, how);
  }

  // The caps.

  /** How a run that stops relates to its caps. */
  lemma {:induction false} RunStops(c: Config, s: State, env: nat -> Round)
    requires !s.interrupted
    ensures var t := Run(c, s, env);
            && (t.interrupted <==> t.phase == Paused && t.reason.Some?)
            && (!t.interrupted ==> t.phase == Done || t.phase == Failed)
            && t.iteration >= s.iteration && (t.iteration <= c.maxIterations || t.iteration == s.iteration)
            && t.tokensUsed >= s.tokensUsed
            && (t.interrupted && t.reason == Some(MaxIterations) ==>
                  t.iteration >= c.maxIterations && (c.maxTokens > 0 ==> t.tokensUsed < c.maxTokens)
                  && (c.maxDuration > 0 ==> env(t.iteration).elapsed < c.maxDuration))
            && (t.interrupted && t.reason == Some(TokenBudget) ==> c.maxTokens > 0 && t.tokensUsed >= c.maxTokens)
            && (t.interrupted && t.reason == Some(MaxDuration) ==> env(t.iteration).elapsed >= c.maxDuration > 0)
    decreases c.maxIterations - s.iteration
  {
    var r := env(s.iteration);
    if Halt(c, s, r).None? {
      var (t, ends) := OneTurn(c, s, r);
      TurnStops(c, s, r);
      hide OneTurn;
      if !ends {
        RunStops(c, t, env);
      }
    }
  }

  /** What a turn's outcome says about pausing and ending. */
  ghost predicate StopsSoundly(s: State, t: State, ends: bool) {
    && t.tokensUsed >= s.tokensUsed && (!ends ==> !t.interrupted)
    && (t.interrupted ==> t.phase == Paused && (t.reason == Some(Cancelled) || t.reason == Some(AwaitingInfo)))
    && (ends && !t.interrupted ==> t.phase == Done || t.phase == Failed)
    && (t.phase == Paused ==> t.interrupted)
  }

  lemma TurnStops(c: Config, s: State, r: Round)
    requires !s.interrupted
    ensures var (t, ends) := OneTurn(c, s, r); StopsSoundly(s, t, ends)
  {
    TurnByReply(c, s, r);
    BegunGoesOn(c, s, r);
    hide OneTurn, Begun, Replied, Errored;
    var t := Begun(c, s, r);
    if r.reply.Answer? {
      RepliedStops(c, Accounted(t, r.reply), r);
    } else {
      ErroredStops(c, t, r.reply);
    }
  }

  lemma BegunGoesOn(c: Config, s: State, r: Round)
    ensures var t := Begun(c, s, r); t.tokensUsed == s.tokensUsed && t.interrupted == s.interrupted && t.phase == Executing
  {
  }

  lemma ErroredStops(c: Config, s: State, reply: Reply)
    requires reply.Refused? && !s.interrupted && s.phase == Executing
    ensures var (t, ends) := Errored(c, s, reply); StopsSoundly(s, t, ends)
  {
  }

  lemma RepliedStops(c: Config, s: State, r: Round)
    requires r.reply.Answer? && !s.interrupted && s.phase == Executing
    ensures var (t, ends) := Replied(c, s, r); StopsSoundly(s, t, ends)
  {
    hide RunTools, Joined;
  }

  /** Without compaction the loop only ever appends to the transcript it was given. */
  lemma {:induction false} RunOnlyAppends(c: Config, s: State, env: nat -> Round, how: Closing)
    requires c.contextLimit <= 0
    ensures s.conversation <= Finished(Run(c, s, env), how).conversation
    decreases c.maxIterations - s.iteration
  {
    var r := env(s.iteration);
    if Halt(c, s, r).None? {
      var (t, ends) := OneTurn(c, s, r);
      TurnOnlyAppends(c, s, r);
      if !ends {
        RunOnlyAppends(c, t, env, how);
      }
    }
  }

  lemma TurnOnlyAppends(c: Config, s: State, r: Round)
    requires c.contextLimit <= 0
    ensures s.conversation <= OneTurn(c, s, r).0.conversation
  {
  }

  // The brief.

  lemma AppendedStaysBriefed(ts: seq<ConversationTurn>, more: seq<ConversationTurn>, task: string)
    requires Briefed(ts, task)
    ensures Briefed(ts + more, task)
  {
    hide PinsTask, TrimSpace;
  }

  lemma TurnKeepsBrief(c: Config, s: State, r: Round, task: string)
    requires Briefed(s.conversation, task) && !Occurs(SUMMARY_HEADER, Truncated(task))
    ensures Briefed(OneTurn(c, s, r).0.conversation, task)
  {
    hide *;
    TurnByReply(c, s, r);
    BegunKeepsBrief(c, s, r, task);
    var t := Begun(c, s, r);
    if r.reply.Answer? {
      AccountedSays(t, r.reply);
      var more := RepliedAppends(c, Accounted(t, r.reply), r);
      AppendedStaysBriefed(t.conversation, more, task);
    } else {
      ErroredSays(c, t, r.reply);
    }
  }

  lemma ErroredSays(c: Config, s: State, reply: Reply)
    requires reply.Refused?
    ensures Errored(c, s, reply).0.conversation == s.conversation
  {
  }

  lemma RepliedAppends(c: Config, s: State, r: Round) returns (more: seq<ConversationTurn>)
    requires r.reply.Answer?
    ensures Replied(c, s, r).0.conversation == s.conversation + more
  {
    more := Replied(c, s, r).0.conversation[|s.conversation|..];
  }

  lemma BegunKeepsBrief(c: Config, s: State, r: Round, task: string)
    requires Briefed(s.conversation, task) && !Occurs(SUMMARY_HEADER, Truncated(task))
    ensures Briefed(Begun(c, s, r).conversation, task)
  {
    hide SummaryContent, PinsTask, TrimSpace, Occurs, SafeCut;
    StaysBriefed(s.conversation, task, r.summary);
  }

  /** However often a run compacts, its transcript begins with the task's brief, unless the task
      itself holds the header of a summary. */
  lemma {:induction false} RunKeepsBrief(c: Config, s: State, env: nat -> Round, how: Closing, task: string)
    requires Briefed(s.conversation, task) && !Occurs(SUMMARY_HEADER, Truncated(task))
    ensures Briefed(Finished(Run(c, s, env), how).conversation, task)
    decreases c.maxIterations - s.iteration
  {
    hide Briefed, Occurs, Halt, Closed;
    var r := env(s.iteration);
    if Halt(c, s, r).Some? {
      ClosedKeepsBrief(s.conversation, how, task);
    } else {
      var (t, ends) := OneTurn(c, s, r);
      TurnKeepsBrief(c, s, r, task);
      HaltsAtCap(c, s, r);
      if ends {
        ClosedKeepsBrief(t.conversation, how, task);
      } else {
        RunKeepsBrief(c, t, env, how, task);
      }
    }
  }

  lemma ClosedKeepsBrief(ts: seq<ConversationTurn>, how: Closing, task: string)
    requires Briefed(ts, task)
    ensures Briefed(Closed(ts, how), task)
  {
    hide Briefed, LastCaller, Invented, Answered;
    var i := LastCaller(ts);
    if i >= 0 {
      AppendedStaysBriefed(ts, Invented(ts[i].toolCalls, Answered(ts[i + 1..]), how), task);
    }
  }

  // The actor that runs it.

  class Orchestrator {
    const config: Config
    var conversation: seq<ConversationTurn>
    var iteration: nat
    var tokensUsed: int
    var lastInputTokens: int
    var errors: seq<string>
    var interrupted: bool
    var reason: Option<Reason>
    var phase: Phase
    var question: string

    function View(): State
      reads this
    {
      State(conversation, iteration, tokensUsed, lastInputTokens, errors, interrupted, reason, phase, question)
    }

    constructor (config: Config, conversation: seq<ConversationTurn>)
      ensures this.config == config && View() == State(conversation, 0, 0, 0, [], false, None, Executing, "")
    {
      this.config, this.conversation := config, conversation;
      iteration, tokensUsed, lastInputTokens, errors := 0, 0, 0, [];
      interrupted, reason, phase, question := false, None, Executing, "";
    }

    method MarkPaused(why: Reason)
      modifies this
      ensures View() == Pause(old(View()), why)
    {
      if interrupted {
        return;
      }
      interrupted, reason, phase := true, Some(why), Paused;
    }

    method SafeCompactionCutIndex(desired: int) returns (cut: int)
      requires desired == |conversation| - KEEP_RECENT
      ensures cut == SafeCut(conversation)
    {
      if desired <= 0 {
        return 0;
      }
      cut := desired;
      while cut < |conversation| && conversation[cut].role == Tool
        invariant desired <= cut <= |conversation|
        invariant SkipTools(conversation, desired) == SkipTools(conversation, cut)
      {
        cut := cut + 1;
      }
      if cut >= |conversation| {
        return 0;
      }
    }

    method MaybeCompact(r: Round)
      modifies `conversation, `lastInputTokens
      ensures View() == Compacted(config, old(View()), r)
    {
      if config.contextLimit <= 0 || lastInputTokens <= 0 {
        return;
      }
      var threshold := config.contextLimit * 3 / 4;
      if lastInputTokens < threshold {
        return;
      }
      if |conversation| <= KEEP_RECENT + 1 {
        return;
      }
      var cut := SafeCompactionCutIndex(|conversation| - KEEP_RECENT);
      if cut <= 0 {
        return;
      }
      conversation := [SummaryTurn(conversation[0], r.summary, r.now)] + conversation[cut..];
      lastInputTokens := 0;
    }

    /** The caps and the interrupt, looked at before each turn. */
    method CheckCaps(r: Round) returns (stop: bool)
      modifies this
      ensures stop == Halt(config, old(View()), r).Some?
      ensures View() == if stop then Pause(old(View()), Halt(config, old(View()), r).value) else old(View())
    {
      if r.cancelled {
        MarkPaused(Cancelled);
        return true;
      }
      if config.maxDuration > 0 && r.elapsed >= config.maxDuration {
        MarkPaused(MaxDuration);
        return true;
      }
      if config.maxTokens > 0 && tokensUsed >= config.maxTokens {
        MarkPaused(TokenBudget);
        return true;
      }
      if iteration >= config.maxIterations {
        MarkPaused(MaxIterations);
        return true;
      }
      return false;
    }

    method HandleError(reply: Reply) returns (ends: bool)
      requires reply.Refused?
      modifies this
      ensures (View(), ends) == Errored(config, old(View()), reply)
    {
      if reply.cancelled {
        MarkPaused(Cancelled);
        return true;
      }
      errors := errors + [reply.error];
      if reply.permanent {
        phase := Failed;
        return true;
      }
      if iteration < config.maxIterations {
        return false;
      }
      phase := Failed;
      return true;
    }

    method JoinTexts(texts: seq<string>) returns (text: string)
      ensures text == Joined(texts)
    {
      text := "";
      for k := 0 to |texts|
        invariant text == Joined(texts[..k])
      {
        assert texts[..k + 1][..k] == texts[..k];
        text := text + texts[k];
      }
      assert texts[..|texts|] == texts;
    }

    /** Runs the calls in order; an interrupt keeps the results there are. */
    method ExecuteTools(calls: seq<ToolCallRequest>, r: Round) returns (results: seq<ConversationTurn>, cancelled: bool)
      modifies `question
      ensures ToolRound(results, question, cancelled) == RunTools(calls, |calls|, r.outcomes, r.now, old(question))
    {
      results, cancelled := [], false;
      for k := 0 to |calls|
        invariant !cancelled && ToolRound(results, question, false) == RunTools(calls, k, r.outcomes, r.now, old(question))
      {
        var o := r.outcomes(k);
        if o.question != "" {
          question := o.question;
        }
        results := results + [ResultTurn(calls[k], o, r.now)];
        if o.cancelled {
          CancelledRoundStays(calls, k + 1, r.outcomes, r.now, old(question));
          return results, true;
        }
      }
    }

    method HandleAnswer(r: Round) returns (ends: bool)
      requires r.reply.Answer?
      modifies this
      ensures (View(), ends) == Replied(config, old(View()), r)
    {
      var text := JoinTexts(r.reply.texts);
      var said := AssistantTurn(config, r);
      if |r.reply.calls| == 0 && r.reply.stop == EndTurn {
        phase := Done;
        if |text| > 0 {
          conversation := conversation + [said];
        }
        return true;
      }
      if |r.reply.calls| > 0 {
        ghost var before := conversation;
        var caller := said.(toolCalls := r.reply.calls);
        conversation := conversation + [caller];
        var results, cancelled := ExecuteTools(r.reply.calls, r);
        conversation := conversation + results;
        Assoc(before, [caller], results);
        if cancelled {
          MarkPaused(Cancelled);
          return true;
        }
        if question != "" {
          MarkPaused(AwaitingInfo);
          return true;
        }
      } else if r.reply.stop == MaxTokens {
        if |text| > 0 {
          conversation := conversation + [said];
        }
      }
      return false;
    }

    method RunTurn(r: Round) returns (ends: bool)
      modifies this
      ensures (View(), ends) == OneTurn(config, old(View()), r)
    {
      hide Compacted, Replied, Errored;
      iteration := iteration + 1;
      MaybeCompact(r);
      phase := Executing;
      if r.reply.Refused? {
        ends := HandleError(r.reply);
      } else {
        if r.reply.inputTokens > 0 {
          lastInputTokens := r.reply.inputTokens;
        }
        tokensUsed := tokensUsed + r.reply.newTokens;
        ends := HandleAnswer(r);
      }
    }

    /** The loop, and the clean-up that runs however it is left. */
    method RunLoop(env: nat -> Round, how: Closing)
      modifies this
      ensures View() == Finished(Run(config, old(View()), env), how)
      ensures Resumable(old(conversation)) && !old(interrupted) ==> Resumable(conversation)
    {
      hide OneTurn, Halt, Resumable;
      ghost var start := View();
      var ends := false;
      while !ends
        invariant ends ==> View() == Run(config, start, env)
        invariant !ends ==> Run(config, View(), env) == Run(config, start, env)
        decreases if ends then 0 else 1, config.maxIterations - iteration
      {
        var r := env(iteration);
        var stop := CheckCaps(r);
        if stop {
          break;
        }
        HaltsAtCap(config, View(), r);
        ends := RunTurn(r);
      }
      if interrupted {
        conversation := CloseDanglingToolCalls(conversation, how);
      }
      if Resumable(start.conversation) && !start.interrupted {
        RunHandsBackResumable(config, start, env, how);
      }
    }
  }

  lemma HaltsAtCap(c: Config, s: State, r: Round)
    requires Halt(c, s, r).None?
    ensures s.iteration < c.maxIterations
  {
  }

  lemma {:induction false} CancelledRoundStays(calls: seq<ToolCallRequest>, n: nat, outcomes: nat -> Outcome, now: int, question: string)
    requires n <= |calls| && RunTools(calls, n, outcomes, now, question).cancelled
    ensures RunTools(calls, |calls|, outcomes, now, question) == RunTools(calls, n, outcomes, now, question)
    decreases |calls| - n
  {
    if n < |calls| {
      CancelledRoundStays(calls, n + 1, outcomes, now, question);
    }
  }
}
