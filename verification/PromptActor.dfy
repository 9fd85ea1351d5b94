/** The actor that owns a session: it starts one leg at a time, takes its transcript back, and goes
    on by itself while the budget lasts. */
module PromptActor {
  import opened Basics
  import opened Sequences
  import opened Transcript
  import opened ToolPairing
  import opened SessionWindow
  import opened RunLoop
  import opened RunBudget

  const CONTINUE_PROMPT :=
    "Continue from where you stopped. Re-issue any tool call that was interrupted before completing the task."

  // The session's transcript between legs: resumable behind what trimming may have torn off its head.

  ghost predicate Mended(ts: seq<ConversationTurn>) {
    Resumable(ts[ToolRun(ts)..])
  }

  lemma ResumableIsMended(ts: seq<ConversationTurn>)
    requires Resumable(ts)
    ensures ToolRun(ts) == 0 && Mended(ts)
  {
    assert ts[0..] == ts;
    hide Troubled;
  }

  /** From any turn of a resumable transcript that is no result, the rest is resumable. */
  lemma ResumableFrom(ts: seq<ConversationTurn>, n: nat)
    requires Resumable(ts) && n <= |ts| && (n < |ts| ==> ts[n].role != Tool)
    ensures Resumable(ts[n..])
  {
    hide Paired, Troubled;
    PairedParts(ts, n);
    TakeDrop(ts, n);
    SuffixNotTroubled(ts[..n], ts[n..]);
  }

  lemma {:induction false} ToolRunOfSuffix(ts: seq<ConversationTurn>, n: nat)
    requires n <= ToolRun(ts)
    ensures ToolRun(ts[n..]) == ToolRun(ts) - n
  {
    if n > 0 {
      ToolRunOfSuffix(ts[1..], n - 1);
      assert ts[1..][n - 1..] == ts[n..];
    } else {
      assert ts[0..] == ts;
    }
  }

  /** Any suffix of a kept transcript is kept. */
  lemma SuffixIsMended(ts: seq<ConversationTurn>, n: nat)
    requires Mended(ts) && n <= |ts|
    ensures Mended(ts[n..])
  {
    hide Resumable, ToolRun;
    var r := ToolRun(ts);
    if n <= r {
      ToolRunOfSuffix(ts, n);
      DropDrop(ts, n, r - n);
    } else {
      var k := ToolRun(ts[n..]);
      DropDrop(ts, r, n - r + k);
      DropDrop(ts, n, k);
      ResumableFrom(ts[r..], n - r + k);
    }
  }

  lemma MendedFromTurn(ts: seq<ConversationTurn>)
    requires Mended(ts) && (ts != [] ==> ts[0].role != Tool)
    ensures Resumable(ts)
  {
    assert ts[0..] == ts;
    hide Resumable;
  }

  lemma {:induction false} ToolRunSnoc(ts: seq<ConversationTurn>, t: ConversationTurn)
    requires t.role != Tool
    ensures ToolRun(ts + [t]) == ToolRun(ts)
  {
    if ts != [] && ts[0].role == Tool {
      assert (ts + [t])[1..] == ts[1..] + [t];
      ToolRunSnoc(ts[1..], t);
    }
  }

  /** A spoken turn keeps the transcript so, whoever speaks. */
  lemma SpokenIsMended(ts: seq<ConversationTurn>, t: ConversationTurn)
    requires Mended(ts) && !IsCaller(t) && (t.role == Assistant || t.role == User)
    ensures Mended(ts + [t]) && LastCaller(ts + [t]) == -1
  {
    hide Paired, Troubled, ToolRun, LastCaller, IsCaller;
    var r := ToolRun(ts);
    ToolRunSnoc(ts, t);
    DropConcat(ts, [t], r);
    PairedSnoc(ts[r..], t);
    EndsSpoken(ts[r..], t);
    EndsSpoken(ts, t);
    NoCallerNoTrouble(ts[r..] + [t]);
  }

  lemma {:induction false} NoCallerAmongTools(run: seq<ConversationTurn>)
    requires AllTools(run)
    ensures LastCaller(run) == -1
  {
    if run != [] {
      NoCallerAmongTools(run[..|run| - 1]);
    }
  }

  lemma {:induction false} LastCallerBehindTools(run: seq<ConversationTurn>, ts: seq<ConversationTurn>)
    requires AllTools(run) && LastCaller(ts) < 0
    ensures LastCaller(run + ts) == -1
    decreases |ts|
  {
    if ts == [] {
      assert run + ts == run;
      NoCallerAmongTools(run);
    } else {
      assert (run + ts)[..|run + ts| - 1] == run + ts[..|ts| - 1];
      var t := ts[|ts| - 1];
      if t.role != Assistant && t.role != User {
        LastCallerBehindTools(run, ts[..|ts| - 1]);
      }
    }
  }

  lemma ClosedBehindTools(run: seq<ConversationTurn>, ts: seq<ConversationTurn>, how: Closing)
    requires AllTools(run)
    ensures Closed(run + ts, how) == run + Closed(ts, how)
  {
    hide *;
    var i := LastCaller(ts);
    ClosedIs(ts, how);
    ClosedIs(run + ts, how);
    if i < 0 {
      LastCallerBehindTools(run, ts);
    } else {
      LastCallerOfSuffix(run, ts);
      DropDrop(run + ts, |run|, i);
      DropDrop(run + ts, |run|, i + 1);
      ConcatParts(run, ts);
      Assoc(run, ts, Invented(ts[i].toolCalls, Answered(ts[i + 1..]), how));
    }
  }

  /** Closing what is open keeps the transcript so. */
  lemma ClosedIsMended(ts: seq<ConversationTurn>, how: Closing)
    requires Mended(ts)
    ensures Mended(Closed(ts, how))
  {
    hide Paired, Troubled, LastCaller;
    var r := ToolRun(ts);
    var run, rest := ts[..r], ts[r..];
    TakeDrop(ts, r);
    ResumableCloses(rest, how);
    ClosedBehindTools(run, rest, how);
    ResumableIsMended(Closed(rest, how));
    hide Resumable, Closed;
    StartsOutside(Closed(rest, how));
    ToolRunConcat(run, Closed(rest, how));
  }

  lemma StartsOutside(ts: seq<ConversationTurn>)
    requires ToolRun(ts) == 0
    ensures ts == [] || ts[0].role != Tool
  {
  }

  lemma BoundedIsMended(ts: seq<ConversationTurn>)
    requires Mended(ts)
    ensures Mended(Bounded(ts))
  {
    hide Mended, Bounded;
    BoundedIsSuffix(ts);
    SuffixIsMended(ts, |ts| - |Bounded(ts)|);
  }

  // What each step makes of the session's transcript.

  /** What a user sends: text, and blocks that may hold images. */
  datatype Prompt = Prompt(text: string, blocks: seq<ContentBlock>)

  function CleanBlock(b: ContentBlock, sanitize: string -> string): ContentBlock {
    if b.kind == TEXT && b.text != "" then b.(text := sanitize(b.text)) else b
  }

  /** The prompt with its texts sanitized, where the session has secret translation on. */
  function Clean(prompt: Prompt, sanitize: Option<string -> string>): Prompt {
    if sanitize.None? then prompt
    else Prompt(sanitize.value(prompt.text),
                seq(|prompt.blocks|, i requires 0 <= i < |prompt.blocks| => CleanBlock(prompt.blocks[i], sanitize.value)))
  }

  function Prompted(ts: seq<ConversationTurn>, prompt: Prompt, now: int, how: Closing): seq<ConversationTurn> {
    Bounded(Closed(ts + [UserTurn(prompt.text, prompt.blocks, now)], how))
  }

  /** Whatever was kept, the leg that a prompt starts gets a resumable transcript that ends with the prompt. */
  lemma PromptedIsResumable(ts: seq<ConversationTurn>, prompt: Prompt, now: int, how: Closing)
    requires Mended(ts)
    ensures var p := Prompted(ts, prompt, now, how);
            Mended(p) && Resumable(p) && p != [] && p[|p| - 1] == UserTurn(prompt.text, prompt.blocks, now) && |p| <= WINDOW_HARD
  {
    hide *;
    var user := UserTurn(prompt.text, prompt.blocks, now);
    var all := ts + [user];
    UserTurnIs(prompt, now);
    SpokenIsMended(ts, user);
    NothingToClose(all, how);
    PromptedIs(ts, prompt, now, how);
    BoundedIsSuffix(all);
    EndsWithUser(all);
    BoundedIsMended(all);
    LastOfSuffix(all, |all| - |Bounded(all)|);
    MendedFromTurn(Bounded(all));
  }

  lemma UserTurnIs(prompt: Prompt, now: int)
    ensures var t := UserTurn(prompt.text, prompt.blocks, now); t.role == User && !IsCaller(t)
  {
  }

  lemma NothingToClose(ts: seq<ConversationTurn>, how: Closing)
    requires LastCaller(ts) == -1
    ensures Closed(ts, how) == ts
  {
  }

  lemma LastOfSuffix(ts: seq<ConversationTurn>, n: nat)
    requires n < |ts|
    ensures ts[n..] != [] && ts[n..][|ts[n..]| - 1] == ts[|ts| - 1]
  {
  }

  lemma EndsWithUser(ts: seq<ConversationTurn>)
    requires ts != [] && ts[|ts| - 1].role == User
    ensures Bounded(ts) != [] && Bounded(ts)[0].role == User
  {
    var w := Trimmed(ts);
    assert w[|w| - 1] == ts[|ts| - 1];
    assert w[|w| - 1] in w;
    HealHeadStartsWithUser(w);
  }

  /** What a finished leg leaves behind. */
  datatype Done = Done(id: string, report: Report, conversation: seq<ConversationTurn>, summary: string)

  function SummaryOf(d: Done): ConversationTurn {
    BlankTurn(Assistant).(content := d.summary, category := CATEGORY_AI)
  }

  function Taken(ts: seq<ConversationTurn>, d: Done, category: ConversationTurn -> string): seq<ConversationTurn> {
    if d.conversation != [] then Categorized(d.conversation, category)
    else if d.summary != "" then ts + [SummaryOf(d)]
    else ts
  }

  lemma {:induction false} CategorizedLastCaller(ts: seq<ConversationTurn>, category: ConversationTurn -> string)
    ensures LastCaller(Categorized(ts, category)) == LastCaller(ts)
  {
    if ts != [] {
      assert Categorized(ts, category)[..|ts| - 1] == Categorized(ts[..|ts| - 1], category);
      CategorizedLastCaller(ts[..|ts| - 1], category);
    }
  }

  lemma CategorizedTools(ts: seq<ConversationTurn>, category: ConversationTurn -> string)
    ensures AllTools(Categorized(ts, category)) <==> AllTools(ts)
  {
    var cs := Categorized(ts, category);
    assert forall k :: 0 <= k < |ts| ==> cs[k].role == ts[k].role;
  }

  lemma CategorizedResumable(ts: seq<ConversationTurn>, category: ConversationTurn -> string)
    requires Resumable(ts)
    ensures Resumable(Categorized(ts, category))
  {
    var cs := Categorized(ts, category);
    var i := LastCaller(ts);
    CategorizedPaired(ts, category);
    CategorizedLastCaller(ts, category);
    TroubledMeans(ts);
    TroubledMeans(cs);
    if i >= 0 {
      assert cs[i + 1..] == Categorized(ts[i + 1..], category);
      CategorizedTools(ts[i + 1..], category);
    } else {
      NoCallerNoTrouble(cs);
    }
    hide Paired, Troubled, LastCaller, AllTools, CallIds;
  }

  lemma TakenIsMended(ts: seq<ConversationTurn>, d: Done, category: ConversationTurn -> string)
    requires Mended(ts) && (d.conversation != [] ==> Resumable(d.conversation))
    ensures Mended(Taken(ts, d, category))
  {
    hide Mended, Resumable;
    if d.conversation != [] {
      CategorizedResumable(d.conversation, category);
      ResumableIsMended(Categorized(d.conversation, category));
    } else if d.summary != "" {
      SpokenIsMended(ts, SummaryOf(d));
    }
  }

  // The actor.

  /** What the actor does when a leg is over: nothing, start the queued prompt, or go on by itself. */
  datatype Step = Ignored | Queued | ByItself(next: Next)

  /** The prompt that the following leg starts from, if one follows. */
  function NextPrompt(step: Step, queued: Option<Prompt>, b: Budget): Option<Prompt> {
    match step
    case Ignored => None
    case Queued => queued
    case ByItself(Continue) => Some(Prompt(WithOutputDirNote(CONTINUE_PROMPT, b.outputDir), []))
    case ByItself(Finalize) => Some(Prompt(WithOutputDirNote(b.finalizerPrompt, b.outputDir), []))
    case ByItself(Rest) => None
  }

  /** The session's window once a leg is merged and the next prompt, if any, is put behind it. */
  function Onward(merged: seq<ConversationTurn>, next: Option<Prompt>, sanitize: Option<string -> string>, now: int, how: Closing): seq<ConversationTurn> {
    if next.None? then merged else Prompted(merged, Clean(next.value, sanitize), now, how)
  }

  class Actor {
    const maxIterations: int
    const category: ConversationTurn -> string
    const how: Closing
    const sanitize: Option<string -> string>
    const session: SessionMemory
    var activeOrchId: string
    var running: bool
    var pendingPrompt: Option<Prompt>
    var budget: Budget

    constructor (maxIterations: int, category: ConversationTurn -> string, how: Closing, sanitize: Option<string -> string>)
      ensures this.maxIterations == maxIterations && this.category == category && this.how == how && this.sanitize == sanitize
      ensures budget == UNARMED && activeOrchId == "" && !running && pendingPrompt == None
      ensures fresh(session) && session.turns == []
    {
      this.maxIterations, this.category, this.how, this.sanitize := maxIterations, category, how, sanitize;
      session := new SessionMemory();
      activeOrchId, running, pendingPrompt, budget := "", false, None, UNARMED;
    }

    method DisarmRunBudget()
      modifies `budget
      ensures budget == Disarmed(old(budget))
    {
      budget := budget.(armed := false, left := 0, deadline := None, maxDuration := 0, stepInterval := 0, maxTokens := 0,
                        tokensUsed := 0, finalizerPrompt := "", finalizing := false, finalizerIterations := 0,
                        finalizerDuration := 0, finalizerTokens := 0, outputDir := "");
    }

    method HandleSetRunBudget(m: Request, now: int)
      modifies `budget
      ensures budget == Armed(old(budget), m, maxIterations, now)
    {
      if !m.autoContinue {
        DisarmRunBudget();
        return;
      }
      var perLeg := m.stepInterval;
      if perLeg <= 0 {
        perLeg := maxIterations;
      }
      if perLeg <= 0 {
        perLeg := DEFAULT_ITERATIONS;
      }
      var total := m.totalIterations;
      if total < perLeg {
        total := perLeg;
      }
      var legs := (total + perLeg - 1) / perLeg;
      var left := legs - 1;
      if left < 0 {
        left := 0;
      }
      var duration := m.durationMs * MS;
      var deadline := None;
      if duration > 0 {
        deadline := Some(now + duration);
      }
      budget := budget.(outputDir := m.outputDir, finalizerPrompt := m.finalizerPrompt, finalizing := false,
                        finalizerIterations := m.finalizerIterations, finalizerDuration := m.finalizerDurationMs * MS,
                        finalizerTokens := m.finalizerTokens, stepInterval := perLeg, maxTokens := m.maxTokens,
                        tokensUsed := 0, tokensTotal := 0, armed := true, left := left, maxDuration := duration,
                        deadline := deadline);
    }

    method ArmFinalizerBudget(now: int)
      modifies `budget
      ensures budget == ForFinalizer(old(budget), maxIterations, now)
                .(armed := old(budget).armed, finalizing := old(budget).finalizing)
    {
      var perLeg := budget.stepInterval;
      if perLeg <= 0 {
        perLeg := maxIterations;
      }
      if perLeg <= 0 {
        perLeg := DEFAULT_ITERATIONS;
      }
      var left := FINALIZER_RESUMES;
      if budget.finalizerIterations > 0 {
        var legs := (budget.finalizerIterations + perLeg - 1) / perLeg;
        left := legs - 1;
        if left < 0 {
          left := 0;
        }
      }
      var dur := budget.finalizerDuration;
      if dur <= 0 {
        dur := FINALIZER_DEADLINE;
      }
      budget := budget.(left := left, maxDuration := dur, deadline := Some(now + dur),
                        maxTokens := budget.finalizerTokens, tokensUsed := 0);
    }

    /** The prompt as it may enter the session: what its texts hold of secrets is translated first. */
    method Cleaned(prompt: Prompt) returns (out: Prompt)
      ensures out == Clean(prompt, sanitize)
    {
      if sanitize.None? {
        return prompt;
      }
      var blocks := prompt.blocks;
      for i := 0 to |blocks|
        invariant |blocks| == |prompt.blocks|
        invariant forall j :: 0 <= j < |blocks| ==> blocks[j] == if j < i then CleanBlock(prompt.blocks[j], sanitize.value) else prompt.blocks[j]
      {
        if blocks[i].kind == TEXT && blocks[i].text != "" {
          blocks := blocks[i := blocks[i].(text := sanitize.value(blocks[i].text))];
        }
      }
      return Prompt(sanitize.value(prompt.text), blocks);
    }

    /** Appends the prompt and starts a leg on the window, under the caps the budget leaves. */
    method StartPrompt(prompt: Prompt, orchId: string, now: int) returns (caps: Caps)
      modifies this, session
      ensures session.turns == Prompted(old(session.turns), Clean(prompt, sanitize), now, how) && !session.paused
      ensures caps == LegCaps(old(budget), maxIterations, now) && budget == old(budget)
      ensures activeOrchId == orchId && running && pendingPrompt == old(pendingPrompt)
      ensures Mended(old(session.turns)) ==> Mended(session.turns) && Resumable(session.turns)
    {
      hide *;
      if session.paused {
        session.ClearPause();
      }
      var clean := Cleaned(prompt);
      if Mended(session.turns) {
        PromptedIsResumable(session.turns, clean, now, how);
      }
      session.AppendUserTurn(clean.text, clean.blocks, now);
      session.Bound(how);
      PromptedIs(old(session.turns), clean, now, how);
      activeOrchId := orchId;
      caps := FreshCaps(now);
      running := true;
    }

    method FreshCaps(now: int) returns (caps: Caps)
      ensures caps == LegCaps(budget, maxIterations, now)
    {
      var maxIter := maxIterations;
      if maxIter <= 0 {
        maxIter := DEFAULT_ITERATIONS;
      }
      if budget.armed && budget.stepInterval > 0 {
        maxIter := budget.stepInterval;
      }
      var duration, tokens := 0, 0;
      if budget.armed && budget.deadline.Some? {
        var remaining := budget.deadline.value - now;
        if remaining > 0 {
          duration := remaining;
        }
      }
      if budget.armed && budget.maxTokens > 0 {
        var remaining := budget.maxTokens - budget.tokensUsed;
        if remaining > 0 {
          tokens := remaining;
        }
      }
      return Caps(maxIter, duration, tokens);
    }

    /** A prompt that comes while a leg runs waits for it; the last one wins. */
    method HandlePrompt(prompt: Prompt, orchId: string, now: int) returns (caps: Option<Caps>)
      modifies this, session
      ensures budget == old(budget)
      ensures caps == if old(running) then None else Some(LegCaps(old(budget), maxIterations, now))
      ensures old(running) ==> pendingPrompt == Some(prompt) && session.turns == old(session.turns) && activeOrchId == old(activeOrchId)
      ensures !old(running) ==> session.turns == Prompted(old(session.turns), Clean(prompt, sanitize), now, how) && activeOrchId == orchId
      ensures !old(running) ==> running && pendingPrompt == old(pendingPrompt)
      ensures Mended(old(session.turns)) ==> Mended(session.turns) && (caps.Some? ==> Resumable(session.turns))
    {
      if running {
        pendingPrompt := Some(prompt);
        return None;
      }
      var c := StartPrompt(prompt, orchId, now);
      return Some(c);
    }

    /** Takes a finished leg's transcript into the session, unless the leg is not the active one. */
    method MergeDoneIntoSession(d: Done) returns (mine: bool)
      modifies session
      ensures mine == (d.id == activeOrchId)
      ensures session.turns == if mine then Bounded(Closed(Taken(old(session.turns), d, category), how)) else old(session.turns)
      ensures session.paused == old(session.paused) && session.pausedReason == old(session.pausedReason)
      ensures Mended(old(session.turns)) && (d.conversation != [] ==> Resumable(d.conversation)) ==> Mended(session.turns)
    {
      hide *;
      if d.id != activeOrchId {
        return false;
      }
      ghost var before := session.turns;
      if |d.conversation| > 0 {
        session.Replace(d.conversation, category);
      } else if d.summary != "" {
        session.Append(SummaryOf(d), category);
      }
      TakenIs(before, d, category);
      ghost var taken := session.turns;
      session.Bound(how);
      if Mended(before) && (d.conversation != [] ==> Resumable(d.conversation)) {
        TakenIsMended(before, d, category);
        ClosedIsMended(taken, how);
        BoundedIsMended(Closed(taken, how));
      }
      return true;
    }

    /** A leg is over: merge it, then start the queued prompt, or resume, or run the closing leg, or rest. */
    method HandleOrchestratorDone(d: Done, orchId: string, now: int) returns (step: Step, caps: Option<Caps>)
      modifies this, session
      ensures step == Ignored <==> d.id != old(activeOrchId)
      ensures step == Ignored ==> budget == old(budget) && session.turns == old(session.turns) && running == old(running)
                                  && pendingPrompt == old(pendingPrompt) && activeOrchId == old(activeOrchId)
      ensures step != Ignored ==>
                session.turns == Onward(Bounded(Closed(Taken(old(session.turns), d, category), how)),
                                        NextPrompt(step, old(pendingPrompt), budget), sanitize, now, how)
      ensures step != Ignored && caps.Some? ==> !session.paused
      ensures step == Queued ==> old(pendingPrompt).Some? && budget == Spent(old(budget), d.report.tokens)
      ensures d.id == old(activeOrchId) && old(pendingPrompt).Some? ==> step == Queued
      ensures step.ByItself? ==> (budget, step.next) == After(old(budget), d.report, maxIterations, now)
      ensures step != Ignored ==> pendingPrompt == None
      ensures step == Ignored || step == ByItself(Rest) <==> caps == None
      ensures caps.Some? ==> caps.value == LegCaps(budget, maxIterations, now) && running && activeOrchId == orchId
      ensures step == ByItself(Rest) ==> !running && activeOrchId == "" && session.paused == d.report.interrupted
      ensures step == ByItself(Rest) && d.report.interrupted ==> session.pausedReason == ReasonText(d.report.reason)
      ensures Mended(old(session.turns)) && (d.conversation != [] ==> Resumable(d.conversation)) ==>
                Mended(session.turns) && (caps.Some? ==> Resumable(session.turns))
    {
      hide Mended, Resumable, Prompted, Clean, Bounded, Taken, Closed, LegCaps;
      var mine := MergeDoneIntoSession(d);
      if !mine {
        return Ignored, None;
      }
      budget := budget.(tokensUsed := budget.tokensUsed + d.report.tokens, tokensTotal := budget.tokensTotal + d.report.tokens);
      running, activeOrchId := false, "";
      if pendingPrompt.Some? {
        var prompt := pendingPrompt.value;
        pendingPrompt := None;
        session.ClearPause();
        var c := StartPrompt(prompt, orchId, now);
        return Queued, Some(c);
      }
      var next := Decide(d.report, now);
      match next {
        case Continue =>
          session.ClearPause();
          var c := StartPrompt(Prompt(WithOutputDirNote(CONTINUE_PROMPT, budget.outputDir), []), orchId, now);
          return ByItself(Continue), Some(c);
        case Finalize =>
          session.ClearPause();
          var c := StartPrompt(Prompt(WithOutputDirNote(budget.finalizerPrompt, budget.outputDir), []), orchId, now);
          return ByItself(Finalize), Some(c);
        case Rest =>
          if d.report.interrupted {
            session.Pause(ReasonText(d.report.reason));
          } else {
            session.ClearPause();
          }
          return ByItself(Rest), None;
      }
    }

    /** What follows the leg, with the budget brought up to it. */
    method Decide(r: Report, now: int) returns (next: Next)
      modifies `budget
      ensures (budget, next) == Decided(old(budget), r, maxIterations, now)
    {
      hide ResumesFor, PerLeg, Disarmed;
      if !r.interrupted {
        DisarmRunBudget();
        return Rest;
      }
      if AutoContinues(budget, r.reason, now) {
        budget := budget.(left := budget.left - 1);
        return Continue;
      }
      if Finalizes(budget, r.reason) {
        budget := budget.(finalizing := true, armed := true);
        ArmFinalizerBudget(now);
        return Finalize;
      }
      ReasonsAreFive(r.reason);
      if r.reason == Some(Cancelled) || r.reason == Some(MaxIterations) || r.reason == Some(MaxDuration) || r.reason == Some(TokenBudget) {
        DisarmRunBudget();
      }
      return Rest;
    }
  }

  // A prompt with everything that follows from it.

  /** What the world does to the legs, one after another: each leg's rounds, name and times. */
  datatype World = World(rounds: nat -> nat -> Round, id: nat -> string, started: nat -> int, ended: nat -> int)

  /** What every leg of a session runs with, beside its caps. */
  datatype Seat = Seat(contextLimit: int, provider: string, model: string)

  /** One leg, from the window it is given to what it reports. */
  method RunLeg(caps: Caps, seat: Seat, turns: seq<ConversationTurn>, rounds: nat -> Round, id: string, how: Closing)
    returns (d: Done)
    requires Resumable(turns)
    ensures d.id == id && Resumable(d.conversation)
    ensures (d.report.interrupted ==> d.report.reason.Some?) && d.report.tokens >= 0
  {
    hide *;
    var c := Config(caps.iterations, caps.duration, caps.tokens, seat.contextLimit, seat.provider, seat.model);
    var orch := new Orchestrator(c, turns);
    ghost var start := orch.View();
    Shows(orch);
    orch.RunLoop(rounds, how);
    RunStops(c, start, rounds);
    FinishedReports(c, start, rounds, how);
    Shows(orch);
    return Done.Done(id, Report(orch.interrupted, orch.reason, orch.tokensUsed), orch.conversation, "");
  }

  lemma FinishedReports(c: Config, s: State, env: nat -> Round, how: Closing)
    ensures var t := Run(c, s, env);
            var f := Finished(t, how);
            f.interrupted == t.interrupted && f.reason == t.reason && f.tokensUsed == t.tokensUsed
  {
    hide Run, Closed;
  }

  lemma Shows(orch: Orchestrator)
    ensures orch.View().interrupted == orch.interrupted && orch.View().reason == orch.reason
    ensures orch.View().tokensUsed == orch.tokensUsed && orch.View().conversation == orch.conversation
  {
  }

  /** A prompt and all that follows by itself: each leg is given a resumable window, whatever happens in
      the legs before it; the actor comes to rest after at most the legs its budget leads to, with a
      session the next prompt can go on from. */
  method RunToRest(actor: Actor, prompt: Prompt, seat: Seat, world: World) returns (legs: nat)
    requires !actor.running && actor.pendingPrompt == None && Sane(actor.budget) && Mended(actor.session.turns)
    modifies actor, actor.session
    ensures !actor.running && actor.pendingPrompt == None && Sane(actor.budget) && Mended(actor.session.turns)
    ensures 1 <= legs <= MostLegs(old(actor.budget), actor.maxIterations)
  {
    hide *;
    ghost var most := MostLegs(actor.budget, actor.maxIterations);
    LegsAtLeastOne(actor.budget, actor.maxIterations);
    var caps := actor.HandlePrompt(prompt, world.id(0), world.started(0));
    legs := 0;
    while caps.Some?
      invariant legs + (if caps.Some? then MostLegs(actor.budget, actor.maxIterations) else 0) <= most
      invariant caps.Some? ==> actor.running && actor.activeOrchId == world.id(legs)
      invariant caps.Some? ==> Resumable(actor.session.turns) && MostLegs(actor.budget, actor.maxIterations) >= 1
      invariant caps.None? ==> !actor.running && legs >= 1
      invariant actor.pendingPrompt == None && Sane(actor.budget) && Mended(actor.session.turns)
      decreases most - legs
    {
      var d := RunLeg(caps.value, seat, actor.session.turns, world.rounds(legs), world.id(legs), actor.how);
      ghost var b := actor.budget;
      ghost var now := world.ended(legs);
      var step;
      step, caps := actor.HandleOrchestratorDone(d, world.id(legs + 1), world.ended(legs));
      AfterIsSane(b, d.report, actor.maxIterations, now);
      if caps.Some? {
        EachLegCounts(b, d.report, actor.maxIterations, now);
      }
      legs := legs + 1;
    }
  }

  lemma LegsAtLeastOne(b: Budget, actorDefault: int)
    requires Sane(b)
    ensures MostLegs(b, actorDefault) >= 1
  {
  }

  lemma ReasonsAreFive(r: Option<Reason>)
    ensures r == None || r == Some(Cancelled) || r == Some(MaxDuration) || r == Some(TokenBudget)
            || r == Some(MaxIterations) || r == Some(AwaitingInfo)
  {
    if r.Some? {
      match r.value
      case Cancelled | MaxDuration | TokenBudget | MaxIterations | AwaitingInfo =>
    }
  }

  lemma PromptedIs(ts: seq<ConversationTurn>, prompt: Prompt, now: int, how: Closing)
    ensures Prompted(ts, prompt, now, how) == Bounded(Closed(ts + [UserTurn(prompt.text, prompt.blocks, now)], how))
  {
  }

  lemma TakenIs(ts: seq<ConversationTurn>, d: Done, category: ConversationTurn -> string)
    ensures Taken(ts, d, category) == if d.conversation != [] then Categorized(d.conversation, category)
                                      else if d.summary != "" then ts + [SummaryOf(d)] else ts
    ensures SummaryOf(d).category != ""
  {
  }

  function WithOutputDirNote(prompt: string, outputDir: string): string {
    if outputDir == "" then prompt
    else prompt + "\nReminder: save all result files into this exact directory (not the cwd): " + outputDir
  }

  function ReasonText(r: Option<Reason>): string {
    match r
    case None => ""
    case Some(Cancelled) => "cancelled"
    case Some(MaxDuration) => "max_duration"
    case Some(TokenBudget) => "max_tokens"
    case Some(MaxIterations) => "max_iterations"
    case Some(AwaitingInfo) => "awaiting_user_info"
  }
}
