/** What the actor puts into a session and what it sends on, in terms of the turns, the prompt and the
    budget's fields. */
module PromptLaws {
  import opened Basics
  import opened Sequences
  import opened Transcript
  import opened ToolPairing
  import opened SessionWindow
  import opened RunLoop
  import opened RunBudget
  import opened PromptActor

  // The window.

  /** Three hundred turns are kept; of more, the last two hundred. */
  function Oldest(n: nat): nat {
    if n > 300 then n - 200 else 0
  }

  /** The window begins with the first user turn among those kept, or with all of them if there is none. */
  ghost predicate BeginsAt(ts: seq<ConversationTurn>, from: nat) {
    && from <= |ts|
    && if exists k :: Oldest(|ts|) <= k < |ts| && ts[k].role == User
       then from < |ts| && Oldest(|ts|) <= from && ts[from].role == User && forall k :: Oldest(|ts|) <= k < from ==> ts[k].role != User
       else from == Oldest(|ts|)
  }

  lemma WindowIs(ts: seq<ConversationTurn>) returns (from: nat)
    ensures BeginsAt(ts, from) && Bounded(ts) == ts[from..]
  {
    var oldest := Oldest(|ts|);
    var w := Trimmed(ts);
    var n := LeadingNonUser(w);
    assert w == ts[oldest..];
    if n < |w| {
      from := oldest + n;
      DropDrop(ts, oldest, n);
      forall k | oldest <= k < from ensures ts[k].role != User {
        assert w[k - oldest] == ts[k];
      }
    } else {
      from := oldest;
      forall k | oldest <= k < |ts| ensures ts[k].role != User {
        assert w[k - oldest] == ts[k];
      }
    }
  }

  /** The turn a prompt becomes. */
  ghost predicate PromptTurn(prompt: Prompt, now: int, t: ConversationTurn) {
    t == ConversationTurn(User, prompt.text, prompt.blocks, [], "", false, "user", "", "", now, [], "", "", [])
  }

  /** A leg is started on the session's last turns and the prompt behind them, from a user turn on. */
  lemma PromptedEndsWithIt(ts: seq<ConversationTurn>, prompt: Prompt, now: int, how: Closing) returns (t: ConversationTurn, from: nat)
    ensures PromptTurn(prompt, now, t) && BeginsAt(ts + [t], from) && from < |ts + [t]| && (ts + [t])[from].role == User
    ensures Prompted(ts, prompt, now, how) == (ts + [t])[from..]
  {
    t := UserTurn(prompt.text, prompt.blocks, now);
    var all := ts + [t];
    assert all[|ts|] == t && |all| == |ts| + 1;
    EndsSpoken(ts, t);
    NothingToClose(all, how);
    PromptedIs(ts, prompt, now, how);
    hide Bounded, LastCaller, Prompted, Closed;
    from := WindowIs(all);
  }

  // What is put in.

  /** Without translation a prompt goes in as it is. With it, its text and the texts of its text blocks are
      translated, and nothing else of it changes. */
  lemma CleanIs(prompt: Prompt, sanitize: Option<string -> string>)
    ensures var p := Clean(prompt, sanitize);
            if sanitize.None? then p == prompt
            else
              && p.text == sanitize.value(prompt.text) && |p.blocks| == |prompt.blocks|
              && forall i :: 0 <= i < |p.blocks| ==>
                   var b := prompt.blocks[i];
                   p.blocks[i] == if b.kind == "text" && b.text != "" then ContentBlock("text", sanitize.value(b.text), b.source) else b
  {
  }

  /** A leg's transcript takes the session's place, with categories where they were missing; a leg without
      one adds its summary as an assistant turn; and one without either leaves the session as it was. */
  lemma TakenIsWhole(ts: seq<ConversationTurn>, d: Done, category: ConversationTurn -> string)
    ensures var out := Taken(ts, d, category);
            if d.conversation != [] then
              && |out| == |d.conversation|
              && forall i :: 0 <= i < |out| ==>
                   var t := d.conversation[i];
                   out[i] == if t.category == "" then t.(category := category(t)) else t
            else if d.summary != "" then
              out == ts + [ConversationTurn(Assistant, d.summary, [], [], "", false, "ai", "", "", 0, [], "", "", [])]
            else out == ts
  {
  }

  // What follows.

  const GO_ON := "Continue from where you stopped. Re-issue any tool call that was interrupted before completing the task."
  const INTO := "\nReminder: save all result files into this exact directory (not the cwd): "

  /** The text of a prompt the actor sends by itself: with a reminder of the directory, where one is set. */
  function Reminded(text: string, dir: string): string {
    text + if dir == "" then "" else INTO + dir
  }

  /** A queued prompt is sent on as it came; a resumed leg is told to go on; the closing leg is given the
      budget's closing prompt; and to rest is to send nothing. */
  lemma NextPromptIs(queued: Option<Prompt>, b: Budget)
    ensures NextPrompt(Queued, queued, b) == queued
    ensures NextPrompt(ByItself(Continue), queued, b) == Some(Prompt(Reminded(GO_ON, b.outputDir), []))
    ensures NextPrompt(ByItself(Finalize), queued, b) == Some(Prompt(Reminded(b.finalizerPrompt, b.outputDir), []))
    ensures NextPrompt(ByItself(Rest), queued, b) == None && NextPrompt(Ignored, queued, b) == None
  {
    Added(GO_ON, b.outputDir);
    Added(b.finalizerPrompt, b.outputDir);
  }

  lemma Added(text: string, dir: string)
    ensures WithOutputDirNote(text, dir) == Reminded(text, dir)
  {
    Assoc(text, INTO, dir);
    assert text + "" == text;
  }

  /** The reason a paused session shows is its own for each stop. */
  lemma ReasonsRead(r: Option<Reason>)
    ensures ReasonText(r) == "cancelled" <==> r == Some(Cancelled)
    ensures ReasonText(r) == "max_iterations" <==> r == Some(MaxIterations)
    ensures ReasonText(r) == "max_duration" <==> r == Some(MaxDuration)
    ensures ReasonText(r) == "max_tokens" <==> r == Some(TokenBudget)
    ensures ReasonText(r) == "awaiting_user_info" <==> r == Some(AwaitingInfo)
  {
    ReasonsAreFive(r);
    TextsDiffer();
  }

  lemma TextsDiffer()
    ensures "cancelled"[0] == 'c' && "max_iterations"[4] == 'i' && "max_duration"[4] == 'd' && "max_tokens"[4] == 't'
    ensures "awaiting_user_info"[0] == 'a'
  {
  }
}
