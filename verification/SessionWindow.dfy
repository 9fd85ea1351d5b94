/** The session's window of turns: closing calls an interrupt left open, and trimming the window
    without tearing a call from its results. */
module SessionWindow {
  import opened Sequences
  import opened Transcript
  import opened ToolPairing

  const CANCELLED_PREFIX := "[error kind=cancelled]"
  const CATEGORY_TOOL := "tool"
  const CATEGORY_USER := "user"
  const WINDOW := 200
  const WINDOW_HARD := 300

  /** What an invented result takes from outside the transcript: a note, a title per call, the time. */
  datatype Closing = Closing(note: string, title: ToolCallRequest -> string, now: int)

  function Interrupted(call: ToolCallRequest, how: Closing): ConversationTurn {
    BlankTurn(Tool).(content := CANCELLED_PREFIX + " " + how.note, toolCallId := call.id, isError := true,
                     category := CATEGORY_TOOL, origin := call.name, summary := how.title(call), timestampMs := how.now)
  }

  /** Where the last assistant turn stands if it issued calls and no user turn follows it; else -1. */
  function LastCaller(ts: seq<ConversationTurn>): (i: int)
    ensures -1 <= i < |ts|
    ensures i >= 0 ==> IsCaller(ts[i]) && forall k :: i < k < |ts| ==> ts[k].role != Assistant && ts[k].role != User
  {
    if ts == [] then -1
    else
      var t := ts[|ts| - 1];
      if t.role == Assistant then (if t.toolCalls != [] then |ts| - 1 else -1)
      else if t.role == User then -1
      else LastCaller(ts[..|ts| - 1])
  }

  /** The ids answered in the tail; a blank id answers nothing. */
  function Answered(tail: seq<ConversationTurn>): set<string> {
    set t | t in tail && t.role == Tool && t.toolCallId != "" :: t.toolCallId
  }

  function Invented(calls: seq<ToolCallRequest>, answered: set<string>, how: Closing): seq<ConversationTurn> {
    if calls == [] then []
    else (if calls[0].id in answered then [] else [Interrupted(calls[0], how)]) + Invented(calls[1..], answered, how)
  }

  function Closed(ts: seq<ConversationTurn>, how: Closing): seq<ConversationTurn> {
    var i := LastCaller(ts);
    if i < 0 then ts else ts + Invented(ts[i].toolCalls, Answered(ts[i + 1..]), how)
  }

  /** At most the last WINDOW turns once there are more than WINDOW_HARD, from the first user turn on. */
  function Bounded(ts: seq<ConversationTurn>): seq<ConversationTurn> {
    HealHead(Trimmed(ts))
  }

  function Trimmed(ts: seq<ConversationTurn>): seq<ConversationTurn> {
    if |ts| > WINDOW_HARD then ts[|ts| - WINDOW..] else ts
  }

  method FindLastCaller(turns: seq<ConversationTurn>) returns (lastAssistant: int)
    ensures lastAssistant == LastCaller(turns)
  {
    lastAssistant := -1;
    TakeAll(turns);
    var i := |turns| - 1;
    while i >= 0
      invariant -1 <= i < |turns|
      invariant LastCaller(turns) == LastCaller(turns[..i + 1])
    {
      assert turns[..i + 1][..i] == turns[..i];
      if turns[i].role == Assistant {
        if |turns[i].toolCalls| > 0 {
          lastAssistant := i;
        }
        return;
      }
      if turns[i].role == User {
        return;
      }
      i := i - 1;
    }
  }

  method CloseDanglingToolCalls(turns: seq<ConversationTurn>, how: Closing) returns (out: seq<ConversationTurn>)
    ensures out == Closed(turns, how)
  {
    var lastAssistant := FindLastCaller(turns);
    if lastAssistant < 0 {
      return turns;
    }
    var answered := AnsweredAfter(turns, lastAssistant + 1);
    var invented := InventResults(turns[lastAssistant].toolCalls, answered, how);
    return turns + invented;
  }

  method AnsweredAfter(turns: seq<ConversationTurn>, from: nat) returns (answered: set<string>)
    requires from <= |turns|
    ensures answered == Answered(turns[from..])
  {
    hide Answered;
    answered := {};
    NothingAnswered();
    assert turns[from..from] == [];
    for i := from to |turns|
      invariant answered == Answered(turns[from..i])
    {
      SliceSnoc(turns, from, i);
      AnsweredBy(turns[from..i], turns[i]);
      if turns[i].role == Tool && turns[i].toolCallId != "" {
        answered := answered + {turns[i].toolCallId};
      }
    }
    assert turns[from..|turns|] == turns[from..];
  }

  method InventResults(calls: seq<ToolCallRequest>, answered: set<string>, how: Closing) returns (out: seq<ConversationTurn>)
    ensures out == Invented(calls, answered, how)
  {
    out := [];
    for k := 0 to |calls|
      invariant Invented(calls, answered, how) == out + Invented(calls[k..], answered, how)
    {
      DropStep(calls, k);
      if calls[k].id in answered {
        continue;
      }
      Assoc(out, [Interrupted(calls[k], how)], Invented(calls[k + 1..], answered, how));
      out := out + [Interrupted(calls[k], how)];
    }
  }

  lemma NothingAnswered()
    ensures Answered([]) == {}
  {
  }

  lemma AnsweredBy(tail: seq<ConversationTurn>, t: ConversationTurn)
    ensures Answered(tail + [t]) == if t.role == Tool && t.toolCallId != "" then Answered(tail) + {t.toolCallId} else Answered(tail)
  {
  }

  // Pairing of prefixes, suffixes and concatenations.

  lemma {:induction false} PairedConcat(a: seq<ConversationTurn>, b: seq<ConversationTurn>)
    requires b == [] || b[0].role != Tool
    ensures Paired(a + b) <==> Paired(a) && Paired(b)
    decreases |a|
  {
    if a == [] {
      assert a + b == b;
    } else {
      var run, rest := SplitGroup(a);
      assert (a + b)[1..] == a[1..] + b;
      if IsCaller(a[0]) {
        Assoc(run, rest, b);
        assert rest + b == [] || (rest + b)[0].role != Tool;
        ToolRunConcat(run, rest + b);
        ToolRunConcat(run, rest);
        PairedConcat(rest, b);
      } else {
        PairedConcat(a[1..], b);
      }
    }
  }

  lemma PairedParts(ts: seq<ConversationTurn>, cut: nat)
    requires cut <= |ts| && (cut < |ts| ==> ts[cut].role != Tool)
    ensures Paired(ts) <==> Paired(ts[..cut]) && Paired(ts[cut..])
  {
    TakeDrop(ts, cut);
    PairedConcat(ts[..cut], ts[cut..]);
  }

  lemma PairedGroup(caller: ConversationTurn, run: seq<ConversationTurn>)
    requires IsCaller(caller) && AllTools(run)
    ensures Paired([caller] + run) <==> CallIds(caller.toolCalls) <= ResultIds(run)
  {
    ConsParts(caller, run);
    ToolRunConcat(run, []);
    TakeAll(run);
    assert run + [] == run;
  }

  lemma {:induction false} NoCallersNoTools(ts: seq<ConversationTurn>)
    requires Paired(ts) && forall t :: t in ts ==> !IsCaller(t)
    ensures forall t :: t in ts ==> t.role != Tool
  {
    if ts != [] {
      assert ts[0] in ts;
      NoCallersNoTools(ts[1..]);
    }
  }

  // Closing.

  lemma {:induction false} InventedAnswers(calls: seq<ToolCallRequest>, answered: set<string>, how: Closing)
    ensures AllTools(Invented(calls, answered, how))
    ensures ResultIds(Invented(calls, answered, how)) == CallIds(calls) - answered
    ensures forall t :: t in Invented(calls, answered, how) ==> t.isError && CANCELLED_PREFIX <= t.content
  {
    if calls != [] {
      InventedAnswers(calls[1..], answered, how);
      CallIdsCons(calls);
      var rest := Invented(calls[1..], answered, how);
      if calls[0].id !in answered {
        ResultIdsCons([Interrupted(calls[0], how)] + rest);
        ConsParts(Interrupted(calls[0], how), rest);
      } else {
        assert [] + rest == rest;
      }
    }
  }

  lemma {:induction false} LastCallerIs(ts: seq<ConversationTurn>, caller: ConversationTurn, tail: seq<ConversationTurn>)
    requires IsCaller(caller) && forall k :: 0 <= k < |tail| ==> tail[k].role != Assistant && tail[k].role != User
    ensures LastCaller(ts + ([caller] + tail)) == |ts|
    decreases |tail|
  {
    var all := ts + ([caller] + tail);
    if tail != [] {
      assert all[..|all| - 1] == ts + ([caller] + tail[..|tail| - 1]);
      LastCallerIs(ts, caller, tail[..|tail| - 1]);
    }
  }

  lemma AnsweredAmong(run: seq<ConversationTurn>)
    requires AllTools(run)
    ensures Answered(run) == ResultIds(run) - {""}
  {
  }

  lemma ResultIdsConcat(a: seq<ConversationTurn>, b: seq<ConversationTurn>)
    ensures ResultIds(a + b) == ResultIds(a) + ResultIds(b)
  {
  }

  lemma AllToolsConcat(a: seq<ConversationTurn>, b: seq<ConversationTurn>)
    requires AllTools(a) && AllTools(b)
    ensures AllTools(a + b)
  {
  }

  lemma ToolsAreNeither(run: seq<ConversationTurn>)
    requires AllTools(run)
    ensures forall k :: 0 <= k < |run| ==> run[k].role != Assistant && run[k].role != User
  {
  }

  /** A tool round stopped anywhere is closed into a paired transcript. */
  lemma ClosesRound(ts: seq<ConversationTurn>, caller: ConversationTurn, run: seq<ConversationTurn>, how: Closing)
    requires Paired(ts) && IsCaller(caller) && AllTools(run)
    ensures Paired(Closed(ts + ([caller] + run), how))
  {
    var all := ts + ([caller] + run);
    ToolsAreNeither(run);
    LastCallerIs(ts, caller, run);
    assert all[|ts|] == caller && all[|ts| + 1..] == run;
    var inv := Invented(caller.toolCalls, Answered(run), how);
    InventedAnswers(caller.toolCalls, Answered(run), how);
    AnsweredAmong(run);
    ResultIdsConcat(run, inv);
    AllToolsConcat(run, inv);
    PairedGroup(caller, run + inv);
    PairedConcat(ts, [caller] + (run + inv));
    Assoc([caller], run, inv);
    Assoc(ts, [caller] + run, inv);
  }

  /** The last calls include one with a blank id, and something else than results follows them. */
  ghost predicate Troubled(ts: seq<ConversationTurn>) {
    var i := LastCaller(ts);
    i >= 0 && "" in CallIds(ts[i].toolCalls) && !AllTools(ts[i + 1..])
  }

  /** Closing a paired transcript leaves it paired, except when a blank id is answered again behind
      a turn of another role. */
  lemma CloseKeepsPairedIff(ts: seq<ConversationTurn>, how: Closing)
    requires Paired(ts)
    ensures Paired(Closed(ts, how)) <==> !Troubled(ts)
  {
    var i := LastCaller(ts);
    if i >= 0 {
      var caller, tail := ts[i], ts[i + 1..];
      PairedParts(ts, i);
      DropStep(ts, i);
      Cons(ts[i..]);
      TakeDrop(ts, i);
      if AllTools(tail) {
        ClosesRound(ts[..i], caller, tail, how);
      } else {
        ForeignTail(ts, i, how);
      }
    }
  }

  /** A transcript that closing breaks: a call with a blank id, its result, and a turn of another role. */
  function BrokenByClosing(): seq<ConversationTurn> {
    [BlankTurn(Assistant).(toolCalls := [ToolCallRequest("", "", "")]), BlankTurn(Tool), BlankTurn(Other("note"))]
  }

  lemma ClosingCanBreak(how: Closing)
    ensures Paired(BrokenByClosing()) && Troubled(BrokenByClosing()) && !Paired(Closed(BrokenByClosing(), how))
  {
    var ts := BrokenByClosing();
    assert ts[1..] == [ts[1], ts[2]] && [ts[1], ts[2]][1..] == [ts[2]] && [ts[2]][1..] == [];
    assert ToolRun([ts[2]]) == 0 && ToolRun(ts[1..]) == 1;
    assert ts[1..][..1] == [ts[1]] && ts[1..][1..] == [ts[2]];
    assert Paired([ts[2]]);
    BlankAnswered(ts[0].toolCalls, ts[1]);
    assert Paired(ts);
    assert ts[..2] == [ts[0], ts[1]] && [ts[0], ts[1]][..1] == [ts[0]];
    assert LastCaller([ts[0]]) == 0 && LastCaller([ts[0], ts[1]]) == 0 && LastCaller(ts) == 0;
    assert ts[0].toolCalls[0] in ts[0].toolCalls;
    assert ts[0 + 1..][1].role != Tool;
    CloseKeepsPairedIff(ts, how);
  }

  lemma BlankAnswered(calls: seq<ToolCallRequest>, t: ConversationTurn)
    requires |calls| == 1 && calls[0].id == t.toolCallId
    ensures CallIds(calls) <= ResultIds([t])
  {
    assert [t][0] == t;
  }

  lemma ClosedIs(ts: seq<ConversationTurn>, how: Closing)
    ensures var i := LastCaller(ts);
            i < |ts| && Closed(ts, how) == if i < 0 then ts else ts + Invented(ts[i].toolCalls, Answered(ts[i + 1..]), how)
  {
    hide LastCaller, Invented, Answered;
  }

  lemma ForeignTail(ts: seq<ConversationTurn>, i: nat, how: Closing)
    requires Paired(ts) && i == LastCaller(ts) && !AllTools(ts[i + 1..])
    ensures Paired(Closed(ts, how)) <==> "" !in CallIds(ts[i].toolCalls)
  {
    hide *;
    ClosedIs(ts, how);
    var cut := FirstForeign(ts, i);
    var inv := Invented(ts[i].toolCalls, Answered(ts[i + 1..]), how);
    InventedForBlank(ts[i].toolCalls, ts[i + 1..], cut - i - 1, how);
    if inv != [] {
      StrayResults(ts, cut, inv);
    } else {
      assert ts + inv == ts;
    }
  }

  lemma InventedForBlank(calls: seq<ToolCallRequest>, tail: seq<ConversationTurn>, n: nat, how: Closing)
    requires n <= |tail| && AllTools(tail[..n]) && CallIds(calls) <= ResultIds(tail[..n])
    ensures var inv := Invented(calls, Answered(tail), how);
            AllTools(inv) && (inv == [] <==> "" !in CallIds(calls))
  {
    hide *;
    OnlyBlankIsLeft(calls, tail, n);
    InventedAnswers(calls, Answered(tail), how);
    NoResults(Invented(calls, Answered(tail), how));
  }

  /** The run of results behind the last calls answers them all and ends at a turn of another role. */
  lemma FirstForeign(ts: seq<ConversationTurn>, i: nat) returns (cut: nat)
    requires Paired(ts) && i == LastCaller(ts) && !AllTools(ts[i + 1..])
    ensures i < cut < |ts| && ts[cut].role != Tool && forall k :: cut <= k < |ts| ==> ts[k].role != Assistant
    ensures AllTools(ts[i + 1..][..cut - i - 1]) && CallIds(ts[i].toolCalls) <= ResultIds(ts[i + 1..][..cut - i - 1])
  {
    var tail := ts[i + 1..];
    var n := ToolRun(tail);
    TakeAll(tail);
    cut := i + 1 + n;
    PairedParts(ts, i);
    DropStep(ts, i);
    hide LastCaller, ResultIds, CallIds;
  }

  lemma OnlyBlankIsLeft(calls: seq<ToolCallRequest>, tail: seq<ConversationTurn>, n: nat)
    requires n <= |tail| && AllTools(tail[..n]) && CallIds(calls) <= ResultIds(tail[..n])
    ensures CallIds(calls) - Answered(tail) == {} <==> "" !in CallIds(calls)
  {
    hide AllTools, ResultIds, CallIds;
    AnsweredAmong(tail[..n]);
    AnsweredGrows(tail, n);
    assert forall id :: id in CallIds(calls) && id != "" ==> id in Answered(tail);
    assert "" in CallIds(calls) ==> "" in CallIds(calls) - Answered(tail);
  }

  lemma AnsweredGrows(tail: seq<ConversationTurn>, n: nat)
    requires n <= |tail|
    ensures Answered(tail[..n]) <= Answered(tail) && "" !in Answered(tail)
  {
  }

  lemma NoResults(run: seq<ConversationTurn>)
    ensures ResultIds(run) == {} <==> run == []
  {
    if run != [] {
      assert run[0].toolCallId in ResultIds(run);
    }
  }

  lemma StrayResults(ts: seq<ConversationTurn>, cut: nat, inv: seq<ConversationTurn>)
    requires cut < |ts| && ts[cut].role != Tool && inv != [] && AllTools(inv)
    requires forall k :: cut <= k < |ts| ==> ts[k].role != Assistant
    ensures !Paired(ts + inv)
  {
    var all := ts + inv;
    PairedParts(all, cut);
    var rest := all[cut..];
    assert rest[|ts| - cut] == inv[0];
    if Paired(rest) {
      NoCallersNoTools(rest);
    }
  }

  // The window.

  /** Trimming keeps the most recent turns: at most WINDOW_HARD of them, none changed. */
  lemma BoundedIsSuffix(ts: seq<ConversationTurn>)
    ensures |Bounded(ts)| <= WINDOW_HARD && |Bounded(ts)| <= |ts|
    ensures Bounded(ts) == ts[|ts| - |Bounded(ts)|..]
  {
    var w := Trimmed(ts);
    var n := LeadingNonUser(w);
    assert w == ts[|ts| - |w|..];
    if n < |w| {
      assert w[n..] == ts[|ts| - |w| + n..];
    }
  }

  /** A trimmed window is paired exactly when it holds a user turn, is empty, or does not begin
      within a tool round. */
  lemma BoundedPairedIff(ts: seq<ConversationTurn>)
    requires Paired(ts)
    ensures Paired(Bounded(ts)) <==>
            (exists t :: t in Trimmed(ts) && t.role == User) || Trimmed(ts) == [] || Trimmed(ts)[0].role != Tool
  {
    hide Paired, HealHead;
    var w := Trimmed(ts);
    var n := LeadingNonUser(w);
    if n < |w| {
      assert w[n] in w;
      TrimmedFromUser(ts, n);
    } else {
      NoUserAhead(w);
      if w != [] && w[0].role != Tool {
        PairedParts(ts, |ts| - |w|);
      } else {
        StartsTorn(w);
      }
    }
  }

  lemma TrimmedFromUser(ts: seq<ConversationTurn>, n: nat)
    requires Paired(ts) && n == LeadingNonUser(Trimmed(ts)) < |Trimmed(ts)|
    ensures Paired(HealHead(Trimmed(ts)))
  {
    TrimmedIsSuffix(ts);
    hide Paired, Trimmed;
    var from := |ts| - |Trimmed(ts)|;
    DropDrop(ts, from, n);
    PairedParts(ts, from + n);
  }

  lemma TrimmedIsSuffix(ts: seq<ConversationTurn>)
    ensures |Trimmed(ts)| <= |ts| && Trimmed(ts) == ts[|ts| - |Trimmed(ts)|..]
  {
  }

  lemma NoUserAhead(w: seq<ConversationTurn>)
    requires LeadingNonUser(w) == |w|
    ensures HealHead(w) == w && forall t :: t in w ==> t.role != User
  {
  }

  lemma StartsTorn(w: seq<ConversationTurn>)
    requires w == [] || w[0].role == Tool
    ensures Paired(w) <==> w == []
  {
  }

  // The session.

  function Categorized(ts: seq<ConversationTurn>, category: ConversationTurn -> string): seq<ConversationTurn> {
    seq(|ts|, i requires 0 <= i < |ts| => if ts[i].category == "" then ts[i].(category := category(ts[i])) else ts[i])
  }

  lemma {:induction false} CategorizedPaired(ts: seq<ConversationTurn>, category: ConversationTurn -> string)
    ensures Paired(Categorized(ts, category)) <==> Paired(ts)
    decreases |ts|
  {
    var cs := Categorized(ts, category);
    if ts != [] {
      assert cs[1..] == Categorized(ts[1..], category);
      if IsCaller(ts[0]) {
        CategorizedRun(ts[1..], category);
        var n := ToolRun(ts[1..]);
        CategorizedIds(ts[1..][..n], category);
        assert cs[1..][..n] == Categorized(ts[1..][..n], category);
        assert cs[1..][n..] == Categorized(ts[1..][n..], category);
        CategorizedPaired(ts[1..][n..], category);
      } else {
        CategorizedPaired(ts[1..], category);
      }
    }
  }

  lemma {:induction false} CategorizedRun(ts: seq<ConversationTurn>, category: ConversationTurn -> string)
    ensures ToolRun(Categorized(ts, category)) == ToolRun(ts)
  {
    if ts != [] && ts[0].role == Tool {
      assert Categorized(ts, category)[1..] == Categorized(ts[1..], category);
      CategorizedRun(ts[1..], category);
    }
  }

  lemma CategorizedIds(run: seq<ConversationTurn>, category: ConversationTurn -> string)
    ensures ResultIds(Categorized(run, category)) == ResultIds(run)
  {
    var cs := Categorized(run, category);
    forall id | id in ResultIds(run) ensures id in ResultIds(cs) {
      var k :| 0 <= k < |run| && run[k].toolCallId == id;
      assert cs[k] in cs;
    }
    forall id | id in ResultIds(cs) ensures id in ResultIds(run) {
      var k :| 0 <= k < |cs| && cs[k].toolCallId == id;
      assert run[k] in run;
    }
  }

  function UserTurn(content: string, blocks: seq<ContentBlock>, now: int): ConversationTurn {
    BlankTurn(User).(content := content, contentBlocks := blocks, category := CATEGORY_USER, timestampMs := now)
  }

  class SessionMemory {
    var turns: seq<ConversationTurn>
    var paused: bool
    var pausedReason: string

    constructor ()
      ensures turns == [] && !paused && pausedReason == ""
    {
      turns, paused, pausedReason := [], false, "";
    }

    method Append(t: ConversationTurn, category: ConversationTurn -> string)
      modifies `turns
      ensures turns == old(turns) + [if t.category == "" then t.(category := category(t)) else t]
    {
      var turn := t;
      if turn.category == "" {
        turn := turn.(category := category(turn));
      }
      turns := turns + [turn];
    }

    method AppendUserTurn(content: string, blocks: seq<ContentBlock>, now: int)
      modifies `turns
      ensures turns == old(turns) + [UserTurn(content, blocks, now)]
    {
      turns := turns + [UserTurn(content, blocks, now)];
    }

    /** Swaps the whole conversation, filling in missing categories. */
    method Replace(ts: seq<ConversationTurn>, category: ConversationTurn -> string)
      modifies `turns
      ensures turns == Categorized(ts, category) && (Paired(ts) ==> Paired(turns))
    {
      var out: seq<ConversationTurn> := [];
      for i := 0 to |ts|
        invariant |out| == i && forall k :: 0 <= k < i ==> out[k] == Categorized(ts, category)[k]
      {
        var t := ts[i];
        if t.category == "" {
          t := t.(category := category(t));
        }
        out := out + [t];
      }
      turns := out;
      assert out == Categorized(ts, category);
      CategorizedPaired(ts, category);
    }

    /** Closes what an interrupt left open and trims the window. */
    method Bound(how: Closing)
      modifies `turns
      ensures turns == Bounded(Closed(old(turns), how)) && |turns| <= WINDOW_HARD
      ensures var w := Trimmed(Closed(old(turns), how));
              Paired(old(turns)) && !Troubled(old(turns)) ==>
                (Paired(turns) <==> (exists t :: t in w && t.role == User) || w == [] || w[0].role != Tool)
    {
      var closed := CloseDanglingToolCalls(turns, how);
      if Paired(turns) && !Troubled(turns) {
        CloseKeepsPairedIff(turns, how);
        BoundedPairedIff(closed);
      }
      BoundedIsSuffix(closed);
      turns := BoundConversation(closed);
    }

    method Pause(reason: string)
      modifies `paused, `pausedReason
      ensures paused && pausedReason == reason
    {
      paused, pausedReason := true, reason;
    }

    method ClearPause()
      modifies `paused, `pausedReason
      ensures !paused && pausedReason == ""
    {
      paused, pausedReason := false, "";
    }
  }

  method BoundConversation(turns: seq<ConversationTurn>) returns (out: seq<ConversationTurn>)
    ensures out == Bounded(turns)
  {
    out := turns;
    if |out| > WINDOW_HARD {
      out := out[|out| - WINDOW..];
    }
    out := HealConversationHead(out);
  }
}
