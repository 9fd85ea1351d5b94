/** What healing makes of a transcript, group by group and index by index, and what closing invents. */
module PairingLaws {
  import opened Sequences
  import opened Transcript
  import opened ToolPairing
  import opened SessionWindow

  ghost predicate Rising(js: seq<int>) {
    forall m, n :: 0 <= m < n < |js| ==> js[m] < js[n]
  }

  lemma RisingOn(js: seq<int>, top: int)
    requires Rising(js) && forall m :: 0 <= m < |js| ==> js[m] < top
    ensures Rising(js + [top])
  {
  }

  // The results of a run that healing keeps.

  /** The turn answers one of the calls, and no turn before it in the run does. */
  ghost predicate FirstAnswer(run: seq<ConversationTurn>, calls: seq<ToolCallRequest>, j: int) {
    && 0 <= j < |run| && (exists i :: 0 <= i < |calls| && calls[i].id == run[j].toolCallId)
    && forall k :: 0 <= k < j ==> run[k].toolCallId != run[j].toolCallId
  }

  /** Just the first answers, in their order. */
  ghost predicate KeepsFirst(run: seq<ConversationTurn>, calls: seq<ToolCallRequest>, js: seq<int>, kept: seq<ConversationTurn>) {
    && Rising(js) && |kept| == |js|
    && (forall m :: 0 <= m < |js| ==> FirstAnswer(run, calls, js[m]) && kept[m] == run[js[m]])
    && (forall j :: FirstAnswer(run, calls, j) ==> j in js)
  }

  lemma IdIn(calls: seq<ToolCallRequest>, id: string)
    ensures id in CallIds(calls) <==> exists i :: 0 <= i < |calls| && calls[i].id == id
  {
    if id in CallIds(calls) {
      var c :| c in calls && c.id == id;
      var i :| 0 <= i < |calls| && calls[i] == c;
    }
  }

  lemma ResultIn(run: seq<ConversationTurn>, id: string)
    ensures id in ResultIds(run) <==> exists k :: 0 <= k < |run| && run[k].toolCallId == id
  {
    if id in ResultIds(run) {
      var t :| t in run && t.toolCallId == id;
      var k :| 0 <= k < |run| && run[k] == t;
    }
  }

  lemma FirstAnswerSnoc(run: seq<ConversationTurn>, t: ConversationTurn, calls: seq<ToolCallRequest>, j: int)
    requires j < |run|
    ensures FirstAnswer(run + [t], calls, j) <==> FirstAnswer(run, calls, j)
  {
    assert forall k :: 0 <= k < |run| ==> (run + [t])[k] == run[k];
  }

  lemma LastIsFirst(run: seq<ConversationTurn>, t: ConversationTurn, calls: seq<ToolCallRequest>)
    ensures FirstAnswer(run + [t], calls, |run|) <==> t.toolCallId in CallIds(calls) && t.toolCallId !in ResultIds(run)
  {
    IdIn(calls, t.toolCallId);
    ResultIn(run, t.toolCallId);
    assert forall k :: 0 <= k < |run| ==> (run + [t])[k] == run[k];
    assert (run + [t])[|run|] == t;
  }

  lemma {:induction false} KeptIs(run: seq<ConversationTurn>, calls: seq<ToolCallRequest>) returns (js: seq<int>)
    ensures KeepsFirst(run, calls, js, Kept(run, CallIds(calls), {}))
  {
    hide Kept, ResultIds, CallIds, FirstAnswer, KeepsFirst;
    js := [];
    if run == [] {
      NobodyAnswers(calls);
    } else {
      var n := |run| - 1;
      var init, t := run[..n], run[n];
      assert run == init + [t];
      var older := KeptIs(init, calls);
      KeptSnoc(init, t, CallIds(calls), {});
      LastIsFirst(init, t, calls);
      js := if FirstAnswer(run, calls, n) then older + [n] else older;
      OneMoreKept(init, t, calls, older, Kept(init, CallIds(calls), {}));
      assert Kept(init, CallIds(calls), {}) + [] == Kept(init, CallIds(calls), {});
    }
  }

  lemma OneMoreKept(run: seq<ConversationTurn>, t: ConversationTurn, calls: seq<ToolCallRequest>, js: seq<int>, kept: seq<ConversationTurn>)
    requires KeepsFirst(run, calls, js, kept)
    ensures if FirstAnswer(run + [t], calls, |run|) then KeepsFirst(run + [t], calls, js + [|run|], kept + [t])
            else KeepsFirst(run + [t], calls, js, kept)
  {
    hide FirstAnswer, Rising;
    Within(run, calls, js);
    RisingOn(js, |run|);
    forall m | 0 <= m < |js| ensures FirstAnswer(run + [t], calls, js[m]) && kept[m] == (run + [t])[js[m]] {
      FirstAnswerSnoc(run, t, calls, js[m]);
    }
    AllListed(run, t, calls, js);
  }

  lemma AllListed(run: seq<ConversationTurn>, t: ConversationTurn, calls: seq<ToolCallRequest>, js: seq<int>)
    requires forall j :: FirstAnswer(run, calls, j) ==> j in js
    ensures forall j :: FirstAnswer(run + [t], calls, j) ==> j in js || j == |run|
    ensures forall j :: FirstAnswer(run + [t], calls, j) ==> j in js + [|run|]
  {
    forall j | FirstAnswer(run + [t], calls, j) ensures j in js || j == |run| {
      if j < |run| {
        FirstAnswerSnoc(run, t, calls, j);
      }
    }
  }

  lemma NobodyAnswers(calls: seq<ToolCallRequest>)
    ensures KeepsFirst([], calls, [], Kept([], CallIds(calls), {}))
  {
  }

  lemma Within(run: seq<ConversationTurn>, calls: seq<ToolCallRequest>, js: seq<int>)
    requires forall m :: 0 <= m < |js| ==> FirstAnswer(run, calls, js[m])
    ensures forall m :: 0 <= m < |js| ==> 0 <= js[m] < |run|
  {
  }

  // The results that are invented.

  /** Just the calls whose ids are not among the given, in their order. */
  ghost predicate LeavesOut(calls: seq<ToolCallRequest>, answered: set<string>, js: seq<int>) {
    && Rising(js) && (forall m :: 0 <= m < |js| ==> 0 <= js[m] < |calls| && calls[js[m]].id !in answered)
    && (forall j :: 0 <= j < |calls| && calls[j].id !in answered ==> j in js)
  }

  function Shifted(js: seq<int>): (ks: seq<int>)
    ensures |ks| == |js| && forall m :: 0 <= m < |js| ==> ks[m] == js[m] + 1
  {
    seq(|js|, m requires 0 <= m < |js| => js[m] + 1)
  }

  lemma LeavesOutCons(calls: seq<ToolCallRequest>, answered: set<string>, js: seq<int>)
    requires calls != [] && LeavesOut(calls[1..], answered, js)
    ensures LeavesOut(calls, answered, (if calls[0].id in answered then [] else [0]) + Shifted(js))
  {
    var ks := (if calls[0].id in answered then [] else [0]) + Shifted(js);
    forall j | 0 <= j < |calls| && calls[j].id !in answered ensures j in ks {
      if j > 0 {
        assert calls[1..][j - 1] == calls[j];
        var m :| 0 <= m < |js| && js[m] == j - 1;
        assert Shifted(js)[m] == j;
      }
    }
  }

  /** The turn that healing puts in for a call without a result. */
  ghost predicate StandsIn(owner: ConversationTurn, call: ToolCallRequest, t: ConversationTurn) {
    t == ConversationTurn(Tool, HEALED_NOTE, [], [], call.id, true, "system", "", "", owner.timestampMs, [], "", "", [])
  }

  lemma {:induction false} MissingIs(owner: ConversationTurn, calls: seq<ToolCallRequest>, answered: set<string>) returns (js: seq<int>)
    ensures LeavesOut(calls, answered, js) && |Missing(owner, calls, answered)| == |js|
    ensures forall m :: 0 <= m < |js| ==> StandsIn(owner, calls[js[m]], Missing(owner, calls, answered)[m])
  {
    hide StandsIn, LeavesOut, Missing;
    if calls == [] {
      js := [];
      NoneMissing(owner, answered);
    } else {
      var later := MissingIs(owner, calls[1..], answered);
      LeavesOutCons(calls, answered, later);
      js := (if calls[0].id in answered then [] else [0]) + Shifted(later);
      InRange(calls, answered, js);
      InRange(calls[1..], answered, later);
      MissingCons(owner, calls, answered);
      forall m | 0 <= m < |js| ensures StandsIn(owner, calls[js[m]], Missing(owner, calls, answered)[m]) {
        if calls[0].id in answered {
          assert calls[1..][later[m]] == calls[js[m]];
        } else if m > 0 {
          assert calls[1..][later[m - 1]] == calls[js[m]];
        }
      }
    }
  }

  lemma NoneMissing(owner: ConversationTurn, answered: set<string>)
    ensures LeavesOut([], answered, []) && Missing(owner, [], answered) == []
  {
  }

  lemma InRange(calls: seq<ToolCallRequest>, answered: set<string>, js: seq<int>)
    requires LeavesOut(calls, answered, js)
    ensures forall m :: 0 <= m < |js| ==> 0 <= js[m] < |calls|
  {
  }

  lemma MissingCons(owner: ConversationTurn, calls: seq<ToolCallRequest>, answered: set<string>)
    requires calls != []
    ensures var rest := Missing(owner, calls[1..], answered);
            if calls[0].id in answered then Missing(owner, calls, answered) == rest
            else |Missing(owner, calls, answered)| == 1 + |rest| && Missing(owner, calls, answered)[1..] == rest
                 && StandsIn(owner, calls[0], Missing(owner, calls, answered)[0])
  {
  }

  // Healing.

  /** What stands behind a caller once healed: of its own results the first for each call, in their order,
      then an error for each call that none of them answers, in the order of the calls. */
  ghost predicate HealsTo(owner: ConversationTurn, run: seq<ConversationTurn>, healed: seq<ConversationTurn>) {
    exists js, ks, kept :: KeepsFirst(run, owner.toolCalls, js, kept) && LeavesOut(owner.toolCalls, AnswersIn(run), ks)
                     && |healed| == |kept| + |ks| && kept <= healed
                     && forall m :: 0 <= m < |ks| ==> StandsIn(owner, owner.toolCalls[ks[m]], healed[|kept| + m])
  }

  ghost function AnswersIn(run: seq<ConversationTurn>): set<string> {
    set k | 0 <= k < |run| :: run[k].toolCallId
  }

  lemma AnsweredSame(run: seq<ConversationTurn>, calls: seq<ToolCallRequest>, js: seq<int>)
    requires LeavesOut(calls, CallIds(calls) * ResultIds(run), js)
    ensures LeavesOut(calls, AnswersIn(run), js)
  {
    forall j | 0 <= j < |calls| ensures calls[j].id in CallIds(calls) * ResultIds(run) <==> calls[j].id in AnswersIn(run) {
      assert calls[j] in calls;
      ResultIn(run, calls[j].id);
    }
  }

  lemma RunHealsTo(owner: ConversationTurn, run: seq<ConversationTurn>)
    ensures HealsTo(owner, run, HealedRun(owner, run))
  {
    hide KeepsFirst, LeavesOut, StandsIn, Kept, Missing, ResultIds, CallIds, AnswersIn;
    var calls := owner.toolCalls;
    var js := KeptIs(run, calls);
    var ks := MissingIs(owner, calls, CallIds(calls) * ResultIds(run));
    AnsweredSame(run, calls, ks);
    InRange(calls, AnswersIn(run), ks);
    var kept, missing := Kept(run, CallIds(calls), {}), Missing(owner, calls, CallIds(calls) * ResultIds(run));
    var healed := kept + missing;
    assert forall m :: 0 <= m < |ks| ==> healed[|kept| + m] == missing[m];
    assert HealedRun(owner, run) == healed;
  }

  lemma {:induction false} HealsApart(a: seq<ConversationTurn>, b: seq<ConversationTurn>)
    requires b == [] || b[0].role != Tool
    ensures HealPairing(a + b) == HealPairing(a) + HealPairing(b)
    decreases |a|
  {
    hide HealedRun;
    if a == [] {
      assert a + b == b;
      assert [] + HealPairing(b) == HealPairing(b);
    } else if IsCaller(a[0]) {
      var run, rest := SplitGroup(a);
      assert (a + b)[1..] == a[1..] + b;
      Assoc(run, rest, b);
      ToolRunConcat(run, rest + b);
      ToolRunConcat(run, rest);
      HealsApart(rest, b);
      Assoc([a[0]] + HealedRun(a[0], run), HealPairing(rest), HealPairing(b));
    } else {
      assert (a + b)[1..] == a[1..] + b;
      HealsApart(a[1..], b);
      Assoc([a[0]], HealPairing(a[1..]), HealPairing(b));
    }
  }

  lemma {:induction false} StraysGo(run: seq<ConversationTurn>)
    requires AllTools(run)
    ensures HealPairing(run) == []
  {
    if run != [] {
      StraysGo(run[1..]);
    }
  }

  /** A transcript heals stretch by stretch: where another stretch begins with a turn that is no result,
      the two heal apart; a caller with the results behind it heals as above; any other turn is kept and
      the results behind it go; and results behind nothing go. */
  lemma HealsByStretches(a: seq<ConversationTurn>, b: seq<ConversationTurn>, t: ConversationTurn, run: seq<ConversationTurn>)
    requires AllTools(run) && (b == [] || b[0].role != Tool) && t.role != Tool
    ensures HealPairing(a + b) == HealPairing(a) + HealPairing(b)
    ensures HealPairing(run) == []
    ensures var healed := HealPairing([t] + run);
            && healed != [] && healed[0] == t
            && if t.role == Assistant && t.toolCalls != [] then HealsTo(t, run, healed[1..]) else healed[1..] == []
  {
    HealsApart(a, b);
    StraysGo(run);
    OneHeals(t, run);
  }

  lemma OneHeals(t: ConversationTurn, run: seq<ConversationTurn>)
    requires AllTools(run) && t.role != Tool
    ensures var healed := HealPairing([t] + run);
            && healed != [] && healed[0] == t
            && if t.role == Assistant && t.toolCalls != [] then HealsTo(t, run, healed[1..]) else healed[1..] == []
  {
    hide HealsTo, HealedRun;
    ConsParts(t, run);
    StraysGo(run);
    if IsCaller(t) {
      CallerHeals(t, run);
      RunHealsTo(t, run);
      ConsParts(t, HealedRun(t, run));
    }
  }

  lemma CallerHeals(t: ConversationTurn, run: seq<ConversationTurn>)
    requires AllTools(run) && IsCaller(t)
    ensures HealPairing([t] + run) == [t] + HealedRun(t, run)
  {
    hide HealedRun;
    ConsParts(t, run);
    ToolRunConcat(run, []);
    assert run + [] == run;
    assert [t] + HealedRun(t, run) + [] == [t] + HealedRun(t, run);
  }

  // The report.

  /** The calls left unanswered, in their order. */
  ghost predicate ReportsUnanswered(owner: ConversationTurn, run: seq<ConversationTurn>, found: seq<Violation>) {
    exists js :: LeavesOut(owner.toolCalls, AnswersIn(run), js) && |found| == |js|
             && forall m :: 0 <= m < |js| ==> found[m] == Violation.Unanswered(owner.toolCalls[js[m]].id)
  }

  lemma {:induction false} UnansweredAre(calls: seq<ToolCallRequest>, answered: set<string>) returns (js: seq<int>)
    ensures LeavesOut(calls, answered, js) && |UnansweredCalls(calls, answered)| == |js|
    ensures forall m :: 0 <= m < |js| ==> UnansweredCalls(calls, answered)[m] == Violation.Unanswered(calls[js[m]].id)
  {
    hide LeavesOut;
    if calls == [] {
      js := [];
      assert LeavesOut([], answered, []) by { NoneLeftOut(answered); }
    } else {
      var later := UnansweredAre(calls[1..], answered);
      LeavesOutCons(calls, answered, later);
      js := (if calls[0].id in answered then [] else [0]) + Shifted(later);
      InRange(calls, answered, js);
      InRange(calls[1..], answered, later);
      forall m | 0 <= m < |js| ensures UnansweredCalls(calls, answered)[m] == Violation.Unanswered(calls[js[m]].id) {
        if calls[0].id in answered {
          assert calls[1..][later[m]] == calls[js[m]];
        } else if m > 0 {
          assert calls[1..][later[m - 1]] == calls[js[m]];
        }
      }
    }
  }

  lemma NoneLeftOut(answered: set<string>)
    ensures LeavesOut([], answered, [])
  {
  }

  lemma {:induction false} StraysReported(run: seq<ConversationTurn>)
    requires AllTools(run)
    ensures |Violations(run)| == |run| && forall k :: 0 <= k < |run| ==> Violations(run)[k] == Orphaned(run[k].toolCallId)
  {
    if run != [] {
      StraysReported(run[1..]);
    }
  }

  lemma {:induction false} ReportsApart(a: seq<ConversationTurn>, b: seq<ConversationTurn>)
    requires b == [] || b[0].role != Tool
    ensures Violations(a + b) == Violations(a) + Violations(b)
    decreases |a|
  {
    hide UnansweredCalls, ResultIds;
    if a == [] {
      assert a + b == b;
      assert [] + Violations(b) == Violations(b);
    } else if IsCaller(a[0]) {
      var run, rest := SplitGroup(a);
      assert (a + b)[1..] == a[1..] + b;
      Assoc(run, rest, b);
      ToolRunConcat(run, rest + b);
      ToolRunConcat(run, rest);
      ReportsApart(rest, b);
      Assoc(UnansweredCalls(a[0].toolCalls, ResultIds(run)), Violations(rest), Violations(b));
    } else {
      assert (a + b)[1..] == a[1..] + b;
      ReportsApart(a[1..], b);
      if a[0].role == Tool {
        Assoc([Orphaned(a[0].toolCallId)], Violations(a[1..]), Violations(b));
      }
    }
  }

  /** The report, stretch by stretch: of a caller the calls that no result behind it answers, in their order;
      of results behind any other turn, or behind none, every one, in their order. */
  lemma ReportsByStretches(a: seq<ConversationTurn>, b: seq<ConversationTurn>, t: ConversationTurn, run: seq<ConversationTurn>)
    requires AllTools(run) && (b == [] || b[0].role != Tool) && t.role != Tool
    ensures Violations(a + b) == Violations(a) + Violations(b)
    ensures |Violations(run)| == |run| && forall k :: 0 <= k < |run| ==> Violations(run)[k] == Orphaned(run[k].toolCallId)
    ensures if t.role == Assistant && t.toolCalls != [] then ReportsUnanswered(t, run, Violations([t] + run))
            else Violations([t] + run) == Violations(run)
  {
    ReportsApart(a, b);
    StraysReported(run);
    OneReported(t, run);
  }

  lemma OneReported(t: ConversationTurn, run: seq<ConversationTurn>)
    requires AllTools(run) && t.role != Tool
    ensures if t.role == Assistant && t.toolCalls != [] then ReportsUnanswered(t, run, Violations([t] + run))
            else Violations([t] + run) == Violations(run)
  {
    hide LeavesOut, UnansweredCalls;
    ConsParts(t, run);
    if IsCaller(t) {
      ToolRunConcat(run, []);
      assert run + [] == run;
      assert Violations([t] + run) == UnansweredCalls(t.toolCalls, ResultIds(run));
      SameAnswers(run);
      var js := UnansweredAre(t.toolCalls, ResultIds(run));
    }
  }

  lemma SameAnswers(run: seq<ConversationTurn>)
    ensures ResultIds(run) == AnswersIn(run)
  {
    forall id ensures id in ResultIds(run) <==> id in AnswersIn(run) {
      ResultIn(run, id);
    }
  }

  // Closing.

  /** The turn issued calls, and nobody has spoken since. */
  ghost predicate OpenAt(ts: seq<ConversationTurn>, i: int) {
    && 0 <= i < |ts| && ts[i].role == Assistant && ts[i].toolCalls != []
    && forall k :: i < k < |ts| ==> ts[k].role != Assistant && ts[k].role != User
  }

  ghost predicate AnswerBehind(ts: seq<ConversationTurn>, i: int, id: string) {
    id != "" && exists k :: 0 <= i < k < |ts| && ts[k].role == Tool && ts[k].toolCallId == id
  }

  /** The turn that closing puts in for a call the interrupt cut off. */
  ghost predicate CutOff(call: ToolCallRequest, how: Closing, t: ConversationTurn) {
    t == ConversationTurn(Tool, "[error kind=cancelled] " + how.note, [], [], call.id, true, "tool", call.name,
                          how.title(call), how.now, [], "", "", [])
  }

  ghost predicate Unanswered(ts: seq<ConversationTurn>, i: int, j: int) {
    0 <= i < |ts| && 0 <= j < |ts[i].toolCalls| && !AnswerBehind(ts, i, ts[i].toolCalls[j].id)
  }

  ghost predicate ClosesWith(ts: seq<ConversationTurn>, i: int, js: seq<int>, added: seq<ConversationTurn>, how: Closing) {
    && Rising(js) && |added| == |js|
    && (forall m :: 0 <= m < |js| ==> Unanswered(ts, i, js[m]) && CutOff(ts[i].toolCalls[js[m]], how, added[m]))
    && (forall j :: Unanswered(ts, i, j) ==> j in js)
  }

  lemma LastCallerIff(ts: seq<ConversationTurn>, i: int)
    ensures OpenAt(ts, i) <==> i == LastCaller(ts) && i >= 0
  {
    if OpenAt(ts, i) {
      LastCallerIs(ts[..i], ts[i], ts[i + 1..]);
      DropStep(ts, i);
      Cons(ts[i..]);
      TakeDrop(ts, i);
    }
  }

  lemma AnsweredIs(ts: seq<ConversationTurn>, i: nat, id: string)
    requires i < |ts|
    ensures id in Answered(ts[i + 1..]) <==> AnswerBehind(ts, i, id)
  {
    var tail := ts[i + 1..];
    if id in Answered(tail) {
      var k :| 0 <= k < |tail| && tail[k].role == Tool && tail[k].toolCallId == id;
      assert ts[i + 1 + k] == tail[k];
    }
    if AnswerBehind(ts, i, id) {
      var k :| i < k < |ts| && ts[k].role == Tool && ts[k].toolCallId == id;
      assert tail[k - i - 1] == ts[k];
    }
  }

  lemma {:induction false} InventedIs(calls: seq<ToolCallRequest>, answered: set<string>, how: Closing) returns (js: seq<int>)
    ensures LeavesOut(calls, answered, js) && |Invented(calls, answered, how)| == |js|
    ensures forall m :: 0 <= m < |js| ==> CutOff(calls[js[m]], how, Invented(calls, answered, how)[m])
  {
    hide CutOff, LeavesOut, Invented;
    if calls == [] {
      js := [];
      NoneInvented(answered, how);
    } else {
      var later := InventedIs(calls[1..], answered, how);
      LeavesOutCons(calls, answered, later);
      js := (if calls[0].id in answered then [] else [0]) + Shifted(later);
      InRange(calls, answered, js);
      InRange(calls[1..], answered, later);
      InventedCons(calls, answered, how);
      forall m | 0 <= m < |js| ensures CutOff(calls[js[m]], how, Invented(calls, answered, how)[m]) {
        if calls[0].id in answered {
          assert calls[1..][later[m]] == calls[js[m]];
        } else if m > 0 {
          assert calls[1..][later[m - 1]] == calls[js[m]];
        }
      }
    }
  }

  lemma NoneInvented(answered: set<string>, how: Closing)
    ensures LeavesOut([], answered, []) && Invented([], answered, how) == []
  {
  }

  lemma InventedCons(calls: seq<ToolCallRequest>, answered: set<string>, how: Closing)
    requires calls != []
    ensures var all, rest := Invented(calls, answered, how), Invented(calls[1..], answered, how);
            if calls[0].id in answered then all == rest
            else |all| == 1 + |rest| && all[1..] == rest && CutOff(calls[0], how, all[0])
  {
  }

  lemma LeavesOutIsUnanswered(ts: seq<ConversationTurn>, i: nat, js: seq<int>)
    requires i < |ts| && LeavesOut(ts[i].toolCalls, Answered(ts[i + 1..]), js)
    ensures Rising(js) && (forall m :: 0 <= m < |js| ==> Unanswered(ts, i, js[m])) && forall j :: Unanswered(ts, i, j) ==> j in js
  {
    hide AnswerBehind, Answered;
    forall j | 0 <= j < |ts[i].toolCalls|
      ensures Unanswered(ts, i, j) <==> ts[i].toolCalls[j].id !in Answered(ts[i + 1..])
    {
      AnsweredIs(ts, i, ts[i].toolCalls[j].id);
    }
  }

  /** Closing leaves a transcript as it is unless its last calls are still open; then it adds a marked error for
      each of those calls that no result behind them answers, in the order of the calls, and nothing else. */
  lemma ClosesWhatIsOpen(ts: seq<ConversationTurn>, how: Closing) returns (i: int, js: seq<int>, added: seq<ConversationTurn>)
    ensures Closed(ts, how) == ts + added
    ensures if exists n :: OpenAt(ts, n) then OpenAt(ts, i) && ClosesWith(ts, i, js, added, how) else added == []
  {
    hide LastCaller, Invented, Answered, OpenAt, Unanswered, LeavesOut, CutOff;
    i, js, added := LastCaller(ts), [], [];
    ClosedIs(ts, how);
    LastCallerIff(ts, i);
    if i >= 0 {
      js := InventedIs(ts[i].toolCalls, Answered(ts[i + 1..]), how);
      added := Invented(ts[i].toolCalls, Answered(ts[i + 1..]), how);
      LeavesOutIsUnanswered(ts, i, js);
    } else {
      assert ts + [] == ts;
      forall n ensures !OpenAt(ts, n) {
        LastCallerIff(ts, n);
      }
    }
  }
}
