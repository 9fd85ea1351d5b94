/** Tool-call / tool-result pairing of a shim transcript: the healer that every
    Claude request passes through, the validator, and what healing guarantees. */
module ToolPairing {
  import opened Sequences
  import opened Transcript

  const HEALED_NOTE :=
    "[error kind=unavailable] result missing — the run was interrupted or earlier history was compacted; re-issue the call if still needed"
  const CATEGORY_SYSTEM := "system"

  /** The error result invented for a call whose real result is missing. */
  function Synthesized(owner: ConversationTurn, callId: string): ConversationTurn {
    BlankTurn(Tool).(toolCallId := callId, content := HEALED_NOTE, isError := true,
                     category := CATEGORY_SYSTEM, timestampMs := owner.timestampMs)
  }

  // What healing means, group by group.

  /** The results of a run that answer a wanted call for the first time. */
  function Kept(run: seq<ConversationTurn>, wanted: set<string>, answered: set<string>): seq<ConversationTurn> {
    if run == [] then []
    else if run[0].toolCallId in wanted && run[0].toolCallId !in answered then
      [run[0]] + Kept(run[1..], wanted, answered + {run[0].toolCallId})
    else Kept(run[1..], wanted, answered)
  }

  /** One invented result per call that no result answered, in call order. */
  function Missing(owner: ConversationTurn, calls: seq<ToolCallRequest>, answered: set<string>): seq<ConversationTurn> {
    if calls == [] then []
    else if calls[0].id in answered then Missing(owner, calls[1..], answered)
    else [Synthesized(owner, calls[0].id)] + Missing(owner, calls[1..], answered)
  }

  /** The tool turns a caller is followed by after healing. */
  function HealedRun(owner: ConversationTurn, run: seq<ConversationTurn>): seq<ConversationTurn> {
    var wanted := CallIds(owner.toolCalls);
    Kept(run, wanted, {}) + Missing(owner, owner.toolCalls, wanted * ResultIds(run))
  }

  function HealPairing(ts: seq<ConversationTurn>): seq<ConversationTurn>
    decreases |ts|
  {
    if ts == [] then []
    else if IsCaller(ts[0]) then
      var n := ToolRun(ts[1..]);
      [ts[0]] + HealedRun(ts[0], ts[1..][..n]) + HealPairing(ts[1..][n..])
    else if ts[0].role == Tool then HealPairing(ts[1..])
    else [ts[0]] + HealPairing(ts[1..])
  }

  /** Leading turns up to the first user turn are dropped; a transcript without one is kept. */
  function HealHead(ts: seq<ConversationTurn>): seq<ConversationTurn> {
    var i := LeadingNonUser(ts);
    if i == |ts| then ts else ts[i..]
  }

  function LeadingNonUser(ts: seq<ConversationTurn>): (n: nat)
    ensures n <= |ts|
    ensures forall k :: 0 <= k < n ==> ts[k].role != User
    ensures n < |ts| ==> ts[n].role == User
  {
    if ts == [] || ts[0].role == User then 0 else 1 + LeadingNonUser(ts[1..])
  }

  datatype Violation = Unanswered(id: string) | Orphaned(id: string)

  function UnansweredCalls(calls: seq<ToolCallRequest>, answered: set<string>): seq<Violation> {
    if calls == [] then []
    else if calls[0].id in answered then UnansweredCalls(calls[1..], answered)
    else [Unanswered(calls[0].id)] + UnansweredCalls(calls[1..], answered)
  }

  function Violations(ts: seq<ConversationTurn>): seq<Violation>
    decreases |ts|
  {
    if ts == [] then []
    else if IsCaller(ts[0]) then
      var n := ToolRun(ts[1..]);
      UnansweredCalls(ts[0].toolCalls, ResultIds(ts[1..][..n])) + Violations(ts[1..][n..])
    else if ts[0].role == Tool then [Orphaned(ts[0].toolCallId)] + Violations(ts[1..])
    else Violations(ts[1..])
  }

  // Healing and checking as loops over the turns.

  method HealConversationHead(turns: seq<ConversationTurn>) returns (out: seq<ConversationTurn>)
    ensures out == HealHead(turns)
    ensures (exists t :: t in turns && t.role == User) ==> out != [] && out[0].role == User
    ensures (forall t :: t in turns ==> t.role != User) ==> out == turns
  {
    var i := 0;
    while i < |turns| && turns[i].role != User
      invariant 0 <= i <= |turns|
      invariant forall k :: 0 <= k < i ==> turns[k].role != User
      invariant LeadingNonUser(turns) == i + LeadingNonUser(turns[i..])
    {
      i := i + 1;
    }
    if i >= |turns| {
      return turns;
    }
    return turns[i..];
  }

  /** The inner scan over the tool turns that follow a caller. */
  method CollectResults(turns: seq<ConversationTurn>, from: nat, wanted: set<string>)
    returns (kept: seq<ConversationTurn>, answered: set<string>, j: nat)
    requires from <= |turns|
    ensures j == from + ToolRun(turns[from..])
    ensures from <= j <= |turns| && kept == Kept(turns[from..j], wanted, {})
    ensures answered == wanted * ResultIds(turns[from..j])
  {
    kept, answered, j := [], {}, from;
    ghost var run: seq<ConversationTurn> := [];
    NothingKept(wanted);
    hide Kept, ResultIds;
    while j < |turns| && turns[j].role == Tool
      invariant from <= j <= |turns| && run == turns[from..j]
      invariant ToolRun(turns[from..]) == (j - from) + ToolRun(turns[j..])
      invariant answered == wanted * ResultIds(run)
      invariant kept == Kept(run, wanted, {})
    {
      var tr := turns[j];
      SliceSnoc(turns, from, j);
      DropStep(turns, j);
      KeptSnoc(run, tr, wanted, {});
      AnsweredSnoc(wanted, run, tr);
      run := run + [tr];
      if tr.toolCallId in wanted && tr.toolCallId !in answered {
        answered := answered + {tr.toolCallId};
        kept := kept + [tr];
      }
      j := j + 1;
    }
  }

  lemma NothingKept(wanted: set<string>)
    ensures Kept([], wanted, {}) == [] && ResultIds([]) == {}
  {
  }

  lemma ResultIdsSnoc(run: seq<ConversationTurn>, t: ConversationTurn)
    ensures ResultIds(run + [t]) == ResultIds(run) + {t.toolCallId}
  {
  }

  lemma AnsweredSnoc(wanted: set<string>, run: seq<ConversationTurn>, t: ConversationTurn)
    ensures wanted * ResultIds(run + [t])
         == if t.toolCallId in wanted then wanted * ResultIds(run) + {t.toolCallId} else wanted * ResultIds(run)
  {
    ResultIdsSnoc(run, t);
  }

  lemma ResultIdsCons(run: seq<ConversationTurn>)
    requires run != []
    ensures ResultIds(run) == {run[0].toolCallId} + ResultIds(run[1..])
  {
    Cons(run);
  }

  lemma CallIdsCons(calls: seq<ToolCallRequest>)
    requires calls != []
    ensures CallIds(calls) == {calls[0].id} + CallIds(calls[1..])
  {
    Cons(calls);
  }

  lemma {:induction false} KeptSnoc(run: seq<ConversationTurn>, t: ConversationTurn, wanted: set<string>, answered: set<string>)
    ensures Kept(run + [t], wanted, answered)
         == Kept(run, wanted, answered)
          + (if t.toolCallId in wanted && t.toolCallId !in answered && t.toolCallId !in ResultIds(run) then [t] else [])
  {
    if run == [] {
      assert run + [t] == [t];
    } else {
      assert (run + [t])[1..] == run[1..] + [t];
      ResultIdsCons(run);
      if run[0].toolCallId in wanted && run[0].toolCallId !in answered {
        KeptSnoc(run[1..], t, wanted, answered + {run[0].toolCallId});
      } else {
        KeptSnoc(run[1..], t, wanted, answered);
      }
    }
  }

  /** The loop that invents results for the calls left unanswered. */
  method InventMissing(owner: ConversationTurn, answered: set<string>) returns (missing: seq<ConversationTurn>)
    ensures missing == Missing(owner, owner.toolCalls, answered)
  {
    var calls := owner.toolCalls;
    missing := [];
    for k := 0 to |calls|
      invariant Missing(owner, calls, answered) == missing + Missing(owner, calls[k..], answered)
    {
      assert calls[k..][1..] == calls[k + 1..];
      if calls[k].id !in answered {
        missing := missing + [Synthesized(owner, calls[k].id)];
      }
    }
  }

  lemma HealFrom(turns: seq<ConversationTurn>, i: nat, j: nat)
    requires i < |turns| && IsCaller(turns[i]) && j == i + 1 + ToolRun(turns[i + 1..])
    ensures HealPairing(turns[i..]) == [turns[i]] + HealedRun(turns[i], turns[i + 1..j]) + HealPairing(turns[j..])
  {
    DropStep(turns, i);
    DropSplit(turns, i + 1, j);
  }

  method HealToolPairing(turns: seq<ConversationTurn>) returns (out: seq<ConversationTurn>)
    ensures out == HealPairing(turns)
  {
    out := [];
    var i := 0;
    while i < |turns|
      invariant 0 <= i <= |turns|
      invariant HealPairing(turns) == out + HealPairing(turns[i..])
    {
      var t := turns[i];
      DropStep(turns, i);
      if IsCaller(t) {
        var kept, answered, j := CollectResults(turns, i + 1, CallIds(t.toolCalls));
        var missing := InventMissing(t, answered);
        HealFrom(turns, i, j);
        Assoc(out, [t] + (kept + missing), HealPairing(turns[j..]));
        out := out + ([t] + (kept + missing));
        i := j;
      } else if t.role == Tool {
        i := i + 1;
      } else {
        Assoc(out, [t], HealPairing(turns[i + 1..]));
        out := out + [t];
        i := i + 1;
      }
    }
  }

  /** The ids answered by the tool turns that follow a caller. */
  method AnsweredIds(turns: seq<ConversationTurn>, from: nat) returns (answered: set<string>, j: nat)
    requires from <= |turns|
    ensures j == from + ToolRun(turns[from..])
    ensures from <= j <= |turns| && answered == ResultIds(turns[from..j])
  {
    answered, j := {}, from;
    while j < |turns| && turns[j].role == Tool
      invariant from <= j <= |turns|
      invariant ToolRun(turns[from..]) == (j - from) + ToolRun(turns[j..])
      invariant answered == ResultIds(turns[from..j])
    {
      SliceSnoc(turns, from, j);
      DropStep(turns, j);
      ResultIdsSnoc(turns[from..j], turns[j]);
      answered := answered + {turns[j].toolCallId};
      j := j + 1;
    }
  }

  method ReportUnanswered(calls: seq<ToolCallRequest>, answered: set<string>) returns (found: seq<Violation>)
    ensures found == UnansweredCalls(calls, answered)
  {
    found := [];
    for k := 0 to |calls|
      invariant UnansweredCalls(calls, answered) == found + UnansweredCalls(calls[k..], answered)
    {
      assert calls[k..][1..] == calls[k + 1..];
      if calls[k].id !in answered {
        found := found + [Unanswered(calls[k].id)];
      }
    }
  }

  method ValidateToolPairing(turns: seq<ConversationTurn>) returns (violations: seq<Violation>)
    ensures violations == Violations(turns)
  {
    violations := [];
    var i := 0;
    while i < |turns|
      invariant 0 <= i <= |turns|
      invariant Violations(turns) == violations + Violations(turns[i..])
    {
      var t := turns[i];
      DropStep(turns, i);
      if IsCaller(t) {
        var answered, j := AnsweredIds(turns, i + 1);
        var found := ReportUnanswered(t.toolCalls, answered);
        DropSplit(turns, i + 1, j);
        assert Violations(turns[i..]) == found + Violations(turns[j..]);
        Assoc(violations, found, Violations(turns[j..]));
        violations := violations + found;
        i := j;
      } else if t.role == Tool {
        Assoc(violations, [Orphaned(t.toolCallId)], Violations(turns[i + 1..]));
        violations := violations + [Orphaned(t.toolCallId)];
        i := i + 1;
      } else {
        i := i + 1;
      }
    }
  }

  // What healing guarantees, for every transcript.

  /** The validator accepts a transcript exactly when each caller's run answers all its
      calls and no tool turn stands outside such a run. */
  ghost predicate Paired(ts: seq<ConversationTurn>)
    decreases |ts|
  {
    if ts == [] then true
    else if IsCaller(ts[0]) then
      var n := ToolRun(ts[1..]);
      CallIds(ts[0].toolCalls) <= ResultIds(ts[1..][..n]) && Paired(ts[1..][n..])
    else ts[0].role != Tool && Paired(ts[1..])
  }

  lemma {:induction false} UnansweredNone(calls: seq<ToolCallRequest>, answered: set<string>)
    ensures UnansweredCalls(calls, answered) == [] <==> CallIds(calls) <= answered
  {
    if calls != [] {
      CallIdsCons(calls);
      UnansweredNone(calls[1..], answered);
    }
  }

  lemma {:induction false} AcceptedIffPaired(ts: seq<ConversationTurn>)
    ensures Violations(ts) == [] <==> Paired(ts)
    decreases |ts|
  {
    if ts == [] {
    } else if IsCaller(ts[0]) {
      var n := ToolRun(ts[1..]);
      UnansweredNone(ts[0].toolCalls, ResultIds(ts[1..][..n]));
      AcceptedIffPaired(ts[1..][n..]);
    } else {
      AcceptedIffPaired(ts[1..]);
    }
  }

  lemma {:induction false} KeptProperties(run: seq<ConversationTurn>, wanted: set<string>, answered: set<string>)
    ensures forall t :: t in Kept(run, wanted, answered) ==> t in run && t.toolCallId in wanted && t.toolCallId !in answered
    ensures ResultIds(Kept(run, wanted, answered)) == (wanted * ResultIds(run)) - answered
    ensures DistinctResults(Kept(run, wanted, answered))
  {
    if run != [] {
      ResultIdsCons(run);
      if run[0].toolCallId in wanted && run[0].toolCallId !in answered {
        var rest := Kept(run[1..], wanted, answered + {run[0].toolCallId});
        KeptProperties(run[1..], wanted, answered + {run[0].toolCallId});
        assert ResultIds([run[0]] + rest) == {run[0].toolCallId} + ResultIds(rest);
      } else {
        KeptProperties(run[1..], wanted, answered);
      }
    }
  }

  ghost predicate DistinctResults(run: seq<ConversationTurn>) {
    forall i, j :: 0 <= i < j < |run| ==> run[i].toolCallId != run[j].toolCallId
  }

  lemma {:induction false} MissingProperties(owner: ConversationTurn, calls: seq<ToolCallRequest>, answered: set<string>)
    ensures forall t :: t in Missing(owner, calls, answered) ==> t == Synthesized(owner, t.toolCallId)
    ensures ResultIds(Missing(owner, calls, answered)) == CallIds(calls) - answered
  {
    if calls != [] {
      CallIdsCons(calls);
      MissingProperties(owner, calls[1..], answered);
      var rest := Missing(owner, calls[1..], answered);
      assert ResultIds([Synthesized(owner, calls[0].id)] + rest) == {calls[0].id} + ResultIds(rest);
    }
  }

  /** A healed run is made of tool turns and answers exactly the calls of its owner. */
  lemma HealedRunAnswers(owner: ConversationTurn, run: seq<ConversationTurn>)
    requires AllTools(run)
    ensures AllTools(HealedRun(owner, run))
    ensures ResultIds(HealedRun(owner, run)) == CallIds(owner.toolCalls)
  {
    var wanted := CallIds(owner.toolCalls);
    var kept, missing := Kept(run, wanted, {}), Missing(owner, owner.toolCalls, wanted * ResultIds(run));
    KeptProperties(run, wanted, {});
    MissingProperties(owner, owner.toolCalls, wanted * ResultIds(run));
    assert ResultIds(kept + missing) == ResultIds(kept) + ResultIds(missing);
    forall i | 0 <= i < |kept + missing|
      ensures (kept + missing)[i].role == Tool
    {
      assert i < |kept| ==> kept[i] in kept;
      assert i >= |kept| ==> missing[i - |kept|] in missing;
    }
  }

  lemma {:induction false} HealStartsOutsideRun(ts: seq<ConversationTurn>)
    ensures HealPairing(ts) == [] || HealPairing(ts)[0].role != Tool
    decreases |ts|
  {
    if ts != [] && !IsCaller(ts[0]) && ts[0].role == Tool {
      HealStartsOutsideRun(ts[1..]);
    }
  }

  /** A caller at the front, its run, and what follows the run. */
  lemma SplitGroup(ts: seq<ConversationTurn>) returns (run: seq<ConversationTurn>, rest: seq<ConversationTurn>)
    requires ts != []
    ensures run == ts[1..][..ToolRun(ts[1..])] && rest == ts[1..][ToolRun(ts[1..])..]
    ensures ts[1..] == run + rest && ts == [ts[0]] + (run + rest) && |rest| < |ts|
    ensures AllTools(run) && (rest == [] || rest[0].role != Tool)
  {
    var n := ToolRun(ts[1..]);
    run, rest := ts[1..][..n], ts[1..][n..];
    TakeDrop(ts[1..], n);
    Cons(ts);
  }

  /** Healing acts group by group: the healed run is exactly the tool run that follows the caller. */
  lemma HealGroup(ts: seq<ConversationTurn>, run: seq<ConversationTurn>, rest: seq<ConversationTurn>)
    requires ts != [] && IsCaller(ts[0])
    requires run == ts[1..][..ToolRun(ts[1..])] && rest == ts[1..][ToolRun(ts[1..])..]
    ensures var h := HealPairing(ts);
            && h == [ts[0]] + HealedRun(ts[0], run) + HealPairing(rest)
            && h[1..] == HealedRun(ts[0], run) + HealPairing(rest)
            && h[1..][..ToolRun(h[1..])] == HealedRun(ts[0], run)
            && h[1..][ToolRun(h[1..])..] == HealPairing(rest)
  {
    HealedRunAnswers(ts[0], run);
    HealStartsOutsideRun(rest);
    var healed, tail := HealedRun(ts[0], run), HealPairing(rest);
    ToolRunConcat(healed, tail);
    Assoc([ts[0]], healed, tail);
    ConsParts(ts[0], healed + tail);
  }

  /** For every transcript, however damaged, the healed one passes validation. */
  lemma {:induction false} HealedIsAccepted(ts: seq<ConversationTurn>)
    ensures Paired(HealPairing(ts)) && Violations(HealPairing(ts)) == []
    decreases |ts|
  {
    if ts == [] {
    } else if IsCaller(ts[0]) {
      var run, rest := SplitGroup(ts);
      HealGroup(ts, run, rest);
      HealedIsAccepted(rest);
      HealedRunAnswers(ts[0], run);
    } else {
      HealedIsAccepted(ts[1..]);
      if ts[0].role != Tool {
        assert HealPairing(ts)[1..] == HealPairing(ts[1..]);
      }
    }
    AcceptedIffPaired(HealPairing(ts));
  }

  function NonTool(ts: seq<ConversationTurn>): seq<ConversationTurn> {
    if ts == [] then []
    else if ts[0].role == Tool then NonTool(ts[1..])
    else [ts[0]] + NonTool(ts[1..])
  }

  lemma {:induction false} NonToolSkipsRun(run: seq<ConversationTurn>, rest: seq<ConversationTurn>)
    requires AllTools(run)
    ensures NonTool(run + rest) == NonTool(rest)
  {
    if run == [] {
      assert run + rest == rest;
    } else {
      assert (run + rest)[1..] == run[1..] + rest;
      NonToolSkipsRun(run[1..], rest);
    }
  }

  /** Healing keeps every turn that is not a tool turn, in order and unchanged. */
  lemma {:induction false} HealKeepsNonTool(ts: seq<ConversationTurn>)
    ensures NonTool(HealPairing(ts)) == NonTool(ts)
    decreases |ts|
  {
    if ts == [] {
    } else if IsCaller(ts[0]) {
      var run, rest := SplitGroup(ts);
      HealGroup(ts, run, rest);
      HealKeepsNonTool(rest);
      HealedRunAnswers(ts[0], run);
      NonToolSkipsRun(HealedRun(ts[0], run), HealPairing(rest));
      NonToolSkipsRun(run, rest);
      assert ts[1..] == run + rest;
    } else {
      HealKeepsNonTool(ts[1..]);
      if ts[0].role != Tool {
        assert HealPairing(ts)[1..] == HealPairing(ts[1..]);
      }
    }
  }

  /** Healing invents nothing but marked error results for calls of a caller in the transcript. */
  lemma {:induction false} HealInventsOnlyMarkedErrors(ts: seq<ConversationTurn>, t: ConversationTurn)
    requires t in HealPairing(ts) && t !in ts
    ensures t.role == Tool && t.isError && t.content == HEALED_NOTE
    ensures exists owner :: owner in ts && IsCaller(owner) && t == Synthesized(owner, t.toolCallId)
                         && t.toolCallId in CallIds(owner.toolCalls)
    decreases |ts|
  {
    if IsCaller(ts[0]) {
      var run, rest := SplitGroup(ts);
      HealGroup(ts, run, rest);
      var wanted := CallIds(ts[0].toolCalls);
      KeptProperties(run, wanted, {});
      MissingProperties(ts[0], ts[0].toolCalls, wanted * ResultIds(run));
      if t in HealPairing(rest) {
        HealInventsOnlyMarkedErrors(rest, t);
      } else {
        var missing := Missing(ts[0], ts[0].toolCalls, wanted * ResultIds(run));
        assert t in missing && t.toolCallId in ResultIds(missing);
        assert ts[0] in ts;
      }
    } else {
      assert ts == [ts[0]] + ts[1..];
      HealInventsOnlyMarkedErrors(ts[1..], t);
    }
  }

  // When healing changes nothing.

  /** Each caller is followed by exactly one result per distinct call id and nothing else. */
  ghost predicate ExactlyPaired(ts: seq<ConversationTurn>)
    decreases |ts|
  {
    if ts == [] then true
    else if IsCaller(ts[0]) then
      var n := ToolRun(ts[1..]);
      && DistinctResults(ts[1..][..n])
      && ResultIds(ts[1..][..n]) == CallIds(ts[0].toolCalls)
      && ExactlyPaired(ts[1..][n..])
    else ts[0].role != Tool && ExactlyPaired(ts[1..])
  }

  lemma {:induction false} KeptAll(run: seq<ConversationTurn>, wanted: set<string>, answered: set<string>)
    requires DistinctResults(run) && ResultIds(run) <= wanted && ResultIds(run) !! answered
    ensures Kept(run, wanted, answered) == run
  {
    if run != [] {
      assert run == [run[0]] + run[1..];
      assert run[0].toolCallId in ResultIds(run);
      assert run[0].toolCallId !in ResultIds(run[1..]);
      KeptAll(run[1..], wanted, answered + {run[0].toolCallId});
    }
  }

  lemma {:induction false} MissingNone(owner: ConversationTurn, calls: seq<ToolCallRequest>, answered: set<string>)
    ensures Missing(owner, calls, answered) == [] <==> CallIds(calls) <= answered
  {
    if calls != [] {
      CallIdsCons(calls);
      MissingNone(owner, calls[1..], answered);
    }
  }

  /** A run is its own healed run exactly when it answers each call once and nothing else. */
  lemma HealedRunFixed(owner: ConversationTurn, run: seq<ConversationTurn>)
    ensures HealedRun(owner, run) == run
       <==> DistinctResults(run) && ResultIds(run) == CallIds(owner.toolCalls)
  {
    var wanted := CallIds(owner.toolCalls);
    var answered := wanted * ResultIds(run);
    var kept, missing := Kept(run, wanted, {}), Missing(owner, owner.toolCalls, answered);
    KeptProperties(run, wanted, {});
    MissingProperties(owner, owner.toolCalls, answered);
    MissingNone(owner, owner.toolCalls, answered);
    assert missing != [] ==> missing[0] in kept + missing && missing[0].toolCallId in ResultIds(missing);
    if kept + missing == run {
      assert kept + missing == kept;
    }
    if DistinctResults(run) && ResultIds(run) == wanted {
      KeptAll(run, wanted, {});
      assert kept + missing == run;
    }
  }

  /** Healing is the identity exactly on the exactly paired transcripts. */
  lemma {:induction false} HealFixesNothingIffExact(ts: seq<ConversationTurn>)
    ensures HealPairing(ts) == ts <==> ExactlyPaired(ts)
    decreases |ts|
  {
    if ts == [] {
    } else if IsCaller(ts[0]) {
      var run, rest := SplitGroup(ts);
      HealGroup(ts, run, rest);
      HealedRunFixed(ts[0], run);
      HealFixesNothingIffExact(rest);
      if HealPairing(ts) == ts {
        assert HealPairing(ts)[1..] == ts[1..];
      }
    } else if ts[0].role == Tool {
      HealStartsOutsideRun(ts);
    } else {
      HealFixesNothingIffExact(ts[1..]);
      assert HealPairing(ts)[1..] == HealPairing(ts[1..]);
      assert ts == [ts[0]] + ts[1..];
    }
  }

  // When healing twice is healing once.

  ghost predicate DistinctIds(calls: seq<ToolCallRequest>) {
    forall i, j :: 0 <= i < j < |calls| ==> calls[i].id != calls[j].id
  }

  /** No unanswered id is called twice. */
  ghost predicate UnansweredOnce(calls: seq<ToolCallRequest>, answered: set<string>) {
    calls != [] ==>
      && (calls[0].id in answered || calls[0].id !in CallIds(calls[1..]))
      && UnansweredOnce(calls[1..], answered)
  }

  /** No caller issued two calls under one id that its run leaves unanswered. */
  ghost predicate NoRepeatedUnanswered(ts: seq<ConversationTurn>)
    decreases |ts|
  {
    if ts == [] then true
    else if IsCaller(ts[0]) then
      var n := ToolRun(ts[1..]);
      && UnansweredOnce(ts[0].toolCalls, ResultIds(ts[1..][..n]))
      && NoRepeatedUnanswered(ts[1..][n..])
    else NoRepeatedUnanswered(ts[1..])
  }

  lemma DistinctCons(t: ConversationTurn, rest: seq<ConversationTurn>)
    ensures DistinctResults([t] + rest) <==> t.toolCallId !in ResultIds(rest) && DistinctResults(rest)
  {
    var all := [t] + rest;
    if DistinctResults(all) {
      forall i | 0 <= i < |rest| ensures rest[i].toolCallId != t.toolCallId {
        assert all[0] == t && all[i + 1] == rest[i];
      }
      forall i, j | 0 <= i < j < |rest| ensures rest[i].toolCallId != rest[j].toolCallId {
        assert all[i + 1] == rest[i] && all[j + 1] == rest[j];
      }
    }
    if t.toolCallId !in ResultIds(rest) && DistinctResults(rest) {
      forall i, j | 0 <= i < j < |all| ensures all[i].toolCallId != all[j].toolCallId {
        assert all[j] == rest[j - 1] && all[j].toolCallId in ResultIds(rest);
      }
    }
  }

  lemma {:induction false} MissingDistinct(owner: ConversationTurn, calls: seq<ToolCallRequest>, answered: set<string>)
    ensures DistinctResults(Missing(owner, calls, answered)) <==> UnansweredOnce(calls, answered)
  {
    if calls != [] {
      MissingDistinct(owner, calls[1..], answered);
      MissingProperties(owner, calls[1..], answered);
      DistinctCons(Synthesized(owner, calls[0].id), Missing(owner, calls[1..], answered));
    }
  }

  lemma {:induction false} UnansweredOnceWithin(calls: seq<ToolCallRequest>, a: set<string>, b: set<string>)
    requires forall c :: c in calls ==> (c.id in a <==> c.id in b)
    ensures UnansweredOnce(calls, a) <==> UnansweredOnce(calls, b)
  {
    if calls != [] {
      UnansweredOnceWithin(calls[1..], a, b);
    }
  }

  lemma HealedRunDistinct(owner: ConversationTurn, run: seq<ConversationTurn>)
    ensures DistinctResults(HealedRun(owner, run)) <==> UnansweredOnce(owner.toolCalls, ResultIds(run))
  {
    var calls := owner.toolCalls;
    var wanted := CallIds(calls);
    var answered := wanted * ResultIds(run);
    var kept, missing := Kept(run, wanted, {}), Missing(owner, calls, answered);
    KeptProperties(run, wanted, {});
    MissingProperties(owner, calls, answered);
    MissingDistinct(owner, calls, answered);
    UnansweredOnceWithin(calls, answered, ResultIds(run));
    var all := kept + missing;
    if DistinctResults(missing) {
      forall i, j | 0 <= i < j < |all| ensures all[i].toolCallId != all[j].toolCallId {
        if i < |kept| <= j {
          assert kept[i].toolCallId in ResultIds(kept);
          assert missing[j - |kept|].toolCallId in ResultIds(missing);
        }
      }
    }
    if DistinctResults(all) {
      forall i, j | 0 <= i < j < |missing| ensures missing[i].toolCallId != missing[j].toolCallId {
        assert all[|kept| + i] == missing[i] && all[|kept| + j] == missing[j];
      }
    }
  }

  lemma {:induction false} HealedExactIff(ts: seq<ConversationTurn>)
    ensures ExactlyPaired(HealPairing(ts)) <==> NoRepeatedUnanswered(ts)
    decreases |ts|
  {
    if ts == [] {
    } else if IsCaller(ts[0]) {
      var run, rest := SplitGroup(ts);
      HealGroup(ts, run, rest);
      HealedRunAnswers(ts[0], run);
      HealedRunDistinct(ts[0], run);
      HealedExactIff(rest);
    } else {
      HealedExactIff(ts[1..]);
      if ts[0].role != Tool {
        assert HealPairing(ts)[1..] == HealPairing(ts[1..]);
      }
    }
  }

  /** Healing is idempotent exactly on the transcripts that do not leave a repeated call id unanswered. */
  lemma HealIdempotentIff(ts: seq<ConversationTurn>)
    ensures HealPairing(HealPairing(ts)) == HealPairing(ts) <==> NoRepeatedUnanswered(ts)
  {
    HealedExactIff(ts);
    HealFixesNothingIffExact(HealPairing(ts));
  }

  lemma {:induction false} DistinctCallsUnansweredOnce(calls: seq<ToolCallRequest>, answered: set<string>)
    requires DistinctIds(calls)
    ensures UnansweredOnce(calls, answered)
  {
    if calls != [] {
      forall i | 0 <= i < |calls[1..]| ensures calls[1..][i].id != calls[0].id {
        assert calls[1..][i] == calls[i + 1];
      }
      forall i, j | 0 <= i < j < |calls[1..]| ensures calls[1..][i].id != calls[1..][j].id {
        assert calls[1..][i] == calls[i + 1] && calls[1..][j] == calls[j + 1];
      }
      DistinctCallsUnansweredOnce(calls[1..], answered);
    }
  }

  lemma {:induction false} DistinctResultsCount(run: seq<ConversationTurn>)
    requires DistinctResults(run)
    ensures |ResultIds(run)| == |run|
  {
    if run != [] {
      Cons(run);
      DistinctCons(run[0], run[1..]);
      ResultIdsCons(run);
      DistinctResultsCount(run[1..]);
    }
  }

  lemma {:induction false} DistinctIdsCount(calls: seq<ToolCallRequest>)
    requires DistinctIds(calls)
    ensures |CallIds(calls)| == |calls|
  {
    if calls != [] {
      CallIdsCons(calls);
      forall i | 0 <= i < |calls[1..]| ensures calls[1..][i].id != calls[0].id {
        assert calls[1..][i] == calls[i + 1];
      }
      DistinctIdsCount(calls[1..]);
    }
  }

  /** A caller with distinct ids is answered by exactly one result per call. */
  lemma OneResultPerCall(owner: ConversationTurn, run: seq<ConversationTurn>)
    requires AllTools(run) && DistinctIds(owner.toolCalls)
    ensures DistinctResults(HealedRun(owner, run))
    ensures |HealedRun(owner, run)| == |owner.toolCalls|
    ensures ResultIds(HealedRun(owner, run)) == CallIds(owner.toolCalls)
  {
    DistinctCallsUnansweredOnce(owner.toolCalls, ResultIds(run));
    HealedRunDistinct(owner, run);
    HealedRunAnswers(owner, run);
    DistinctResultsCount(HealedRun(owner, run));
    DistinctIdsCount(owner.toolCalls);
  }

  /** In particular it is idempotent when the ids within each caller are distinct. */
  lemma {:induction false} DistinctIdsSuffice(ts: seq<ConversationTurn>)
    requires forall t :: t in ts && IsCaller(t) ==> DistinctIds(t.toolCalls)
    ensures NoRepeatedUnanswered(ts)
    decreases |ts|
  {
    if ts == [] {
    } else if IsCaller(ts[0]) {
      var run, rest := SplitGroup(ts);
      assert ts[0] in ts;
      forall t | t in rest ensures t in ts { assert t in run + rest; }
      DistinctCallsUnansweredOnce(ts[0].toolCalls, ResultIds(run));
      DistinctIdsSuffice(rest);
    } else {
      DistinctIdsSuffice(ts[1..]);
    }
  }

  /** Two unanswered calls under one id: healing invents two results, healing again drops one. */
  lemma RepeatedIdBreaksIdempotence()
    ensures var ts := [BlankTurn(Assistant).(toolCalls := [ToolCallRequest("a", "x", ""), ToolCallRequest("a", "y", "")])];
            HealPairing(HealPairing(ts)) != HealPairing(ts)
  {
    var calls := [ToolCallRequest("a", "x", ""), ToolCallRequest("a", "y", "")];
    var ts := [BlankTurn(Assistant).(toolCalls := calls)];
    assert ts[1..] == [] && ts[1..][..0] == [];
    assert calls[1..][0].id == "a" && calls[0].id in CallIds(calls[1..]);
    assert !UnansweredOnce(calls, ResultIds([]));
    HealIdempotentIff(ts);
  }

  /** The head healer hands over a transcript that starts with a user turn whenever there is one. */
  lemma HealHeadStartsWithUser(ts: seq<ConversationTurn>)
    ensures (exists t :: t in ts && t.role == User)
       <==> HealHead(ts) != [] && HealHead(ts)[0].role == User
    ensures (forall t :: t in ts ==> t.role != User) ==> HealHead(ts) == ts
  {
    var n := LeadingNonUser(ts);
    if n < |ts| {
      assert ts[n] in ts;
    }
  }
}
