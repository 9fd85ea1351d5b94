/** The turn that stands for a compacted stretch of conversation, and the task brief pinned in it. */
module Compaction {
  import opened Basics
  import opened Transcript
  import opened Replacing
  import opened Sequences

  // The dash's three bytes.
  const DASH := "\U{00E2}\U{0080}\U{0094}"
  const PINNED_HEADER := "[Original task " + DASH + " kept verbatim through compaction]"
  const SUMMARY_HEADER := "[Summary of earlier " + "conversation, compacted" + " to save context]"
  const TRUNCATION_NOTE := "\n[...original task truncated...]"
  const PINNED_MAX := 4000
  const COMPACTION := "compaction"

  function TrimLeft(s: string): string {
    if s != "" && IsSpace(s[0]) then TrimLeft(s[1..]) else s
  }

  function TrimRight(s: string): string {
    if s != "" && IsSpace(s[|s| - 1]) then TrimRight(s[..|s| - 1]) else s
  }

  function TrimSpace(s: string): string {
    TrimRight(TrimLeft(s))
  }

  /** Where a word first occurs; -1 when it does not. */
  function Find(w: string, s: string): (i: int)
    ensures -1 <= i <= |s|
  {
    if w <= s then 0
    else if s == "" then -1
    else
      var i := Find(w, s[1..]);
      if i < 0 then -1 else i + 1
  }

  function SummaryBlock(summary: string): string {
    SUMMARY_HEADER + "\n\n" + summary
  }

  function Truncated(task: string): string {
    if |task| > PINNED_MAX then task[..PINNED_MAX] + TRUNCATION_NOTE else task
  }

  /** The content of the summary turn; the head is the first turn of the conversation it compacts. */
  function SummaryContent(head: ConversationTurn, summary: string): string {
    if head.origin == COMPACTION then
      var i := Find(SUMMARY_HEADER, head.content);
      if i > 0 && PINNED_HEADER <= head.content then TrimSpace(head.content[..i]) + "\n\n" + SummaryBlock(summary)
      else SummaryBlock(summary)
    else if head.role != User || TrimSpace(head.content) == "" then SummaryBlock(summary)
    else PINNED_HEADER + "\n\n" + Truncated(head.content) + "\n\n" + SummaryBlock(summary)
  }

  // What becomes of the brief.

  /** The brief as the first compaction writes it, and as every later one finds it. */
  function Brief(task: string): string {
    PINNED_HEADER + "\n\n" + Truncated(task)
  }

  function Carried(task: string): string {
    TrimRight(Brief(task))
  }

  lemma {:induction false} FindIs(w: string, s: string, i: nat)
    requires At(w, s, i) && forall p: nat :: p < i ==> !At(w, s, p)
    ensures Find(w, s) == i
  {
    AtFront(w, s);
    if i > 0 {
      AtNext(w, s, i - 1);
      forall p: nat | p < i - 1 ensures !At(w, s[1..], p) {
        AtNext(w, s, p);
      }
      FindIs(w, s[1..], i - 1);
    }
  }

  lemma {:induction false} FoundAt(w: string, s: string)
    ensures Find(w, s) >= 0 ==> At(w, s, Find(w, s)) && forall p: nat :: p < Find(w, s) ==> !At(w, s, p)
    ensures Find(w, s) < 0 ==> !Occurs(w, s)
  {
    AtFront(w, s);
    if !(w <= s) && s != "" {
      FoundAt(w, s[1..]);
      var i := Find(w, s[1..]);
      forall p: nat | p > 0 ensures At(w, s, p) <==> At(w, s[1..], p - 1) {
        AtNext(w, s, p - 1);
      }
    }
  }

  /** A word without a newline occurs on one side of it or on the other. */
  lemma NotAcross(w: string, a: string, b: string, p: nat)
    requires At(w, a + "\n" + b, p) && '\n' !in w
    ensures p + |w| <= |a| || p > |a|
  {
    var s := a + "\n" + b;
    assert s[|a|] == '\n';
    assert forall i :: p <= i < p + |w| ==> s[i] == s[p..p + |w|][i - p] == w[i - p];
  }

  lemma {:induction false} TrimRightPrefix(s: string)
    ensures TrimRight(s) <= s && (TrimRight(s) != "" ==> !IsSpace(TrimRight(s)[|TrimRight(s)| - 1]))
  {
    if s != "" && IsSpace(s[|s| - 1]) {
      TrimRightPrefix(s[..|s| - 1]);
    }
  }

  lemma {:induction false} TrimRightKeeps(s: string, n: nat)
    requires n < |s| && !IsSpace(s[n])
    ensures |TrimRight(s)| > n
  {
    if IsSpace(s[|s| - 1]) {
      TrimRightKeeps(s[..|s| - 1], n);
    }
  }

  lemma TrimRightBlank(s: string)
    ensures TrimRight(s + "\n\n") == TrimRight(s)
  {
    assert (s + "\n\n")[..|s + "\n\n"| - 1] == s + "\n";
    assert (s + "\n")[..|s + "\n"| - 1] == s;
  }

  lemma TrimRightTwice(s: string)
    ensures TrimRight(TrimRight(s)) == TrimRight(s)
  {
    TrimRightPrefix(s);
  }

  lemma HeaderFacts()
    ensures '\n' !in SUMMARY_HEADER && PINNED_MAX > |SUMMARY_HEADER| > |PINNED_HEADER| > 0 && PINNED_HEADER[0] == '['
    ensures SUMMARY_HEADER[0] != '\n' && PINNED_HEADER[1] != SUMMARY_HEADER[1]
    ensures PINNED_HEADER[|PINNED_HEADER| - 1] == ']' && SUMMARY_HEADER[|SUMMARY_HEADER| - 1] == ']'
  {
    assert |PINNED_HEADER| == 52 && |SUMMARY_HEADER| == 60;
    assert forall i :: 0 <= i < 60 ==> SUMMARY_HEADER[i] != '\n';
  }

  /** A summary turn whose pinned part is the given block. */
  function Pinned(block: string, summary: string): string {
    block + "\n\n" + SummaryBlock(summary)
  }

  /** Behind a block that does not hold the summary's header, the header is found right after it. */
  lemma HeaderBehind(block: string, summary: string)
    requires !Occurs(SUMMARY_HEADER, block)
    ensures Find(SUMMARY_HEADER, Pinned(block, summary)) == |block| + 2
  {
    var s := Pinned(block, summary);
    HeaderFacts();
    var rest := "\n" + SummaryBlock(summary);
    assert s == block + "\n" + rest;
    assert s[|block| + 2..|block| + 2 + |SUMMARY_HEADER|] == SUMMARY_HEADER;
    forall p: nat | p < |block| + 2 ensures !At(SUMMARY_HEADER, s, p) {
      if At(SUMMARY_HEADER, s, p) {
        NotAcross(SUMMARY_HEADER, block, rest, p);
        if p <= |block| {
          assert block[p..p + |SUMMARY_HEADER|] == s[p..p + |SUMMARY_HEADER|];
          assert At(SUMMARY_HEADER, block, p);
        } else {
          FirstOf(SUMMARY_HEADER, s, p);
        }
      }
    }
    FindIs(SUMMARY_HEADER, s, |block| + 2);
  }

  lemma BriefHolds(task: string)
    ensures Occurs(SUMMARY_HEADER, Brief(task)) <==> Occurs(SUMMARY_HEADER, Truncated(task))
  {
    HeaderFacts();
    var h, t := PINNED_HEADER, Truncated(task);
    if Occurs(SUMMARY_HEADER, t) {
      assert Brief(task) == h + "\n\n" + t + "";
      OccursInPart(SUMMARY_HEADER, h + "\n\n", t, "");
    }
    if Occurs(SUMMARY_HEADER, Brief(task)) {
      var p: nat :| At(SUMMARY_HEADER, Brief(task), p);
      BehindHeader(h, t, p);
    }
  }

  lemma BehindHeader(h: string, t: string, p: nat)
    requires At(SUMMARY_HEADER, h + "\n\n" + t, p) && |h| < |SUMMARY_HEADER| && '\n' !in SUMMARY_HEADER
    ensures Occurs(SUMMARY_HEADER, t)
  {
    var w := SUMMARY_HEADER;
    var s := h + "\n\n" + t;
    assert s == h + "\n" + ("\n" + t) == (h + "\n") + "\n" + t;
    NotAcross(w, h, "\n" + t, p);
    NotAcross(w, h + "\n", t, p);
    var q := p - |h| - 2;
    assert t[q..q + |w|] == s[p..p + |w|];
    assert At(w, t, q);
  }

  /** What is carried is the brief up to trailing space. */
  lemma CarriedIs(task: string)
    ensures Carried(task) <= Brief(task) && PINNED_HEADER <= Carried(task) && TrimLeft(Carried(task)) == Carried(task)
    ensures TrimRight(Carried(task)) == Carried(task)
  {
    HeaderFacts();
    TrimRightPrefix(Brief(task));
    TrimRightKeeps(Brief(task), |PINNED_HEADER| - 1);
    TrimRightTwice(Brief(task));
    assert Brief(task)[..|PINNED_HEADER|] == PINNED_HEADER;
  }

  lemma PrefixLacks(w: string, a: string, s: string)
    requires a <= s && !Occurs(w, s)
    ensures !Occurs(w, a)
  {
    if Occurs(w, a) {
      assert s == "" + a + s[|a|..];
      OccursInPart(w, "", a, s[|a|..]);
    }
  }

  /** The next compaction after one whose pinned block begins with the pinned header. */
  lemma NextBlock(block: string, prior: string, head: ConversationTurn, summary: string)
    requires head.origin == COMPACTION && head.content == Pinned(block, prior)
    requires PINNED_HEADER <= block && !Occurs(SUMMARY_HEADER, block)
    ensures SummaryContent(head, summary) == Pinned(TrimRight(block), summary)
  {
    hide Find, TrimRight, Occurs;
    HeaderBehind(block, prior);
    HeaderFacts();
    var s := head.content;
    assert s[..|block| + 2] == block + "\n\n";
    assert (block + "\n\n")[0] == block[0] == PINNED_HEADER[0];
    assert TrimLeft(block + "\n\n") == block + "\n\n";
    TrimRightBlank(block);
    assert s[..|PINNED_HEADER|] == block[..|PINNED_HEADER|];
  }

  /** The brief of the first user turn survives any number of compactions, and never changes again
      after the second, if it does not hold the summary's own header. */
  lemma BriefSurvives(task: string, block: string, prior: string, head: ConversationTurn, summary: string)
    requires !Occurs(SUMMARY_HEADER, Truncated(task))
    requires block == Brief(task) || block == Carried(task)
    requires head.origin == COMPACTION && head.content == Pinned(block, prior)
    ensures SummaryContent(head, summary) == Pinned(Carried(task), summary)
  {
    BriefHolds(task);
    CarriedIs(task);
    PrefixLacks(SUMMARY_HEADER, Carried(task), Brief(task));
    assert PINNED_HEADER <= Brief(task);
    NextBlock(block, prior, head, summary);
  }

  /** A brief that holds it is cut there by the second compaction. */
  lemma BriefIsCut(task: string, prior: string, head: ConversationTurn, summary: string) returns (kept: string)
    requires Occurs(SUMMARY_HEADER, Truncated(task))
    requires head.origin == COMPACTION && head.content == Pinned(Brief(task), prior)
    ensures SummaryContent(head, summary) == Pinned(kept, summary) && |kept| < |Carried(task)|
  {
    hide *;
    var block := Brief(task);
    BriefHolds(task);
    BriefIs(task);
    var p: nat := OccursWithin(SUMMARY_HEADER, block, prior);
    HeaderInside(block, p);
    var i := HeaderBefore(block, prior, p);
    CarriedBeyond(task, p + |SUMMARY_HEADER| - 1);
    kept := TrimSpace(head.content[..i]);
    TrimSpaceShorter(head.content[..i]);
    CutAt(head, block, prior, i, summary);
  }

  /** A task that is the header itself is lost whole. */
  lemma HeaderTaskIsLost(prior: string, head: ConversationTurn, summary: string)
    requires head.origin == COMPACTION && head.content == Pinned(Brief(SUMMARY_HEADER), prior)
    ensures Occurs(SUMMARY_HEADER, Truncated(SUMMARY_HEADER)) && SummaryContent(head, summary) == Pinned(PINNED_HEADER, summary)
  {
    HeaderFacts();
    hide SummaryContent, IsSpace, Find, Pinned, Brief, SummaryBlock;
    assert At(SUMMARY_HEADER, SUMMARY_HEADER, 0);
    Regrouped(PINNED_HEADER, prior);
    NextBlock(PINNED_HEADER, SummaryBlock(prior), head, summary);
    BracketStays(PINNED_HEADER);
  }

  lemma Regrouped(pinned: string, prior: string)
    ensures Pinned(pinned + "\n\n" + SUMMARY_HEADER, prior) == Pinned(pinned, SummaryBlock(prior))
    ensures Truncated(SUMMARY_HEADER) == SUMMARY_HEADER && Brief(SUMMARY_HEADER) == PINNED_HEADER + "\n\n" + SUMMARY_HEADER
  {
    HeaderFacts();
    Assoc(pinned + "\n\n", SUMMARY_HEADER, "\n\n" + SummaryBlock(prior));
  }

  lemma BracketStays(s: string)
    requires s != "" && s[|s| - 1] == ']'
    ensures TrimRight(s) == s
  {
  }

  lemma BriefIs(task: string)
    ensures PINNED_HEADER <= Brief(task)
  {
    assert Brief(task)[..|PINNED_HEADER|] == PINNED_HEADER;
  }

  lemma OccursWithin(w: string, block: string, prior: string) returns (p: nat)
    requires Occurs(w, block)
    ensures At(w, block, p) && At(w, Pinned(block, prior), p)
  {
    p :| At(w, block, p);
    assert Pinned(block, prior)[p..p + |w|] == block[p..p + |w|];
  }

  lemma HeaderInside(block: string, p: nat)
    requires At(SUMMARY_HEADER, block, p)
    ensures |SUMMARY_HEADER| > 0 && p + |SUMMARY_HEADER| <= |block| && !IsSpace(block[p + |SUMMARY_HEADER| - 1])
  {
    HeaderFacts();
    FirstOf(SUMMARY_HEADER, block, p);
  }

  lemma HeaderBefore(block: string, prior: string, p: nat) returns (i: nat)
    requires At(SUMMARY_HEADER, block, p) && At(SUMMARY_HEADER, Pinned(block, prior), p) && PINNED_HEADER <= block
    ensures 0 < i <= p && Find(SUMMARY_HEADER, Pinned(block, prior)) == i && i <= |Pinned(block, prior)|
  {
    hide Find, TrimRight;
    var s := Pinned(block, prior);
    FoundAt(SUMMARY_HEADER, s);
    i := Find(SUMMARY_HEADER, s);
    HeaderFacts();
    assert s[1] == block[1] == block[..|PINNED_HEADER|][1];
    SecondOf(SUMMARY_HEADER, s, i);
  }

  lemma SecondOf(w: string, s: string, p: nat)
    requires At(w, s, p) && |w| > 1
    ensures s[p + 1] == w[1]
  {
    assert s[p..p + |w|][1] == s[p + 1];
  }

  lemma CarriedBeyond(task: string, n: nat)
    requires n < |Brief(task)| && !IsSpace(Brief(task)[n])
    ensures |Carried(task)| > n
  {
    TrimRightKeeps(Brief(task), n);
  }

  lemma TrimSpaceShorter(s: string)
    ensures |TrimSpace(s)| <= |s|
  {
    TrimLeftShorter(s);
    TrimRightPrefix(TrimLeft(s));
  }

  lemma CutAt(head: ConversationTurn, block: string, prior: string, i: int, summary: string)
    requires head.origin == COMPACTION && head.content == Pinned(block, prior) && PINNED_HEADER <= block
    requires 0 < i <= |head.content| && Find(SUMMARY_HEADER, head.content) == i
    ensures SummaryContent(head, summary) == Pinned(TrimSpace(head.content[..i]), summary)
  {
    hide Find, TrimSpace;
    assert head.content[..|PINNED_HEADER|] == block[..|PINNED_HEADER|];
  }

  lemma {:induction false} TrimLeftShorter(s: string)
    ensures |TrimLeft(s)| <= |s|
  {
    if s != "" && IsSpace(s[0]) {
      TrimLeftShorter(s[1..]);
    }
  }

  /** The conversation begins with the task, or with a summary turn that pins it. */
  ghost predicate Briefed(ts: seq<ConversationTurn>, task: string) {
    ts != [] && if ts[0].origin == COMPACTION then PinsTask(ts[0].content, task)
                else ts[0].role == User && ts[0].content == task && TrimSpace(task) != ""
  }

  ghost predicate PinsTask(content: string, task: string) {
    exists summary {:trigger SummaryBlock(summary)} ::
      content == Pinned(Brief(task), summary) || content == Pinned(Carried(task), summary)
  }

  /** A summary turn made from such a conversation pins the task again. */
  lemma StaysBriefed(ts: seq<ConversationTurn>, task: string, summary: string)
    requires Briefed(ts, task) && !Occurs(SUMMARY_HEADER, Truncated(task))
    ensures PinsTask(SummaryContent(ts[0], summary), task)
  {
    if ts[0].origin == COMPACTION {
      var prior :| ts[0].content == Pinned(Brief(task), prior) || ts[0].content == Pinned(Carried(task), prior);
      hide *;
      BriefSurvives(task, if ts[0].content == Pinned(Brief(task), prior) then Brief(task) else Carried(task), prior, ts[0], summary);
      PinsSo(task, summary);
    } else {
      assert SummaryContent(ts[0], summary) == Pinned(Brief(task), summary);
      PinsSo(task, summary);
    }
  }

  lemma PinsSo(task: string, summary: string)
    ensures PinsTask(Pinned(Brief(task), summary), task) && PinsTask(Pinned(Carried(task), summary), task)
  {
    assert SummaryBlock(summary) == SummaryBlock(summary);
  }

  // The summary turn outright.

  /** The middle of a text whose both ends are blank. */
  ghost predicate Stripped(s: string, mid: string) {
    && (exists a, b :: s == a + mid + b && Blank(a) && Blank(b))
    && (mid != "" ==> !IsSpace(mid[0]) && !IsSpace(mid[|mid| - 1]))
  }

  ghost predicate Blank(s: string) {
    forall i :: 0 <= i < |s| ==> IsSpace(s[i])
  }

  lemma {:induction false} TrimLeftStrips(s: string) returns (a: string)
    ensures s == a + TrimLeft(s) && Blank(a) && (TrimLeft(s) != "" ==> !IsSpace(TrimLeft(s)[0]))
  {
    a := "";
    if s != "" && IsSpace(s[0]) {
      var rest := TrimLeftStrips(s[1..]);
      a := [s[0]] + rest;
    }
  }

  lemma {:induction false} TrimRightStrips(s: string) returns (b: string)
    ensures s == TrimRight(s) + b && Blank(b) && (TrimRight(s) != "" ==> !IsSpace(TrimRight(s)[|TrimRight(s)| - 1]))
  {
    b := "";
    if s != "" && IsSpace(s[|s| - 1]) {
      var rest := TrimRightStrips(s[..|s| - 1]);
      b := rest + [s[|s| - 1]];
    }
  }

  lemma TrimStrips(s: string)
    ensures Stripped(s, TrimSpace(s))
  {
    var a := TrimLeftStrips(s);
    var b := TrimRightStrips(TrimLeft(s));
    Assoc(a, TrimSpace(s), b);
    assert s == a + TrimSpace(s) + b;
    if TrimSpace(s) != "" {
      assert TrimSpace(s)[0] == TrimLeft(s)[0];
    }
  }

  lemma BlankIsTrimmed(s: string)
    ensures TrimSpace(s) == "" <==> Blank(s)
  {
    TrimStrips(s);
    var a, b :| s == a + TrimSpace(s) + b && Blank(a) && Blank(b);
    if TrimSpace(s) != "" {
      assert s[|a|] == TrimSpace(s)[0];
    }
  }

  /** A first turn that an earlier compaction made, which pins the task, with the summary's header behind it. */
  ghost predicate CarriesBrief(head: ConversationTurn, i: int) {
    && head.origin == "compaction" && PINNED_HEADER <= head.content
    && i > 0 && At(SUMMARY_HEADER, head.content, i) && forall p: nat :: p < i ==> !At(SUMMARY_HEADER, head.content, p)
  }

  /** A first turn in which a user set the task. */
  ghost predicate SetsTask(head: ConversationTurn) {
    head.origin != "compaction" && head.role == User && !Blank(head.content)
  }

  /** What is pinned of a task: all of it, or its first four thousand bytes and a note. */
  ghost predicate PinnedOf(task: string, pinned: string) {
    pinned == if |task| <= 4000 then task else task[..4000] + "\n[...original task truncated...]"
  }

  /** The summary turn ends with the new summary under its header. Before that it keeps what an earlier one
      had pinned, stripped, up to that one's summary; or pins the task a user had set; or has nothing. */
  lemma SummaryIs(head: ConversationTurn, summary: string) returns (kept: string)
    ensures SummaryContent(head, summary) == (if kept == "" then "" else kept + "\n\n") + SUMMARY_HEADER + "\n\n" + summary
    ensures forall i :: CarriesBrief(head, i) ==> kept != "" && Stripped(head.content[..i], kept)
    ensures SetsTask(head) ==> exists pinned :: PinnedOf(head.content, pinned) && kept == PINNED_HEADER + "\n\n" + pinned
    ensures !SetsTask(head) && (forall i :: !CarriesBrief(head, i)) ==> kept == ""
  {
    var i := Find(SUMMARY_HEADER, head.content);
    FoundAt(SUMMARY_HEADER, head.content);
    BlankIsTrimmed(head.content);
    hide TrimSpace, Truncated, Find, Stripped;
    if head.origin == COMPACTION {
      if i > 0 && PINNED_HEADER <= head.content {
        kept := TrimSpace(head.content[..i]);
        TrimStrips(head.content[..i]);
        assert CarriesBrief(head, i);
        OnlyFirst(head, i);
        HeaderKept(head.content, i);
        Grouped(kept, summary);
      } else {
        kept := "";
        NoneCarried(head);
      }
    } else if SetsTask(head) {
      TruncatedIs(head.content);
      kept := PINNED_HEADER + "\n\n" + Truncated(head.content);
      Grouped(kept, summary);
    } else {
      kept := "";
    }
  }

  lemma Grouped(kept: string, summary: string)
    ensures kept + "\n\n" + SummaryBlock(summary) == kept + "\n\n" + SUMMARY_HEADER + "\n\n" + summary
  {
  }

  lemma TruncatedIs(task: string)
    ensures PinnedOf(task, Truncated(task))
  {
  }

  lemma OnlyFirst(head: ConversationTurn, i: int)
    requires CarriesBrief(head, i)
    ensures forall j :: CarriesBrief(head, j) ==> j == i
  {
  }

  lemma NoneCarried(head: ConversationTurn)
    requires !(Find(SUMMARY_HEADER, head.content) > 0 && PINNED_HEADER <= head.content)
    ensures forall i :: !CarriesBrief(head, i)
  {
    FoundAt(SUMMARY_HEADER, head.content);
    hide Find;
  }

  lemma HeaderKept(s: string, i: int)
    requires 0 < i && PINNED_HEADER <= s && At(SUMMARY_HEADER, s, i)
    ensures TrimSpace(s[..i]) != ""
  {
    HeaderFacts();
    BlankIsTrimmed(s[..i]);
    assert s[..i][0] == s[0] == s[..|PINNED_HEADER|][0] == '[';
  }
}
