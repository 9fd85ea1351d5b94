/** Sanitizing a text that was sanitized before: when it changes nothing, and detectors for which it does not. */
module SanitizeTwice {
  import opened Decimal
  import opened TokenFormat
  import opened TokenTable
  import opened TokenCells
  import opened Detection
  import opened Replacing
  import opened SecretTranslation
  import opened Sequences

  // What a pass leaves behind in the table.

  ghost predicate NoLess(t: Table, t': Table) {
    && t.minted <= t'.minted
    && (forall v :: v in t.byValue ==> v in t'.byValue && t.byValue[v].hits <= t'.byValue[v].hits)
  }

  /** Something was minted, or a known value was met once more. */
  ghost predicate More(t: Table, t': Table) {
    || t.minted < t'.minted
    || (exists v :: v in t.byValue && v in t'.byValue && t.byValue[v].hits < t'.byValue[v].hits)
  }

  lemma LookedIsMore(t: Table, value: string, detector: string, mint: nat -> string)
    ensures NoLess(t, Looked(t, value, detector, mint)) && More(t, Looked(t, value, detector, mint))
  {
    var u := Looked(t, value, detector, mint);
    if value in t.byValue {
      assert t.byValue[value].hits < u.byValue[value].hits;
    }
  }

  lemma MoreThenNoLess(t: Table, u: Table, w: Table)
    requires NoLess(t, u) && NoLess(u, w)
    ensures NoLess(t, w) && (More(t, u) ==> More(t, w))
  {
    if v :| v in t.byValue && v in u.byValue && t.byValue[v].hits < u.byValue[v].hits {
      assert t.byValue[v].hits < w.byValue[v].hits;
    }
  }

  lemma NoLessThenMore(t: Table, u: Table, w: Table)
    requires NoLess(t, u) && More(u, w) && NoLess(u, w) && (u != t ==> More(t, u))
    ensures More(t, w)
  {
    if u != t {
      MoreThenNoLess(t, u, w);
    }
  }

  lemma NoLessThanItself(t: Table)
    ensures NoLess(t, t) && !More(t, t)
  {
  }

  /** Each pass either replaces nothing or leaves more in the table than it found. */
  lemma {:induction false} PassLeavesMore(text: string, ms: seq<Match>, mode: Mode, t: Table)
    requires Spans(ms, text)
    ensures var p := Rewritten(text, ms, mode, t);
            NoLess(t, p.table) && (p.n > 0 ==> More(t, p.table)) && (p.n == 0 ==> p == Progress("", 0, t, 0))
  {
    hide Looked, TokenOf, Skipped, NoLess, More;
    NoLessThanItself(t);
    if ms != [] {
      SpansPrefix(ms, text);
      var m, p := ms[|ms| - 1], Rewritten(text, ms[..|ms| - 1], mode, t);
      PassLeavesMore(text, ms[..|ms| - 1], mode, t);
      var candidate := text[m.start..m.end];
      if !Skipped(p.table, candidate) {
        var next := Looked(p.table, candidate, m.shape.detector, Mint(mode, m.shape));
        LookedIsMore(p.table, candidate, m.shape.detector, Mint(mode, m.shape));
        MoreThenNoLess(t, p.table, next);
        NoLessThenMore(t, p.table, next);
      }
    }
  }

  ghost predicate AllSkipped(text: string, ms: seq<Match>, t: Table) {
    forall m :: m in ms ==> InBounds(m, text) && Skipped(t, text[m.start..m.end])
  }

  lemma {:induction false} NoneReplacedIff(text: string, ms: seq<Match>, mode: Mode, t: Table)
    requires Spans(ms, text)
    ensures Rewritten(text, ms, mode, t).n == 0 <==> AllSkipped(text, ms, t)
  {
    hide Skipped, Looked, TokenOf, InBounds, Spans;
    if ms != [] {
      SpansPrefix(ms, text);
      var init, m := ms[..|ms| - 1], ms[|ms| - 1];
      NoneReplacedIff(text, init, mode, t);
      PassLeavesMore(text, init, mode, t);
      assert ms == init + [m];
      assert m in ms;
    }
  }

  /** Sanitizing what sanitizing gave, with the table it left, changes neither the text nor the table
      exactly when every match found in it is a token of that table or holds a reference. */
  lemma SecondPassIdleIff(text: string, ms: seq<Match>, again: seq<Match>, mode: Mode, t: Table)
    requires Spans(ms, text) && Spans(again, Sanitized(text, ms, mode, t))
    ensures var out, t1 := Sanitized(text, ms, mode, t), Rewritten(text, ms, mode, t).table;
            && (Sanitized(out, again, mode, t1) == out && Rewritten(out, again, mode, t1).table == t1 <==> AllSkipped(out, again, t1))
            && (Rewritten(out, again, mode, t1).n == 0 <==> AllSkipped(out, again, t1))
  {
    hide Skipped, Rewritten, AllSkipped, NoLess, More;
    var out, t1 := Sanitized(text, ms, mode, t), Rewritten(text, ms, mode, t).table;
    NoneReplacedIff(out, again, mode, t1);
    PassLeavesMore(out, again, mode, t1);
    NoLessThanItself(t1);
    TakeAll(out);
  }

  // The text alone.

  /** A value that differs from its token differs from it before either ends. */
  ghost predicate Parted(cells: seq<Cell>, values: map<string, string>) {
    forall c :: c in cells && c.Tok? ==> c.key in values && (c.key == values[c.key] || (!(c.key <= values[c.key]) && !(values[c.key] <= c.key)))
  }

  ghost predicate AllAlike(cells: seq<Cell>, values: map<string, string>) {
    forall c :: c in cells && c.Tok? ==> c.key in values && c.key == values[c.key]
  }

  lemma {:induction false} AlikeIff(cells: seq<Cell>, values: map<string, string>)
    requires Parted(cells, values)
    ensures Text(cells) == Expand(cells, values) <==> AllAlike(cells, values)
  {
    if cells != [] {
      var c, rest := cells[0], cells[1..];
      assert c in cells && cells == [c] + rest;
      AlikeIff(rest, values);
      hide Text, Expand;
      assert Text(cells) == Shown(c) + Text(rest) && Expand(cells, values) == Meant(c, values) + Expand(rest, values) by {
        Unfold(cells, values);
      }
      if Text(cells) == Expand(cells, values) {
        FrontsMeet(Shown(c), Text(rest), Meant(c, values), Expand(rest, values));
      }
    }
  }

  lemma Unfold(cells: seq<Cell>, values: map<string, string>)
    requires cells != []
    ensures Text(cells) == Shown(cells[0]) + Text(cells[1..])
    ensures Expand(cells, values) == Meant(cells[0], values) + Expand(cells[1..], values)
  {
  }

  lemma PlainAddsNothing(cells: seq<Cell>, rest: string, values: map<string, string>)
    ensures Parted(cells, values) ==> Parted(cells + Plain(rest), values)
    ensures AllAlike(cells + Plain(rest), values) <==> AllAlike(cells, values)
  {
    forall c | c in cells + Plain(rest) && c.Tok? ensures c in cells {
      assert c in cells || c in Plain(rest);
    }
    forall c | c in cells ensures c in cells + Plain(rest) {
    }
  }

  /** A pass leaves the text as it was exactly when every value it replaced equals its token, as long
      as no replaced value and its token begin one another. */
  lemma TextKeptIff(text: string, ms: seq<Match>, mode: Mode, t: Table)
    requires Spans(ms, text) && TwoWay(t)
    requires Parted(Cells(text, ms, mode, t), Rewritten(text, ms, mode, t).table.byToken)
    ensures Sanitized(text, ms, mode, t) == text
            <==> AllAlike(Cells(text, ms, mode, t), Rewritten(text, ms, mode, t).table.byToken)
  {
    hide TwoWay, Keeps, Rewritten, Cells, Parted, AllAlike, Text, Expand;
    var p, cells := Rewritten(text, ms, mode, t), Cells(text, ms, mode, t);
    KeepsItself(p.table);
    CellsAgree(text, ms, mode, t, p.table);
    var rest := text[p.last..];
    ThenPlain(cells, rest, p.table.byToken);
    PlainAddsNothing(cells, rest, p.table.byToken);
    AlikeIff(cells + Plain(rest), p.table.byToken);
    TakeDrop(text, p.last);
  }

  // Detectors that report whole words.

  /** Some report, on whatever text, is over a span with this content. */
  ghost predicate Wanted(detectors: seq<Detector>, content: string) {
    exists text, r :: Reported(detectors, text, r) && text[r.m.start..r.m.end] == content
  }

  /** A longest stretch of word characters. */
  ghost predicate Run(word: char -> bool, s: string, x: int, y: int) {
    && 0 <= x < y <= |s|
    && (forall i :: x <= i < y ==> word(s[i]))
    && (x > 0 ==> !word(s[x - 1])) && (y < |s| ==> !word(s[y]))
  }

  ghost predicate ReportedAt(detectors: seq<Detector>, text: string, x: int, y: int) {
    exists r :: Reported(detectors, text, r) && r.m.start == x && r.m.end == y
  }

  /** Every report is over a whole word, and a word is reported wherever it stands or nowhere. */
  ghost predicate WordWise(detectors: seq<Detector>, word: char -> bool) {
    && (forall text, r :: Reported(detectors, text, r) ==> Run(word, text, r.m.start, r.m.end))
    && (forall text, x, y :: Run(word, text, x, y) && Wanted(detectors, text[x..y]) ==> ReportedAt(detectors, text, x, y))
  }

  ghost predicate IsWord(word: char -> bool, s: string) {
    s != "" && forall i :: 0 <= i < |s| ==> word(s[i])
  }

  /** The tokens filed so far and those the detectors can ask for are words. */
  ghost predicate WordTokens(detectors: seq<Detector>, word: char -> bool, mode: Mode, t: Table) {
    && (forall k :: k in t.byToken ==> IsWord(word, k))
    && (forall text, m, n :: Found(detectors, text, m) ==> IsWord(word, Synthetic(mode, m.shape, n)))
  }

  /** A word the next pass has no business with. */
  ghost predicate Done(detectors: seq<Detector>, t: Table, content: string) {
    Skipped(t, content) || !Wanted(detectors, content)
  }

  ghost predicate AllDone(detectors: seq<Detector>, word: char -> bool, t: Table, s: string) {
    forall x, y :: Run(word, s, x, y) ==> Done(detectors, t, s[x..y])
  }

  lemma StillDone(detectors: seq<Detector>, word: char -> bool, t: Table, later: Table, s: string)
    requires AllDone(detectors, word, t, s) && Keeps(t, later)
    ensures AllDone(detectors, word, later, s)
  {
    hide Wanted, Run, HasReference;
  }

  lemma WordIsDone(detectors: seq<Detector>, word: char -> bool, t: Table, k: string)
    requires IsWord(word, k) && k in t.byToken
    ensures AllDone(detectors, word, t, k)
  {
    forall x, y | Run(word, k, x, y) ensures Done(detectors, t, k[x..y]) {
      assert x == 0 && y == |k|;
      assert k[x..y] == k;
    }
  }

  /** Nothing of a word lies on both sides of the place where two texts meet. */
  ghost predicate Joint(word: char -> bool, a: string, b: string) {
    a == "" || b == "" || !word(a[|a| - 1]) || !word(b[0])
  }

  lemma NotAcross(word: char -> bool, a: string, b: string, x: int, y: int)
    requires Run(word, a + b, x, y) && Joint(word, a, b)
    ensures y <= |a| || x >= |a|
  {
    var s := a + b;
    assert a != "" ==> s[|a| - 1] == a[|a| - 1];
    assert b != "" ==> s[|a|] == b[0];
  }

  lemma RunInFront(word: char -> bool, a: string, b: string, x: int, y: int)
    requires Run(word, a + b, x, y) && y <= |a|
    ensures 0 <= x < y && Run(word, a, x, y) && (a + b)[x..y] == a[x..y]
  {
    var s := a + b;
    assert forall i :: 0 <= i < |a| ==> a[i] == s[i];
  }

  lemma RunInBack(word: char -> bool, a: string, b: string, x: int, y: int)
    requires Run(word, a + b, x, y) && x >= |a|
    ensures x < y <= |a + b| && Run(word, b, x - |a|, y - |a|) && (a + b)[x..y] == b[x - |a|..y - |a|]
  {
    var s := a + b;
    assert forall i :: 0 <= i < |b| ==> b[i] == s[i + |a|];
  }

  lemma JoinedDone(detectors: seq<Detector>, word: char -> bool, t: Table, a: string, b: string)
    requires AllDone(detectors, word, t, a) && AllDone(detectors, word, t, b) && Joint(word, a, b)
    ensures AllDone(detectors, word, t, a + b)
  {
    hide Done, Run, Joint;
    RunsAreInside(word, a + b);
    forall x, y | Run(word, a + b, x, y) ensures Done(detectors, t, (a + b)[x..y]) {
      NotAcross(word, a, b, x, y);
      if y <= |a| {
        RunInFront(word, a, b, x, y);
      } else {
        RunInBack(word, a, b, x, y);
      }
    }
  }

  /** Where a pass stands: at the beginning, or behind a whole word. */
  ghost predicate AtEdge(word: char -> bool, text: string, p: Progress) {
    p.last <= |text| && (if p.last == 0 then p.built == "" else p.last < |text| ==> !word(text[p.last]))
  }

  /** Every match from some place on was passed over. */
  ghost predicate PassedOver(text: string, ms: seq<Match>, t: Table, from: nat) {
    forall j :: 0 <= j < |ms| && ms[j].start >= from ==> InBounds(ms[j], text) && Skipped(t, text[ms[j].start..ms[j].end])
  }

  /** Between the last replacement and the next, every word is either not wanted or passed over. */
  lemma GapDone(detectors: seq<Detector>, word: char -> bool, text: string, ms: seq<Match>, n: nat, t: Table, from: nat, to: nat)
    requires WordWise(detectors, word) && Result(detectors, text, ms) && n <= |ms|
    requires PassedOver(text, ms[..n], t, from)
    requires from <= to <= |text| && (if n < |ms| then to == ms[n].start else to == |text|)
    requires from > 0 && from < |text| ==> !word(text[from])
    requires to < |text| ==> to == 0 || !word(text[to - 1])
    ensures AllDone(detectors, word, t, text[from..to])
  {
    hide Skipped, Wanted, Run, WordWise, Result, InBounds;
    var gap := text[from..to];
    RunsAreInside(word, gap);
    forall x, y | Run(word, gap, x, y) ensures Done(detectors, t, gap[x..y]) {
      RunOfSlice(word, text, from, to, x, y);
      if Wanted(detectors, gap[x..y]) {
        var j := TakenAt(detectors, word, text, ms, from + x, from + y);
        EarlierMatch(detectors, text, ms, n, to, j);
        assert ms[..n][j] == ms[j];
      }
    }
  }

  lemma EarlierMatch(detectors: seq<Detector>, text: string, ms: seq<Match>, n: nat, to: nat, j: nat)
    requires Result(detectors, text, ms) && j < |ms| && n <= |ms| && (n < |ms| ==> ms[n].start == to) && ms[j].start < to
    ensures j < n
  {
    hide Complete, Sound;
    SoundInBounds(detectors, text, ms);
  }

  lemma RunsAreInside(word: char -> bool, s: string)
    ensures forall x, y :: Run(word, s, x, y) ==> 0 <= x < y <= |s|
  {
  }

  lemma RunOfSlice(word: char -> bool, text: string, from: nat, to: nat, x: int, y: int)
    requires from <= to <= |text| && Run(word, text[from..to], x, y)
    requires from > 0 && from < |text| ==> !word(text[from])
    requires to < |text| ==> to == 0 || !word(text[to - 1])
    ensures 0 <= x < y <= to - from && Run(word, text, from + x, from + y) && text[from + x..from + y] == text[from..to][x..y]
  {
    var gap := text[from..to];
    assert forall i :: from <= i < to ==> text[i] == gap[i - from];
  }

  /** A wanted word is among the matches kept. */
  lemma TakenAt(detectors: seq<Detector>, word: char -> bool, text: string, ms: seq<Match>, x: int, y: int) returns (j: nat)
    requires WordWise(detectors, word) && Result(detectors, text, ms)
    requires Run(word, text, x, y) && Wanted(detectors, text[x..y])
    ensures j < |ms| && ms[j].start == x && ms[j].end == y
  {
    hide Reported, Sound, Disjoint, Wanted;
    assert ReportedAt(detectors, text, x, y);
    var r :| Reported(detectors, text, r) && r.m.start == x && r.m.end == y;
    assert Outdone(detectors, text, ms, r);
    var w: Ranked :| w.m in ms && Reported(detectors, text, w) && Beats(w, r);
    assert Run(word, text, w.m.start, w.m.end);
    assert w.m.start == x && w.m.end == y;
    j :| 0 <= j < |ms| && ms[j] == w.m;
  }

  ghost predicate TokensAreWords(word: char -> bool, t: Table) {
    forall k :: k in t.byToken ==> IsWord(word, k)
  }

  lemma LookedIsWord(word: char -> bool, t: Table, value: string, detector: string, mint: nat -> string)
    requires TokensAreWords(word, t) && IsWord(word, mint(t.minted + 1))
    ensures TokensAreWords(word, Looked(t, value, detector, mint))
  {
  }

  /** What a pass over whole words has written holds only words that are done with. */
  lemma {:induction false} PassIsDone(detectors: seq<Detector>, word: char -> bool, text: string, ms: seq<Match>, n: nat, mode: Mode, t: Table)
    requires WordWise(detectors, word) && WordTokens(detectors, word, mode, t) && TwoWay(t)
    requires Result(detectors, text, ms) && n <= |ms|
    ensures Spans(ms[..n], text)
    ensures var p := Rewritten(text, ms[..n], mode, t);
            && AtEdge(word, text, p) && AllDone(detectors, word, p.table, p.built)
            && PassedOver(text, ms[..n], p.table, p.last)
            && TokensAreWords(word, p.table) && TwoWay(p.table)
  {
    hide *;
    SpansOfResult(detectors, text, ms, n);
    if n == 0 {
      NothingWritten(detectors, word, text, mode, t);
      assert ms[..0] == [];
      return;
    }
    PassIsDone(detectors, word, text, ms, n - 1, mode, t);
    var p, m := Rewritten(text, ms[..n - 1], mode, t), ms[n - 1];
    assert ms[..n][..n - 1] == ms[..n - 1];
    RunOfMatch(detectors, word, text, ms, n - 1);
    RewrittenNext(text, ms, n - 1, mode, t);
    if Skipped(p.table, text[m.start..m.end]) {
      OneMorePassed(text, ms, n - 1, p.table, p.last);
    } else {
      TokenIsWord(detectors, word, text, ms, n - 1, mode, t, p.table, text[m.start..m.end]);
      ReplacedIsDone(detectors, word, text, ms, n - 1, mode, p);
      WordMinted(detectors, word, text, ms, n - 1, mode, t, p.table);
    }
  }

  lemma SpansOfResult(detectors: seq<Detector>, text: string, ms: seq<Match>, n: nat)
    requires Result(detectors, text, ms) && n <= |ms|
    ensures Spans(ms[..n], text) && Spans(ms, text)
    ensures forall i :: 0 <= i < |ms| ==> InBounds(ms[i], text)
  {
    hide Complete, Sound;
    SoundInBounds(detectors, text, ms);
  }

  lemma NothingWritten(detectors: seq<Detector>, word: char -> bool, text: string, mode: Mode, t: Table)
    requires WordTokens(detectors, word, mode, t) && Spans([], text)
    ensures var p := Rewritten(text, [], mode, t);
            && p == Progress("", 0, t, 0) && AtEdge(word, text, p) && AllDone(detectors, word, t, "") && PassedOver(text, [], t, 0)
            && TokensAreWords(word, t)
  {
    hide Found, TwoWay;
  }

  lemma RunOfMatch(detectors: seq<Detector>, word: char -> bool, text: string, ms: seq<Match>, i: nat)
    requires WordWise(detectors, word) && Result(detectors, text, ms) && i < |ms|
    ensures Run(word, text, ms[i].start, ms[i].end)
  {
    hide Complete, Disjoint, Run, Reported;
    assert Found(detectors, text, ms[i]);
  }

  /** One match more. */
  lemma RewrittenNext(text: string, ms: seq<Match>, i: nat, mode: Mode, t: Table)
    requires i < |ms| && Spans(ms[..i], text) && Spans(ms[..i + 1], text)
    ensures var p, m := Rewritten(text, ms[..i], mode, t), ms[i];
            && p.last <= m.start <= m.end <= |text|
            && Rewritten(text, ms[..i + 1], mode, t)
               == var candidate := text[m.start..m.end];
                  if Skipped(p.table, candidate) then p
                  else Progress(p.built + text[p.last..m.start] + TokenOf(p.table, candidate, Mint(mode, m.shape)), m.end,
                                Looked(p.table, candidate, m.shape.detector, Mint(mode, m.shape)), p.n + 1)
  {
    hide Skipped, Looked, TokenOf, Disjoint;
    SpansPrefix(ms[..i + 1], text);
    assert ms[..i + 1][..i] == ms[..i];
  }

  lemma OneMorePassed(text: string, ms: seq<Match>, i: nat, t: Table, from: nat)
    requires i < |ms| && PassedOver(text, ms[..i], t, from) && InBounds(ms[i], text) && Skipped(t, text[ms[i].start..ms[i].end])
    ensures PassedOver(text, ms[..i + 1], t, from)
  {
    hide Skipped;
    assert forall j :: 0 <= j < i ==> ms[..i + 1][j] == ms[..i][j];
  }

  lemma NonePassed(text: string, ms: seq<Match>, i: nat, t: Table)
    requires i < |ms| && Spans(ms[..i + 1], text)
    ensures PassedOver(text, ms[..i + 1], t, ms[i].end)
  {
    hide Skipped;
    var kept := ms[..i + 1];
    assert kept[i] == ms[i];
    forall j | 0 <= j < |kept| ensures kept[j].start < ms[i].end {
      assert InBounds(kept[j], text);
    }
  }

  /** After a replacement only words done with are written, the new token included. */
  lemma ReplacedIsDone(detectors: seq<Detector>, word: char -> bool, text: string, ms: seq<Match>, i: nat, mode: Mode, p: Progress)
    requires WordWise(detectors, word) && Result(detectors, text, ms) && i < |ms| && Spans(ms[..i + 1], text)
    requires AtEdge(word, text, p) && p.last <= ms[i].start && AllDone(detectors, word, p.table, p.built)
    requires PassedOver(text, ms[..i], p.table, p.last) && TwoWay(p.table)
    requires Run(word, text, ms[i].start, ms[i].end)
    requires IsWord(word, TokenOf(p.table, text[ms[i].start..ms[i].end], Mint(mode, ms[i].shape)))
    ensures var m := ms[i];
            var candidate := text[m.start..m.end];
            var next := Looked(p.table, candidate, m.shape.detector, Mint(mode, m.shape));
            && AtEdge(word, text, Progress(p.built + text[p.last..m.start] + TokenOf(p.table, candidate, Mint(mode, m.shape)), m.end, next, p.n + 1))
            && AllDone(detectors, word, next, p.built + text[p.last..m.start] + TokenOf(p.table, candidate, Mint(mode, m.shape)))
            && PassedOver(text, ms[..i + 1], next, m.end) && TwoWay(next)
  {
    hide WordWise, Result, Spans, AtEdge, AllDone, PassedOver, TwoWay, Keeps, Looked, TokenOf, IsWord, Joint;
    var m := ms[i];
    var candidate := text[m.start..m.end];
    var next := Looked(p.table, candidate, m.shape.detector, Mint(mode, m.shape));
    var k, gap := TokenOf(p.table, candidate, Mint(mode, m.shape)), text[p.last..m.start];
    LookupStep(p.table, candidate, m.shape, mode);
    EdgeFacts(word, text, p, m, k);
    GapDone(detectors, word, text, ms, i, p.table, p.last, m.start);
    JoinedDone(detectors, word, p.table, p.built, gap);
    StillDone(detectors, word, p.table, next, p.built + gap);
    WordIsDone(detectors, word, next, k);
    JoinedDone(detectors, word, next, p.built + gap, k);
    NonePassed(text, ms, i, next);
    EdgeAfter(word, text, m, Progress(p.built + gap + k, m.end, next, p.n + 1));
  }

  lemma EdgeFacts(word: char -> bool, text: string, p: Progress, m: Match, k: string)
    requires AtEdge(word, text, p) && Run(word, text, m.start, m.end) && p.last <= m.start
    ensures Joint(word, p.built, text[p.last..m.start]) && Joint(word, p.built + text[p.last..m.start], k)
    ensures p.last > 0 && p.last < |text| ==> !word(text[p.last])
    ensures m.start > 0 ==> !word(text[m.start - 1])
  {
  }

  lemma EdgeAfter(word: char -> bool, text: string, m: Match, p: Progress)
    requires Run(word, text, m.start, m.end) && p.last == m.end
    ensures AtEdge(word, text, p)
  {
  }

  lemma TokenIsWord(detectors: seq<Detector>, word: char -> bool, text: string, ms: seq<Match>, i: nat, mode: Mode, t: Table, u: Table, value: string)
    requires WordTokens(detectors, word, mode, t) && Result(detectors, text, ms) && i < |ms|
    requires TokensAreWords(word, u) && TwoWay(u)
    ensures IsWord(word, TokenOf(u, value, Mint(mode, ms[i].shape)))
    ensures IsWord(word, Mint(mode, ms[i].shape)(u.minted + 1))
  {
    hide Complete, Disjoint, Numbered, TokensGoOut, IsWord, Synthetic;
    assert Found(detectors, text, ms[i]);
    assert Mint(mode, ms[i].shape)(u.minted + 1) == Synthetic(mode, ms[i].shape, u.minted + 1);
  }

  lemma WordMinted(detectors: seq<Detector>, word: char -> bool, text: string, ms: seq<Match>, i: nat, mode: Mode, t: Table, u: Table)
    requires WordTokens(detectors, word, mode, t) && Result(detectors, text, ms) && i < |ms| && InBounds(ms[i], text)
    requires TokensAreWords(word, u) && TwoWay(u)
    ensures TokensAreWords(word, Looked(u, text[ms[i].start..ms[i].end], ms[i].shape.detector, Mint(mode, ms[i].shape)))
  {
    hide WordTokens, Result, TokensAreWords, TwoWay, Looked, TokenOf, IsWord;
    TokenIsWord(detectors, word, text, ms, i, mode, t, u, text[ms[i].start..ms[i].end]);
    LookedIsWord(word, u, text[ms[i].start..ms[i].end], ms[i].shape.detector, Mint(mode, ms[i].shape));
  }

  /** With detectors that report whole words and tokens that are words, sanitizing again changes
      nothing, neither the text nor the table. */
  lemma WordWiseIsIdempotent(detectors: seq<Detector>, word: char -> bool, text: string, ms: seq<Match>, again: seq<Match>, mode: Mode, t: Table)
    requires WordWise(detectors, word) && WordTokens(detectors, word, mode, t) && TwoWay(t)
    requires Result(detectors, text, ms)
    ensures Spans(ms, text)
    ensures Result(detectors, Sanitized(text, ms, mode, t), again) ==>
              var out, t1 := Sanitized(text, ms, mode, t), Rewritten(text, ms, mode, t).table;
              Spans(again, out) && Sanitized(out, again, mode, t1) == out && Rewritten(out, again, mode, t1).table == t1
  {
    hide *;
    SpansOfResult(detectors, text, ms, |ms|);
    TakeAll(ms);
    var out, t1 := Sanitized(text, ms, mode, t), Rewritten(text, ms, mode, t).table;
    PassIsDone(detectors, word, text, ms, |ms|, mode, t);
    SanitizedIsDone(detectors, word, text, ms, mode, t);
    if Result(detectors, out, again) {
      SpansOfResult(detectors, out, again, |again|);
      TakeAll(again);
      DoneIsSkipped(detectors, word, out, again, t1);
      SecondPassIdleIff(text, ms, again, mode, t);
    }
  }

  lemma SanitizedIsDone(detectors: seq<Detector>, word: char -> bool, text: string, ms: seq<Match>, mode: Mode, t: Table)
    requires WordWise(detectors, word) && Result(detectors, text, ms) && Spans(ms, text)
    requires var p := Rewritten(text, ms, mode, t);
             AtEdge(word, text, p) && AllDone(detectors, word, p.table, p.built) && PassedOver(text, ms, p.table, p.last)
    ensures AllDone(detectors, word, Rewritten(text, ms, mode, t).table, Sanitized(text, ms, mode, t))
  {
    hide WordWise, Result, Spans, Rewritten, AllDone, PassedOver;
    var p := Rewritten(text, ms, mode, t);
    TakeAll(ms);
    TakeAll(text);
    GapDone(detectors, word, text, ms, |ms|, p.table, p.last, |text|);
    assert text[p.last..|text|] == text[p.last..];
    JoinedDone(detectors, word, p.table, p.built, text[p.last..]);
  }

  lemma DoneIsSkipped(detectors: seq<Detector>, word: char -> bool, out: string, again: seq<Match>, t: Table)
    requires WordWise(detectors, word) && Result(detectors, out, again) && AllDone(detectors, word, t, out)
    ensures AllSkipped(out, again, t)
  {
    hide Complete, Disjoint, Skipped;
    SoundInBounds(detectors, out, again);
    forall m | m in again ensures InBounds(m, out) && Skipped(t, out[m.start..m.end]) {
      var i :| 0 <= i < |again| && again[i] == m;
      RunOfMatch(detectors, word, out, again, i);
      WantedMatch(detectors, out, again, i);
      assert Done(detectors, t, out[m.start..m.end]);
    }
  }

  lemma WantedMatch(detectors: seq<Detector>, text: string, ms: seq<Match>, i: nat)
    requires Result(detectors, text, ms) && i < |ms|
    ensures InBounds(ms[i], text) && Wanted(detectors, text[ms[i].start..ms[i].end])
  {
    hide Complete, Disjoint;
    assert Found(detectors, text, ms[i]);
    var r :| Reported(detectors, text, r) && r.m == ms[i];
    assert text[r.m.start..r.m.end] == text[ms[i].start..ms[i].end];
  }

  // Detectors of whole words, as patterns between word boundaries are.

  function WordEnd(word: char -> bool, s: string, i: nat): (j: nat)
    requires i <= |s|
    ensures i <= j <= |s| && (forall n :: i <= n < j ==> word(s[n])) && (j < |s| ==> !word(s[j]))
    decreases |s| - i
  {
    if i < |s| && word(s[i]) then WordEnd(word, s, i + 1) else i
  }

  function WordsFrom(word: char -> bool, shape: Shape, confidence: real, s: string, i: nat): seq<Match>
    requires i <= |s|
    decreases |s| - i
  {
    if i == |s| then []
    else if !word(s[i]) then WordsFrom(word, shape, confidence, s, i + 1)
    else
      var j := WordEnd(word, s, i + 1);
      [Match(i, j, shape, confidence)] + WordsFrom(word, shape, confidence, s, j)
  }

  /** The detector of the words whose content is wanted. */
  function WordDetector(word: char -> bool, wanted: string -> bool, shape: Shape, confidence: real): Detector {
    Detector(s => WordsFrom(word, shape, confidence, s, 0), wanted)
  }

  /** The detector finds the whole words of a text, all of them, and gives each the same shape. */
  ghost predicate FindsWords(d: Detector, word: char -> bool, shape: Shape, confidence: real) {
    forall s, m {:trigger m in d.find(s)} :: m in d.find(s) <==> Run(word, s, m.start, m.end) && m.shape == shape && m.confidence == confidence
  }

  lemma {:induction false} WordsAreRuns(word: char -> bool, shape: Shape, confidence: real, s: string, i: nat, m: Match)
    requires i <= |s| && (0 < i < |s| && word(s[i]) ==> !word(s[i - 1]))
    ensures m in WordsFrom(word, shape, confidence, s, i)
            <==> Run(word, s, m.start, m.end) && m.start >= i && m.shape == shape && m.confidence == confidence
    decreases |s| - i
  {
    if i < |s| {
      if !word(s[i]) {
        WordsAreRuns(word, shape, confidence, s, i + 1, m);
      } else {
        var j := WordEnd(word, s, i + 1);
        WordsAreRuns(word, shape, confidence, s, j, m);
        assert Run(word, s, i, j);
        var first, others := Match(i, j, shape, confidence), WordsFrom(word, shape, confidence, s, j);
        assert m in [first] + others <==> m == first || m in others;
      }
    }
  }

  lemma WordDetectorFinds(word: char -> bool, wanted: string -> bool, shape: Shape, confidence: real)
    ensures FindsWords(WordDetector(word, wanted, shape, confidence), word, shape, confidence)
  {
    hide Run;
    forall s, m ensures m in WordsFrom(word, shape, confidence, s, 0)
                        <==> Run(word, s, m.start, m.end) && m.shape == shape && m.confidence == confidence {
      WordsAreRuns(word, shape, confidence, s, 0, m);
      RunStarts(word, s, m.start, m.end);
    }
  }

  lemma RunStarts(word: char -> bool, s: string, x: int, y: int)
    ensures Run(word, s, x, y) ==> 0 <= x < y <= |s|
  {
  }

  ghost predicate FindWords(detectors: seq<Detector>, word: char -> bool, shapes: seq<Shape>) {
    |shapes| == |detectors| && forall i :: 0 <= i < |detectors| ==> exists confidence :: FindsWords(detectors[i], word, shapes[i], confidence)
  }

  lemma FindersAreWordWise(detectors: seq<Detector>, word: char -> bool, shapes: seq<Shape>)
    requires FindWords(detectors, word, shapes)
    ensures WordWise(detectors, word)
  {
    forall text, r | Reported(detectors, text, r) ensures Run(word, text, r.m.start, r.m.end) {
      var confidence :| FindsWords(detectors[r.order], word, shapes[r.order], confidence);
    }
    forall text, x, y | Run(word, text, x, y) && Wanted(detectors, text[x..y]) ensures ReportedAt(detectors, text, x, y) {
      var other, r :| Reported(detectors, other, r) && other[r.m.start..r.m.end] == text[x..y];
      var confidence :| FindsWords(detectors[r.order], word, shapes[r.order], confidence);
      var m := Match(x, y, shapes[r.order], confidence);
      RunStarts(word, text, x, y);
      assert m in detectors[r.order].find(text);
      assert Reported(detectors, text, Ranked(m, r.order));
    }
  }

  /** Digits, capitals and the underscore are in words, and so is all the token keeps of the match. */
  ghost predicate WordShape(word: char -> bool, shape: Shape) {
    && (forall c :: '0' <= c <= '9' || 'A' <= c <= 'Z' || c == '_' ==> word(c))
    && shape.template == NoTemplate
    && (forall i :: 0 <= i < |shape.prefix| ==> word(shape.prefix[i]))
    && (forall i :: 0 <= i < |shape.detector| ==> word(UpperChar(shape.detector[i])))
  }

  lemma SyntheticIsWord(word: char -> bool, mode: Mode, shape: Shape, n: nat)
    requires WordShape(word, shape)
    ensures IsWord(word, Synthetic(mode, shape, n))
  {
    var d := Padded(if mode == Private then 3 else 6, n);
    assert forall i :: 0 <= i < |d| ==> IsDigit(d[i]) && word(d[i]);
  }

  /** Detectors that find whole words, and shapes and filed tokens made of word characters, are all
      that idempotence needs. */
  lemma WholeWordsAreIdempotent(detectors: seq<Detector>, word: char -> bool, shapes: seq<Shape>,
                                text: string, ms: seq<Match>, again: seq<Match>, mode: Mode, t: Table)
    requires FindWords(detectors, word, shapes) && (forall i :: 0 <= i < |shapes| ==> WordShape(word, shapes[i]))
    requires TwoWay(t) && TokensAreWords(word, t) && Result(detectors, text, ms)
    ensures Spans(ms, text)
    ensures Result(detectors, Sanitized(text, ms, mode, t), again) ==>
              var out, t1 := Sanitized(text, ms, mode, t), Rewritten(text, ms, mode, t).table;
              Spans(again, out) && Sanitized(out, again, mode, t1) == out && Rewritten(out, again, mode, t1).table == t1
  {
    hide Result, Sanitized, Rewritten, Spans, TwoWay, IsWord, WordShape, WordWise;
    FindersAreWordWise(detectors, word, shapes);
    forall other, m, n | Found(detectors, other, m) ensures IsWord(word, Synthetic(mode, m.shape, n)) {
      var r :| Reported(detectors, other, r) && r.m == m;
      var confidence :| FindsWords(detectors[r.order], word, shapes[r.order], confidence);
      SyntheticIsWord(word, mode, shapes[r.order], n);
    }
    WordWiseIsIdempotent(detectors, word, text, ms, again, mode, t);
  }

  // A detector of six digits anywhere, as a custom pattern may ask for.

  const PIN := Shape("pin", "", NoTemplate)

  /** What every pattern detector refuses: tokens, references and placeholders. */
  predicate PatternValidate(candidate: string) {
    Count(candidate, "SNAT") == 0 && Count(candidate, "SECRET_TOKEN_") == 0 && !("${" <= candidate) && !("<" <= candidate)
  }

  predicate SixDigits(s: string, i: nat) {
    i + 6 <= |s| && forall n :: i <= n < i + 6 ==> IsDigit(s[n])
  }

  /** Six digits in a row, leftmost first and without overlap. */
  function PinsFrom(s: string, i: nat): seq<Match>
    decreases |s| - i
  {
    if i >= |s| then []
    else if SixDigits(s, i) then [Match(i, i + 6, PIN, 0.7)] + PinsFrom(s, i + 6)
    else PinsFrom(s, i + 1)
  }

  const PIN_DETECTOR := Detector(s => PinsFrom(s, 0), PatternValidate)

  const PIN_TOKEN := "PIN_SNAT_" + "000001"
  const PIN_TWICE := "PIN_SNAT_" + "PIN_SNAT_000002"

  lemma {:induction false} SkipNonDigits(s: string, i: nat, j: nat)
    requires i <= j <= |s| && forall n :: i <= n < j ==> !IsDigit(s[n])
    ensures PinsFrom(s, i) == PinsFrom(s, j)
    decreases j - i
  {
    if i < j {
      assert !IsDigit(s[i]);
      SkipNonDigits(s, i + 1, j);
    }
  }

  /** With one report there is one result. */
  lemma OneReport(detectors: seq<Detector>, text: string, m: Match, out: seq<Match>)
    requires forall r :: Reported(detectors, text, r) <==> r == Ranked(m, 0)
    ensures Result(detectors, text, out) <==> out == [m]
  {
    var r := Ranked(m, 0);
    assert Reported(detectors, text, r);
    hide Reported;
    if Result(detectors, text, out) {
      assert Outdone(detectors, text, out, r);
      forall i | 0 <= i < |out| ensures out[i] == m {
        assert Found(detectors, text, out[i]);
      }
      assert |out| > 1 ==> out[0].end <= out[1].start;
    }
    if out == [m] {
      OneIsResult(detectors, text, m);
    }
  }

  lemma OneIsResult(detectors: seq<Detector>, text: string, m: Match)
    requires forall r :: Reported(detectors, text, r) <==> r == Ranked(m, 0)
    ensures Result(detectors, text, [m])
  {
    var r := Ranked(m, 0);
    assert Reported(detectors, text, r);
    hide Reported;
    assert Beats(r, r) && Found(detectors, text, m);
    assert [m][0] == m;
  }

  lemma FirstPins(out: seq<Match>)
    ensures Result([PIN_DETECTOR], "123456", out) <==> out == [Match(0, 6, PIN, 0.7)]
  {
    var s, m := "123456", Match(0, 6, PIN, 0.7);
    assert SixDigits(s, 0);
    assert PinsFrom(s, 0) == [m] + PinsFrom(s, 6) == [m];
    assert s[0..6] == s;
    assert PatternValidate(s) by { PlainDigits(s); }
    OnlyReport(s, m);
    OneReport([PIN_DETECTOR], s, m, out);
  }

  lemma SecondPins(out: seq<Match>)
    ensures Result([PIN_DETECTOR], PIN_TOKEN, out) <==> out == [Match(9, 15, PIN, 0.7)]
  {
    var s, m := PIN_TOKEN, Match(9, 15, PIN, 0.7);
    SkipNonDigits(s, 0, 9);
    assert SixDigits(s, 9);
    assert PinsFrom(s, 0) == [m] + PinsFrom(s, 15) == [m];
    assert s[9..15] == "000001";
    assert PatternValidate("000001") by { PlainDigits("000001"); }
    OnlyReport(s, m);
    OneReport([PIN_DETECTOR], s, m, out);
  }

  lemma OnlyReport(s: string, m: Match)
    requires PinsFrom(s, 0) == [m] && InBounds(m, s) && PatternValidate(s[m.start..m.end])
    ensures forall r :: Reported([PIN_DETECTOR], s, r) <==> r == Ranked(m, 0)
  {
    hide PatternValidate, PinsFrom;
    assert [PIN_DETECTOR][0].find(s) == [m];
  }

  /** Digits hold nothing that a pattern detector refuses. */
  lemma {:induction false} NoneInDigits(s: string, key: string)
    requires key != "" && !IsDigit(key[0]) && forall i :: 0 <= i < |s| ==> IsDigit(s[i])
    ensures Count(s, key) == 0
  {
    if |s| >= |key| {
      NoneInDigits(s[1..], key);
    }
  }

  lemma PlainDigits(s: string)
    requires forall i :: 0 <= i < |s| ==> IsDigit(s[i])
    ensures PatternValidate(s)
  {
    NoneInDigits(s, "SNAT");
    NoneInDigits(s, "SECRET_TOKEN_");
    assert s != "" ==> s[0] != "${"[0] && s[0] != "<"[0];
  }

  /** Sanitizing is not idempotent for every detector a configuration may name: six digits become a
      token that ends in six digits, which a second pass replaces in turn. */
  lemma DigitsAreReplacedTwice(ms: seq<Match>, again: seq<Match>)
    requires Result([PIN_DETECTOR], "123456", ms) && Result([PIN_DETECTOR], PIN_TOKEN, again)
    ensures Spans(ms, "123456") && Spans(again, PIN_TOKEN)
    ensures var t1 := Rewritten("123456", ms, Semantic, EMPTY).table;
            && Sanitized("123456", ms, Semantic, EMPTY) == PIN_TOKEN
            && Sanitized(PIN_TOKEN, again, Semantic, t1) == PIN_TWICE != PIN_TOKEN
  {
    hide Result, TokenOf, Looked, Skipped, Spans, Sanitized, Rewritten;
    FirstPins(ms);
    SecondPins(again);
    PinTokens();
    var one := Looked(EMPTY, "123456", "pin", Mint(Semantic, PIN));
    PinSlices();
    OneReplaced("123456", Match(0, 6, PIN, 0.7), Semantic, EMPTY, PIN_TOKEN);
    OneReplaced(PIN_TOKEN, Match(9, 15, PIN, 0.7), Semantic, one, "PIN_SNAT_000002");
  }

  lemma PinSlices()
    ensures "123456"[0..6] == "123456" && "123456"[..0] + PIN_TOKEN + "123456"[6..] == PIN_TOKEN
    ensures PIN_TOKEN[9..15] == "000001" && PIN_TOKEN[..9] + "PIN_SNAT_000002" + PIN_TOKEN[15..] == PIN_TWICE
    ensures PIN_TWICE != PIN_TOKEN
  {
    ConcatParts("PIN_SNAT_", "000001");
    TakeAll(PIN_TOKEN);
    TakeAll("123456");
  }

  /** A pass over one match. */
  lemma OneReplaced(text: string, m: Match, mode: Mode, t: Table, k: string)
    requires InBounds(m, text) && !Skipped(t, text[m.start..m.end])
    requires TokenOf(t, text[m.start..m.end], Mint(mode, m.shape)) == k
    ensures Spans([m], text)
    ensures Sanitized(text, [m], mode, t) == text[..m.start] + k + text[m.end..]
    ensures Rewritten(text, [m], mode, t).table == Looked(t, text[m.start..m.end], m.shape.detector, Mint(mode, m.shape))
  {
    hide Skipped, TokenOf, Looked;
    assert [m][..0] == [] && [m][0] == m;
    assert Rewritten(text, [], mode, t) == Progress("", 0, t, 0);
    assert "" + text[0..m.start] + k == text[..m.start] + k;
  }

  /** Two values asked for in turn of an empty table. */
  lemma TwoMinted(a: string, b: string, shape: Shape, j: string, k: string)
    requires Synthetic(Semantic, shape, 1) == j && Synthetic(Semantic, shape, 2) == k
    requires b != a && b != j && !HasReference(a) && !HasReference(b)
    ensures var one := Looked(EMPTY, a, shape.detector, Mint(Semantic, shape));
            && !Skipped(EMPTY, a) && TokenOf(EMPTY, a, Mint(Semantic, shape)) == j
            && !Skipped(one, b) && TokenOf(one, b, Mint(Semantic, shape)) == k
            && Looked(one, b, shape.detector, Mint(Semantic, shape)) != one
  {
    hide Synthetic, HasReference;
    var mint := Mint(Semantic, shape);
    assert mint(1) == j && mint(2) == k;
    var one := Looked(EMPTY, a, shape.detector, mint);
    assert one.byToken == map[j := a] && one.minted == 1;
    assert Looked(one, b, shape.detector, mint).minted == 2;
  }

  lemma PinTokens()
    ensures var one := Looked(EMPTY, "123456", "pin", Mint(Semantic, PIN));
            && !Skipped(EMPTY, "123456") && TokenOf(EMPTY, "123456", Mint(Semantic, PIN)) == PIN_TOKEN
            && !Skipped(one, "000001") && TokenOf(one, "000001", Mint(Semantic, PIN)) == "PIN_SNAT_000002"
  {
    PinMinted();
    NoDollar("123456");
    NoDollar("000001");
    assert |"000001"| != |PIN_TOKEN| && "000001"[0] != "123456"[0];
    TwoMinted("123456", "000001", PIN, PIN_TOKEN, "PIN_SNAT_000002");
  }

  lemma PinMinted()
    ensures Synthetic(Semantic, PIN, 1) == PIN_TOKEN && Synthetic(Semantic, PIN, 2) == "PIN_SNAT_000002"
  {
    SmallNumbers();
    hide Padded;
    assert UpperName("pin") == "PIN";
    assert "PIN" + "_SNAT_" + "000001" == PIN_TOKEN;
    assert "PIN" + "_SNAT_" + "000002" == "PIN_SNAT_000002";
  }

  lemma {:induction false} NoDollar(s: string)
    requires forall i :: 0 <= i < |s| ==> s[i] != '$'
    ensures !HasReference(s)
  {
    if |s| >= 2 {
      assert s[..2][0] == s[0];
      NoDollar(s[1..]);
    }
  }

  // A second pass that replaces a value by itself.

  const SELF := Shape("", "p", NoTemplate)
  const SELF_ONCE := "pSNAT000001" + "pSNAT000002"

  /** A value that equals its token: the number minted next is the one in the text. The second pass
      replaces it and leaves the text as it was, but not the table. */
  lemma ReplacedByItself()
    ensures var ms, again := [Match(0, 1, SELF, 0.7)], [Match(11, 22, SELF, 0.7)];
            && Spans(ms, "xpSNAT000002") && Sanitized("xpSNAT000002", ms, Semantic, EMPTY) == SELF_ONCE
            && Spans(again, SELF_ONCE)
            && var t1 := Rewritten("xpSNAT000002", ms, Semantic, EMPTY).table;
               !AllSkipped(SELF_ONCE, again, t1) && Sanitized(SELF_ONCE, again, Semantic, t1) == SELF_ONCE
               && Rewritten(SELF_ONCE, again, Semantic, t1).table != t1
  {
    hide TokenOf, Looked, Skipped, Spans, Sanitized, Rewritten;
    SelfTokens();
    SelfSlices();
    var one, m := Looked(EMPTY, "x", "", Mint(Semantic, SELF)), Match(11, 22, SELF, 0.7);
    OneReplaced("xpSNAT000002", Match(0, 1, SELF, 0.7), Semantic, EMPTY, "pSNAT000001");
    OneReplaced(SELF_ONCE, m, Semantic, one, "pSNAT000002");
    assert m in [m];
  }

  lemma SelfTokens()
    ensures var one := Looked(EMPTY, "x", "", Mint(Semantic, SELF));
            && !Skipped(EMPTY, "x") && TokenOf(EMPTY, "x", Mint(Semantic, SELF)) == "pSNAT000001"
            && !Skipped(one, "pSNAT000002") && TokenOf(one, "pSNAT000002", Mint(Semantic, SELF)) == "pSNAT000002"
            && Looked(one, "pSNAT000002", "", Mint(Semantic, SELF)) != one
  {
    hide Skipped, TokenOf, Looked, Synthetic;
    SelfMinted();
    SelfDiffer();
    TwoMinted("x", "pSNAT000002", SELF, "pSNAT000001", "pSNAT000002");
  }

  lemma SelfDiffer()
    ensures "pSNAT000002" != "x" && "pSNAT000002" != "pSNAT000001" && !HasReference("x") && !HasReference("pSNAT000002")
  {
    NoDollar("x");
    NoDollar("pSNAT000002");
    assert "pSNAT000002"[10] != "pSNAT000001"[10];
  }

  lemma SelfMinted()
    ensures Synthetic(Semantic, SELF, 1) == "pSNAT000001" && Synthetic(Semantic, SELF, 2) == "pSNAT000002"
  {
    SmallNumbers();
    hide Padded;
    assert "p" + "SNAT" + "000001" == "pSNAT000001";
    assert "p" + "SNAT" + "000002" == "pSNAT000002";
  }

  lemma SelfSlices()
    ensures "xpSNAT000002"[0..1] == "x" && "xpSNAT000002"[..0] + "pSNAT000001" + "xpSNAT000002"[1..] == SELF_ONCE
    ensures SELF_ONCE[11..22] == "pSNAT000002" && SELF_ONCE[..11] + "pSNAT000002" + SELF_ONCE[22..] == SELF_ONCE
  {
    ConcatParts("pSNAT000001", "pSNAT000002");
    TakeAll(SELF_ONCE);
    assert "xpSNAT000002"[1..] == "pSNAT000002";
  }
}
