/** Refusing detectors that each have their own idea of a word: when sanitizing leaves nothing for any
    of them to find. */
module MixedWords {
  import opened Decimal
  import opened TokenFormat
  import opened TokenTable
  import opened Detection
  import opened SecretTranslation
  import opened SanitizeTwice
  import opened PatternDetectors
  import opened Sequences

  /** Some report of the detector, on whatever text, is over a span with this content. */
  ghost predicate WantedBy(detectors: seq<Detector>, d: nat, content: string) {
    exists text, r :: Reported(detectors, text, r) && r.order == d && text[r.m.start..r.m.end] == content
  }

  ghost predicate ReportedBy(detectors: seq<Detector>, d: nat, text: string, x: int, y: int) {
    exists r :: Reported(detectors, text, r) && r.order == d && r.m.start == x && r.m.end == y
  }

  /** Each detector reports whole words of its own kind, and a word wherever it stands or nowhere. */
  ghost predicate EachWordWise(detectors: seq<Detector>, words: seq<char -> bool>) {
    && |words| == |detectors|
    && (forall text, r :: Reported(detectors, text, r) ==> Run(words[r.order], text, r.m.start, r.m.end))
    && (forall d, text, x, y :: 0 <= d < |words| && Run(words[d], text, x, y) && WantedBy(detectors, d, text[x..y]) ==>
          ReportedBy(detectors, d, text, x, y))
    && (forall d :: 0 <= d < |words| ==> !words[d]('$'))
  }

  /** A piece of a token that cannot make anything wanted: it is marked, or within the token and not wanted. */
  ghost predicate Harmless(detectors: seq<Detector>, d: nat, k: string, x: int, y: int)
    requires 0 <= x <= y <= |k|
  {
    Marked(k[x..y]) || (0 < x && y < |k| && !WantedBy(detectors, d, k[x..y]))
  }

  /** The token can stand for the value before the eyes of this detector: where the value's end is in a
      word so is the token's, and all its pieces are harmless. */
  ghost predicate FitsFor(detectors: seq<Detector>, d: nat, word: char -> bool, v: string, k: string) {
    && k != "" && v != ""
    && (word(v[0]) ==> word(k[0])) && (word(v[|v| - 1]) ==> word(k[|k| - 1]))
    && (forall x, y :: Run(word, k, x, y) ==> Harmless(detectors, d, k, x, y))
  }

  ghost predicate Fits(detectors: seq<Detector>, words: seq<char -> bool>, v: string, k: string) {
    forall d :: 0 <= d < |words| ==> FitsFor(detectors, d, words[d], v, k)
  }

  ghost predicate ReportFits(detectors: seq<Detector>, words: seq<char -> bool>, mode: Mode, text: string, m: Match, n: nat) {
    InBounds(m, text) && Fits(detectors, words, text[m.start..m.end], Synthetic(mode, m.shape, n))
  }

  /** Every token filed fits its value, and so does every token a report can ask for. */
  ghost predicate AllFit(detectors: seq<Detector>, words: seq<char -> bool>, mode: Mode, t: Table) {
    && TableFits(detectors, words, t)
    && (forall text, m, n :: Found(detectors, text, m) ==> ReportFits(detectors, words, mode, text, m, n))
  }

  ghost predicate TableFits(detectors: seq<Detector>, words: seq<char -> bool>, t: Table) {
    forall v :: v in t.byValue ==> Fits(detectors, words, v, t.byValue[v].token)
  }

  // One value exchanged for its token.

  lemma WantedIsUnmarked(detectors: seq<Detector>, d: nat, c: string)
    requires Refusing(detectors) && WantedBy(detectors, d, c)
    ensures !Marked(c)
  {
    hide Marked;
  }

  /** The part of a word that lies in the token. */
  lemma PieceOf(word: char -> bool, a: string, k: string, b: string, x: int, y: int) returns (i: int, j: int)
    requires k != "" && Run(word, a + k + b, x, y) && x < |a| + |k| && y > |a|
    ensures 0 <= i < j <= |k| && Run(word, k, i, j)
    ensures i == (if x < |a| then 0 else x - |a|) && j == (if y > |a| + |k| then |k| else y - |a|)
    ensures x <= |a| + i < |a| + j <= y <= |a + k + b| && (a + k + b)[|a| + i..|a| + j] == k[i..j]
  {
    var s := a + k + b;
    assert forall n :: 0 <= n < |k| ==> s[|a| + n] == k[n];
    i, j := if x < |a| then 0 else x - |a|, if y > |a| + |k| then |k| else y - |a|;
  }

  /** A wanted word never touches the token. */
  lemma AwayFromToken(detectors: seq<Detector>, d: nat, word: char -> bool, a: string, v: string, k: string, b: string, x: int, y: int)
    requires Refusing(detectors) && FitsFor(detectors, d, word, v, k)
    requires 0 <= x < y <= |a + k + b| && Run(word, a + k + b, x, y) && WantedBy(detectors, d, (a + k + b)[x..y])
    ensures y <= |a| || x >= |a| + |k|
  {
    hide Marked, WantedBy, Run, Refusing;
    if x < |a| + |k| && y > |a| {
      var s := a + k + b;
      var i, j := PieceOf(word, a, k, b, x, y);
      assert Harmless(detectors, d, k, i, j);
      WantedIsUnmarked(detectors, d, s[x..y]);
      SliceOfSlice(s, x, y, |a| + i - x, |a| + j - x);
      assert 0 < i && j < |k| ==> x == |a| + i && y == |a| + j;
      if Marked(k[i..j]) {
        MarkedSlice(s[x..y], |a| + i - x, |a| + j - x);
      }
    }
  }

  /** And it was there before the exchange. */
  lemma BeforeExchange(word: char -> bool, a: string, v: string, k: string, b: string, x: int, y: int)
    requires Run(word, a + k + b, x, y) && v != "" && k != ""
    requires (word(v[0]) ==> word(k[0])) && (word(v[|v| - 1]) ==> word(k[|k| - 1]))
    requires y <= |a| || x >= |a| + |k|
    ensures 0 <= x < y <= |a + k + b|
    ensures y <= |a| ==> Run(word, a + v + b, x, y) && (a + v + b)[x..y] == (a + k + b)[x..y]
    ensures x >= |a| + |k| ==> var e := |v| - |k|; Run(word, a + v + b, x + e, y + e) && (a + v + b)[x + e..y + e] == (a + k + b)[x..y]
  {
    var s, u := a + k + b, a + v + b;
    if y <= |a| {
      assert forall n :: 0 <= n < |a| ==> s[n] == u[n];
      assert s[|a|] == k[0] && u[|a|] == v[0];
      assert u[x..y] == s[x..y];
    } else {
      var e := |v| - |k|;
      assert forall n :: |a| + |v| <= n < |u| ==> u[n] == s[n - e];
      assert s[|a| + |k| - 1] == k[|k| - 1] && u[|a| + |v| - 1] == v[|v| - 1];
      assert u[x + e..y + e] == s[x..y];
    }
  }

  /** So a wanted word was in the text before the exchange, moved by so much. */
  lemma Exchange(detectors: seq<Detector>, d: nat, word: char -> bool, a: string, v: string, k: string, b: string, x: int, y: int) returns (e: int)
    requires Refusing(detectors) && FitsFor(detectors, d, word, v, k)
    requires 0 <= x < y <= |a + k + b| && Run(word, a + k + b, x, y) && WantedBy(detectors, d, (a + k + b)[x..y])
    ensures if y <= |a| then e == 0 else x >= |a| + |k| && e == |v| - |k|
    ensures 0 <= x + e < y + e <= |a + v + b| && Run(word, a + v + b, x + e, y + e) && (a + v + b)[x + e..y + e] == (a + k + b)[x..y]
  {
    hide Run, WantedBy, Refusing;
    AwayFromToken(detectors, d, word, a, v, k, b, x, y);
    FitEdges(detectors, d, word, v, k);
    BeforeExchange(word, a, v, k, b, x, y);
    e := if y <= |a| then 0 else |v| - |k|;
  }

  // A whole pass.

  /** What stands after the first matches: written text, then the rest as it was. */
  ghost function Halfway(text: string, p: Progress): string
    requires p.last <= |text|
  {
    p.built + text[p.last..]
  }

  lemma NothingIsSkipped(detectors: seq<Detector>, words: seq<char -> bool>, text: string, ms: seq<Match>, i: nat, t: Table)
    requires EachWordWise(detectors, words) && Refusing(detectors) && Result(detectors, text, ms) && i < |ms| && AllMarked(t)
    ensures InBounds(ms[i], text) && !Skipped(t, text[ms[i].start..ms[i].end])
  {
    hide Complete, Disjoint, Marked, WantedBy, ReportedBy;
    ReportedIsUnmarked(detectors, text, ms, i);
    assert Found(detectors, text, ms[i]);
    var r :| Reported(detectors, text, r) && r.m == ms[i];
    var v := text[r.m.start..r.m.end];
    assert Run(words[r.order], text, r.m.start, r.m.end);
    forall n | 0 <= n < |v| ensures v[n] != '$' {
      assert v[n] == text[r.m.start + n];
    }
    NoDollar(v);
  }

  lemma NextFits(detectors: seq<Detector>, words: seq<char -> bool>, text: string, ms: seq<Match>, i: nat, mode: Mode, t: Table, u: Table)
    requires AllFit(detectors, words, mode, t) && Result(detectors, text, ms) && i < |ms| && TableFits(detectors, words, u)
    ensures InBounds(ms[i], text)
    ensures var v := text[ms[i].start..ms[i].end];
            Fits(detectors, words, v, TokenOf(u, v, Mint(mode, ms[i].shape)))
            && TableFits(detectors, words, Looked(u, v, ms[i].shape.detector, Mint(mode, ms[i].shape)))
  {
    hide Complete, Disjoint, Fits, Synthetic;
    SoundInBounds(detectors, text, ms);
    assert Found(detectors, text, ms[i]);
    var v := text[ms[i].start..ms[i].end];
    assert ReportFits(detectors, words, mode, text, ms[i], u.minted + 1);
    assert Mint(mode, ms[i].shape)(u.minted + 1) == Synthetic(mode, ms[i].shape, u.minted + 1);
  }

  /** The tables along a pass: marked, fitting, two-way, and every match so far replaced. */
  lemma {:induction false} TablesFit(detectors: seq<Detector>, words: seq<char -> bool>, text: string, ms: seq<Match>, n: nat, mode: Mode, t: Table)
    requires EachWordWise(detectors, words) && Refusing(detectors) && AllFit(detectors, words, mode, t) && AllMarked(t)
    requires Result(detectors, text, ms) && n <= |ms|
    ensures Spans(ms[..n], text)
    ensures var p := Rewritten(text, ms[..n], mode, t);
            && AllMarked(p.table) && TableFits(detectors, words, p.table)
            && p.last == if n == 0 then 0 else ms[n - 1].end
  {
    hide EachWordWise, Refusing, AllFit, TableFits, AllMarked, Result, Looked, Skipped, TokenOf, Spans, Rewritten;
    SpansOfResult(detectors, text, ms, n);
    if n == 0 {
      AtFirst(detectors, words, text, ms, mode, t);
    } else {
      TablesFit(detectors, words, text, ms, n - 1, mode, t);
      var p, m := Rewritten(text, ms[..n - 1], mode, t), ms[n - 1];
      RewrittenNext(text, ms, n - 1, mode, t);
      NothingIsSkipped(detectors, words, text, ms, n - 1, p.table);
      NextFits(detectors, words, text, ms, n - 1, mode, t, p.table);
      LookedMarked(p.table, text[m.start..m.end], m.shape, mode);
    }
  }

  lemma AtFirst(detectors: seq<Detector>, words: seq<char -> bool>, text: string, ms: seq<Match>, mode: Mode, t: Table)
    requires Spans(ms[..0], text)
    ensures Rewritten(text, ms[..0], mode, t) == Progress("", 0, t, 0)
    ensures AllFit(detectors, words, mode, t) ==> TableFits(detectors, words, t)
  {
    hide Fits, Found;
  }

  /** The step from one halfway text to the next exchanges one value for its token. */
  lemma HalfwayStep(text: string, ms: seq<Match>, i: nat, mode: Mode, t: Table)
    requires i < |ms| && Spans(ms[..i], text) && Spans(ms[..i + 1], text)
    requires !Skipped(Rewritten(text, ms[..i], mode, t).table, text[ms[i].start..ms[i].end])
    ensures var p, q, m := Rewritten(text, ms[..i], mode, t), Rewritten(text, ms[..i + 1], mode, t), ms[i];
            var v := text[m.start..m.end];
            var a, k, b := p.built + text[p.last..m.start], TokenOf(p.table, v, Mint(mode, m.shape)), text[m.end..];
            && p.last <= m.start <= m.end <= |text| && q.last == m.end && |q.built| == |a| + |k|
            && Halfway(text, p) == a + v + b && Halfway(text, q) == a + k + b
  {
    hide Skipped, Looked, TokenOf, Spans, Rewritten;
    RewrittenNext(text, ms, i, mode, t);
    var p, m := Rewritten(text, ms[..i], mode, t), ms[i];
    DropSplit(text, p.last, m.start);
    DropSplit(text, m.start, m.end);
    Assoc(p.built, text[p.last..m.start], text[m.start..m.end] + text[m.end..]);
    Assoc(p.built + text[p.last..m.start], text[m.start..m.end], text[m.end..]);
  }

  /** Where a wanted word of the halfway text comes from: a place in the text, away from what was
      replaced, before or behind the frontier as the word is. */
  ghost predicate ComesFrom(word: char -> bool, text: string, ms: seq<Match>, n: nat, p: Progress, x: int, y: int, c: int)
    requires n <= |ms| && p.last <= |text|
  {
    var s := Halfway(text, p);
    && 0 <= x < y <= |s| && 0 <= c && c + (y - x) <= |text|
    && Run(word, text, c, c + (y - x)) && text[c..c + (y - x)] == s[x..y]
    && (forall j :: 0 <= j < n ==> c + (y - x) <= ms[j].start || ms[j].end <= c)
    && (if x >= |p.built| then c == x - |p.built| + p.last else y <= |p.built| && c + (y - x) <= p.last)
  }

  lemma {:induction false} WantedComesFrom(detectors: seq<Detector>, words: seq<char -> bool>, d: nat, text: string, ms: seq<Match>, n: nat,
                                           mode: Mode, t: Table, x: int, y: int) returns (c: int)
    requires EachWordWise(detectors, words) && Refusing(detectors) && AllFit(detectors, words, mode, t) && AllMarked(t)
    requires Result(detectors, text, ms) && n <= |ms| && d < |words| && Spans(ms[..n], text)
    requires var s := Halfway(text, Rewritten(text, ms[..n], mode, t));
             0 <= x < y <= |s| && Run(words[d], s, x, y) && WantedBy(detectors, d, s[x..y])
    ensures ComesFrom(words[d], text, ms, n, Rewritten(text, ms[..n], mode, t), x, y, c)
    decreases n
  {
    hide EachWordWise, Refusing, AllFit, TableFits, AllMarked, Result, Looked, Skipped, TokenOf, Spans, Rewritten, Halfway, ComesFrom, Run,
         WantedBy, FitsFor, Fits;
    if n == 0 {
      c := x;
      AtFirst(detectors, words, text, ms, mode, t);
      FromItself(words[d], text, ms, t, x, y);
    } else {
      SpansOfResult(detectors, text, ms, n - 1);
      TablesFit(detectors, words, text, ms, n - 1, mode, t);
      var p, q, m := Rewritten(text, ms[..n - 1], mode, t), Rewritten(text, ms[..n], mode, t), ms[n - 1];
      NothingIsSkipped(detectors, words, text, ms, n - 1, p.table);
      NextFits(detectors, words, text, ms, n - 1, mode, t, p.table);
      HalfwayStep(text, ms, n - 1, mode, t);
      var v := text[m.start..m.end];
      var a, k, b := p.built + text[p.last..m.start], TokenOf(p.table, v, Mint(mode, m.shape)), text[m.end..];
      FitsOne(detectors, words, d, v, k);
      var e := Exchange(detectors, d, words[d], a, v, k, b, x, y);
      c := WantedComesFrom(detectors, words, d, text, ms, n - 1, mode, t, x + e, y + e);
      MovesOn(words[d], text, ms, n - 1, p, q, x, y, e, c);
    }
  }

  lemma FitsOne(detectors: seq<Detector>, words: seq<char -> bool>, d: nat, v: string, k: string)
    requires Fits(detectors, words, v, k) && d < |words|
    ensures FitsFor(detectors, d, words[d], v, k)
  {
  }

  lemma FitEdges(detectors: seq<Detector>, d: nat, word: char -> bool, v: string, k: string)
    requires FitsFor(detectors, d, word, v, k)
    ensures k != "" && v != "" && (word(v[0]) ==> word(k[0])) && (word(v[|v| - 1]) ==> word(k[|k| - 1]))
  {
  }

  lemma FromItself(word: char -> bool, text: string, ms: seq<Match>, t: Table, x: int, y: int)
    requires 0 <= x < y <= |Halfway(text, Progress("", 0, t, 0))| && Run(word, Halfway(text, Progress("", 0, t, 0)), x, y)
    ensures ComesFrom(word, text, ms, 0, Progress("", 0, t, 0), x, y, x)
  {
    assert "" + text[0..] == text;
  }

  lemma MovesOn(word: char -> bool, text: string, ms: seq<Match>, i: nat, p: Progress, q: Progress, x: int, y: int, e: int, c: int)
    requires i < |ms| && p.last <= ms[i].start < ms[i].end == q.last <= |text|
    requires var a := p.built + text[p.last..ms[i].start]; var v := text[ms[i].start..ms[i].end];
             && |a| <= |q.built|
             && (if y <= |a| then e == 0 else x >= |q.built| && e == |a| + |v| - |q.built|)
    requires 0 <= x < y <= |Halfway(text, q)| && ComesFrom(word, text, ms, i, p, x + e, y + e, c)
    requires Halfway(text, p)[x + e..y + e] == Halfway(text, q)[x..y]
    ensures ComesFrom(word, text, ms, i + 1, q, x, y, c)
  {
    hide Halfway, Run;
  }

  /** After a pass no detector finds anything. */
  lemma NothingLeftToFind(detectors: seq<Detector>, words: seq<char -> bool>, text: string, ms: seq<Match>, mode: Mode, t: Table, r: Ranked)
    requires EachWordWise(detectors, words) && Refusing(detectors) && AllFit(detectors, words, mode, t) && AllMarked(t)
    requires Result(detectors, text, ms)
    ensures Spans(ms, text) && !Reported(detectors, Sanitized(text, ms, mode, t), r)
  {
    hide Refusing, AllFit, AllMarked, Result, Spans, Rewritten, ComesFrom, Run, WantedBy, ReportedBy, Reported;
    SpansOfResult(detectors, text, ms, |ms|);
    TakeAll(ms);
    var p := Rewritten(text, ms, mode, t);
    var out := Sanitized(text, ms, mode, t);
    assert out == Halfway(text, p);
    if Reported(detectors, out, r) {
      var d, x, y := r.order, r.m.start, r.m.end;
      ReportedIsWanted(detectors, out, r);
      var c := WantedComesFrom(detectors, words, d, text, ms, |ms|, mode, t, x, y);
      FromGap(words[d], text, ms, p, x, y, c);
      assert ReportedBy(detectors, d, text, c, c + (y - x));
      WouldBeTaken(detectors, d, text, ms, c, c + (y - x));
    }
  }

  lemma ReportedIsWanted(detectors: seq<Detector>, text: string, r: Ranked)
    requires Reported(detectors, text, r)
    ensures r.order < |detectors| && 0 <= r.m.start < r.m.end <= |text| && WantedBy(detectors, r.order, text[r.m.start..r.m.end])
  {
  }

  lemma FromGap(word: char -> bool, text: string, ms: seq<Match>, p: Progress, x: int, y: int, c: int)
    requires p.last <= |text| && ComesFrom(word, text, ms, |ms|, p, x, y, c)
    ensures 0 <= x < y <= |Halfway(text, p)| && 0 <= c && c + (y - x) <= |text|
    ensures Run(word, text, c, c + (y - x)) && text[c..c + (y - x)] == Halfway(text, p)[x..y]
    ensures forall j :: 0 <= j < |ms| ==> c + (y - x) <= ms[j].start || ms[j].end <= c
  {
    hide Run;
  }

  /** A reported span meets a match that is kept. */
  lemma WouldBeTaken(detectors: seq<Detector>, d: nat, text: string, ms: seq<Match>, x: int, y: int)
    requires Result(detectors, text, ms) && ReportedBy(detectors, d, text, x, y) && x < y
    ensures exists j :: 0 <= j < |ms| && ms[j].start < y && x < ms[j].end
  {
    hide Reported, Sound, Disjoint;
    var r :| Reported(detectors, text, r) && r.order == d && r.m.start == x && r.m.end == y;
    assert Outdone(detectors, text, ms, r);
    var w: Ranked :| w.m in ms && Reported(detectors, text, w) && Beats(w, r);
    var j :| 0 <= j < |ms| && ms[j] == w.m;
  }

  /** So sanitizing again finds nothing and changes nothing, whatever the text. */
  lemma MixedWordsAreIdempotent(detectors: seq<Detector>, words: seq<char -> bool>, text: string, ms: seq<Match>, again: seq<Match>, mode: Mode, t: Table)
    requires EachWordWise(detectors, words) && Refusing(detectors) && AllFit(detectors, words, mode, t) && AllMarked(t)
    requires Result(detectors, text, ms)
    ensures Spans(ms, text)
    ensures var out, t1 := Sanitized(text, ms, mode, t), Rewritten(text, ms, mode, t).table;
            Result(detectors, out, again) ==>
              again == [] && Spans(again, out) && Sanitized(out, again, mode, t1) == out && Rewritten(out, again, mode, t1).table == t1
  {
    hide EachWordWise, Refusing, AllFit, AllMarked, Spans, Rewritten, Sanitized, Complete, Disjoint, Reported;
    SpansOfResult(detectors, text, ms, |ms|);
    TakeAll(ms);
    var out, t1 := Sanitized(text, ms, mode, t), Rewritten(text, ms, mode, t).table;
    if Result(detectors, out, again) {
      if again != [] {
        assert Found(detectors, out, again[0]);
        var r :| Reported(detectors, out, r) && r.m == again[0];
        NothingLeftToFind(detectors, words, text, ms, mode, t, r);
      }
      NothingMore(out, mode, t1);
    }
  }

  lemma NothingMore(text: string, mode: Mode, t: Table)
    ensures Spans([], text) && Sanitized(text, [], mode, t) == text && Rewritten(text, [], mode, t).table == t
  {
    assert "" + text[0..] == text;
  }

  // Detectors that find words, and the formats of their tokens.

  ghost predicate FindMixed(detectors: seq<Detector>, words: seq<char -> bool>, shapes: seq<Shape>) {
    && |words| == |detectors| == |shapes|
    && (forall d :: 0 <= d < |detectors| ==> exists confidence :: FindsWords(detectors[d], words[d], shapes[d], confidence))
  }

  /** Letters, digits and the underscore are in words; the dollar sign is not. */
  ghost predicate Covers(word: char -> bool) {
    && !word('$')
    && (forall c :: '0' <= c <= '9' || 'A' <= c <= 'Z' || 'a' <= c <= 'z' || c == '_' ==> word(c))
  }

  /** The token's own characters are in words; those of the web token's format need not be. */
  ghost predicate Suited(word: char -> bool, mode: Mode, shape: Shape) {
    || mode == Private || shape.template == Jwt
    || (shape.template == NoTemplate
        && (forall i :: 0 <= i < |shape.prefix| ==> word(shape.prefix[i]))
        && (forall i :: 0 <= i < |shape.detector| ==> word(UpperChar(shape.detector[i]))))
  }

  lemma WordFits(detectors: seq<Detector>, d: nat, word: char -> bool, v: string, k: string)
    requires v != "" && IsWord(word, k) && Marked(k)
    ensures FitsFor(detectors, d, word, v, k)
  {
    hide Marked, WantedBy;
    forall x, y | Run(word, k, x, y) ensures Harmless(detectors, d, k, x, y) {
      assert x == 0 && y == |k|;
      TakeAll(k);
    }
  }

  lemma SuitedFits(detectors: seq<Detector>, d: nat, word: char -> bool, mode: Mode, shape: Shape, n: nat, v: string)
    requires Covers(word) && Suited(word, mode, shape) && v != ""
    ensures FitsFor(detectors, d, word, v, Synthetic(mode, shape, n))
  {
    hide FitsFor, Marked;
    SyntheticIsMarked(mode, shape, n);
    if mode == Semantic && shape.template == Jwt {
      var digits := Padded(6, n);
      JwtFits(detectors, d, word, v, digits);
    } else {
      SyntheticIsWordOf(word, mode, shape, n);
      WordFits(detectors, d, word, v, Synthetic(mode, shape, n));
    }
  }

  lemma SyntheticIsWordOf(word: char -> bool, mode: Mode, shape: Shape, n: nat)
    requires Covers(word) && Suited(word, mode, shape) && (mode == Private || shape.template == NoTemplate)
    ensures IsWord(word, Synthetic(mode, shape, n))
  {
    var d := Padded(if mode == Private then 3 else 6, n);
    assert forall i :: 0 <= i < |d| ==> IsDigit(d[i]) && word(d[i]);
  }

  /** Whether or not the dot is in words, each piece of a web token is marked. */
  lemma JwtFits(detectors: seq<Detector>, d: nat, word: char -> bool, v: string, digits: string)
    requires Covers(word) && v != "" && AllDigits(digits)
    ensures FitsFor(detectors, d, word, v, JWT_HEAD + digits + JWT_TAIL)
  {
    hide WantedBy, Marked;
    var k := JWT_HEAD + digits + JWT_TAIL;
    var dot := 7 + |digits|;
    JwtCharacters(word, digits);
    forall x, y | Run(word, k, x, y) ensures Harmless(detectors, d, k, x, y) {
      RunStartsAtDot(word, digits, x, y);
      var o := if x == 0 then 3 else x;
      MarkItself();
      JwtMarks(digits);
      SliceOfSlice(k, x, y, o - x, o - x + 4);
      MarkedSlice(k[x..y], o - x, o - x + 4);
    }
  }

  lemma JwtCharacters(word: char -> bool, digits: string)
    requires Covers(word) && AllDigits(digits)
    ensures var k := JWT_HEAD + digits + JWT_TAIL;
            var dot := 7 + |digits|;
            && |k| == dot + 26 && k[dot] == '.' && k[dot + 12] == '.'
            && (forall i :: 0 <= i < |k| && i != dot && i != dot + 12 ==> word(k[i]))
  {
    var k := JWT_HEAD + digits + JWT_TAIL;
    assert |JWT_HEAD| == 7 && |JWT_TAIL| == 26;
    assert forall i :: 0 <= i < 7 ==> k[i] == JWT_HEAD[i];
    assert forall i :: 7 <= i < 7 + |digits| ==> k[i] == digits[i - 7];
    assert forall i :: 7 + |digits| <= i < |k| ==> k[i] == JWT_TAIL[i - 7 - |digits|];
  }

  lemma RunStartsAtDot(word: char -> bool, digits: string, x: int, y: int)
    requires Covers(word) && AllDigits(digits) && Run(word, JWT_HEAD + digits + JWT_TAIL, x, y)
    ensures var dot := 7 + |digits|;
            (x == 0 && y >= 7) || (x == dot + 1 && y >= dot + 5) || (x == dot + 13 && y >= dot + 17)
    ensures 0 <= x < y <= 33 + |digits|
  {
    JwtCharacters(word, digits);
  }

  lemma JwtMarks(digits: string)
    ensures var k := JWT_HEAD + digits + JWT_TAIL;
            var dot := 7 + |digits|;
            |k| == dot + 26 && k[3..7] == MARK && k[dot + 1..dot + 5] == MARK && k[dot + 13..dot + 17] == MARK
  {
    JwtFrame();
    SliceInMiddle("", JWT_HEAD, digits + JWT_TAIL, 3, 7);
    Assoc(JWT_HEAD, digits, JWT_TAIL);
    SliceInMiddle(JWT_HEAD + digits, JWT_TAIL, "", 1, 5);
    SliceInMiddle(JWT_HEAD + digits, JWT_TAIL, "", 13, 17);
  }

  lemma JwtFrame()
    ensures |JWT_HEAD| == 7 && |JWT_TAIL| == 26
    ensures JWT_HEAD[3..7] == MARK && JWT_TAIL[1..5] == MARK && JWT_TAIL[13..17] == MARK
  {
    FourOf(JWT_TAIL, 1);
    FourOf(JWT_TAIL, 13);
  }

  lemma FourOf(s: string, i: nat)
    requires i + 4 <= |s| && s[i] == 'S' && s[i + 1] == 'N' && s[i + 2] == 'A' && s[i + 3] == 'T'
    ensures s[i..i + 4] == MARK
  {
  }

  lemma SliceInMiddle(a: string, s: string, b: string, i: nat, j: nat)
    requires i <= j <= |s|
    ensures (a + s + b)[|a| + i..|a| + j] == s[i..j]
  {
  }

  lemma FindersAreEachWordWise(detectors: seq<Detector>, words: seq<char -> bool>, shapes: seq<Shape>)
    requires FindMixed(detectors, words, shapes) && forall d :: 0 <= d < |words| ==> Covers(words[d])
    ensures EachWordWise(detectors, words)
  {
    forall text, r | Reported(detectors, text, r) ensures Run(words[r.order], text, r.m.start, r.m.end) {
      var confidence :| FindsWords(detectors[r.order], words[r.order], shapes[r.order], confidence);
    }
    forall d, text, x, y | 0 <= d < |words| && Run(words[d], text, x, y) && WantedBy(detectors, d, text[x..y])
      ensures ReportedBy(detectors, d, text, x, y)
    {
      WantedWordReported(detectors, words, shapes, d, text, x, y);
    }
  }

  lemma WantedWordReported(detectors: seq<Detector>, words: seq<char -> bool>, shapes: seq<Shape>, d: nat, text: string, x: int, y: int)
    requires FindMixed(detectors, words, shapes) && d < |words|
    requires Run(words[d], text, x, y) && WantedBy(detectors, d, text[x..y])
    ensures ReportedBy(detectors, d, text, x, y)
  {
    var other, r :| Reported(detectors, other, r) && r.order == d && other[r.m.start..r.m.end] == text[x..y];
    var confidence :| FindsWords(detectors[d], words[d], shapes[d], confidence);
    var m := Match(x, y, shapes[d], confidence);
    assert m in detectors[d].find(text);
    assert Reported(detectors, text, Ranked(m, d));
  }

  ghost predicate AllSuited(words: seq<char -> bool>, mode: Mode, shapes: seq<Shape>) {
    forall d, e :: 0 <= d < |words| && 0 <= e < |shapes| ==> Suited(words[d], mode, shapes[e])
  }

  lemma FormatsFit(detectors: seq<Detector>, words: seq<char -> bool>, mode: Mode, shape: Shape, n: nat, v: string)
    requires v != "" && forall d :: 0 <= d < |words| ==> Covers(words[d]) && Suited(words[d], mode, shape)
    ensures Fits(detectors, words, v, Synthetic(mode, shape, n))
  {
    hide Covers, Suited, FitsFor, Synthetic;
    forall d | 0 <= d < |words| ensures FitsFor(detectors, d, words[d], v, Synthetic(mode, shape, n)) {
      SuitedFits(detectors, d, words[d], mode, shape, n, v);
    }
  }

  lemma ReportsFit(detectors: seq<Detector>, words: seq<char -> bool>, shapes: seq<Shape>, mode: Mode, t: Table)
    requires FindMixed(detectors, words, shapes) && AllSuited(words, mode, shapes) && TableFits(detectors, words, t)
    requires forall d :: 0 <= d < |words| ==> Covers(words[d])
    ensures AllFit(detectors, words, mode, t)
  {
    hide TableFits, Covers, Suited, Fits, Run, Synthetic;
    forall text, m, n: nat | Found(detectors, text, m)
      ensures ReportFits(detectors, words, mode, text, m, n)
    {
      var r :| Reported(detectors, text, r) && r.m == m;
      var confidence :| FindsWords(detectors[r.order], words[r.order], shapes[r.order], confidence);
      FormatsFit(detectors, words, mode, shapes[r.order], n, text[m.start..m.end]);
    }
  }

  /** Detectors that find words, each of its own kind, refuse what is marked and have suited formats
      leave nothing for one another: sanitizing is idempotent on every text. */
  lemma MixedFindersAreIdempotent(detectors: seq<Detector>, words: seq<char -> bool>, shapes: seq<Shape>,
                                  text: string, ms: seq<Match>, again: seq<Match>, mode: Mode, t: Table)
    requires FindMixed(detectors, words, shapes) && Refusing(detectors) && AllSuited(words, mode, shapes)
    requires forall d :: 0 <= d < |words| ==> Covers(words[d])
    requires AllMarked(t) && TableFits(detectors, words, t) && Result(detectors, text, ms)
    ensures Spans(ms, text)
    ensures var out, t1 := Sanitized(text, ms, mode, t), Rewritten(text, ms, mode, t).table;
            Result(detectors, out, again) ==>
              again == [] && Spans(again, out) && Sanitized(out, again, mode, t1) == out && Rewritten(out, again, mode, t1).table == t1
  {
    hide Refusing, AllMarked, TableFits, Result, Spans, Rewritten, Sanitized, Covers, Suited, EachWordWise, Fits, Run;
    FindersAreEachWordWise(detectors, words, shapes);
    ReportsFit(detectors, words, shapes, mode, t);
    MixedWordsAreIdempotent(detectors, words, text, ms, again, mode, t);
  }

  /** Tables built up by requests for suited formats fit. */
  lemma {:induction false} CallsFit(detectors: seq<Detector>, words: seq<char -> bool>, calls: seq<Call>)
    requires forall d :: 0 <= d < |words| ==> Covers(words[d])
    requires forall i, d :: 0 <= i < |calls| && 0 <= d < |words| ==> Suited(words[d], calls[i].mode, calls[i].shape)
    requires forall i :: 0 <= i < |calls| ==> calls[i].value != ""
    ensures TableFits(detectors, words, After(EMPTY, calls))
  {
    hide Covers, Suited, Fits, Synthetic;
    if calls != [] {
      var i := |calls| - 1;
      assert forall j :: 0 <= j < i ==> calls[..i][j] == calls[j];
      CallsFit(detectors, words, calls[..i]);
      var c, before := calls[i], After(EMPTY, calls[..i]);
      FormatsFit(detectors, words, c.mode, c.shape, before.minted + 1, c.value);
      assert Mint(c.mode, c.shape)(before.minted + 1) == Synthetic(c.mode, c.shape, before.minted + 1);
    }
  }
}
