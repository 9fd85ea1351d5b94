/** Restoring a text that arrives in chunks: what may still become a token is held back, and the
    rest is restored and passed on. */
module StreamRestore {
  import opened Decimal
  import opened TokenFormat
  import opened TokenTable
  import opened TokenCells
  import opened TokenParse
  import opened PlainTokens
  import opened Replacing
  import opened Sequences

  /** The text is the beginning of some token, but not all of it. */
  predicate Partial(s: string, tokens: seq<string>) {
    exists c :: c in tokens && |s| < |c| && s <= c
  }

  /** The length of the longest suffix that is a token's proper beginning. */
  function Hold(s: string, tokens: seq<string>): (h: nat)
    ensures h <= |s| && (h > 0 ==> Partial(s[|s| - h..], tokens))
  {
    if s == "" then 0 else if Partial(s, tokens) then |s| else Hold(s[1..], tokens)
  }

  function Longest(tokens: seq<string>): nat {
    if tokens == [] then 0 else if |tokens[0]| > Longest(tokens[1..]) then |tokens[0]| else Longest(tokens[1..])
  }

  lemma {:induction false} LongestBounds(tokens: seq<string>)
    ensures forall c :: c in tokens ==> |c| <= Longest(tokens)
  {
    if tokens != [] {
      LongestBounds(tokens[1..]);
    }
  }

  lemma {:induction false} HoldIsLongest(s: string, tokens: seq<string>, p: nat)
    requires p < |s| && Partial(s[p..], tokens)
    ensures Hold(s, tokens) >= |s| - p
  {
    if !Partial(s, tokens) {
      HoldIsLongest(s[1..], tokens, p - 1);
    }
  }

  lemma {:induction false} HoldOfSuffix(s: string, tokens: seq<string>, p: nat)
    requires p <= |s| && Hold(s, tokens) <= |s| - p
    ensures Hold(s[p..], tokens) == Hold(s, tokens)
  {
    if p > 0 {
      HoldOfSuffix(s[1..], tokens, p - 1);
      assert s[1..][p - 1..] == s[p..];
    } else {
      assert s[0..] == s;
    }
  }

  /** Nothing before a position begins an ambiguous suffix, so the scan may start there. */
  lemma {:induction false} HoldSkips(s: string, tokens: seq<string>, p: nat)
    requires p <= |s| && forall q :: 0 <= q < p ==> !Partial(s[q..], tokens)
    ensures Hold(s, tokens) == Hold(s[p..], tokens)
  {
    if p > 0 {
      assert s[0..] == s;
      forall q | 0 <= q < p - 1 ensures !Partial(s[1..][q..], tokens) {
        assert s[1..][q..] == s[q + 1..];
      }
      HoldSkips(s[1..], tokens, p - 1);
      assert s[1..][p - 1..] == s[p..];
    } else {
      assert s[0..] == s;
    }
  }

  method HoldbackLen(s: string, candidates: seq<string>) returns (h: nat)
    ensures h == Hold(s, candidates)
  {
    if |candidates| == 0 {
      NoCandidates(s);
      return 0;
    }
    var maxLen := 0;
    for i := 0 to |candidates|
      invariant forall j :: 0 <= j < i ==> |candidates[j]| <= maxLen
    {
      if |candidates[i]| > maxLen {
        maxLen := |candidates[i]|;
      }
    }
    var start := |s| - maxLen + 1;
    if start < 0 {
      start := 0;
    }
    if start > |s| {
      start := |s|;
    }
    for p := start to |s|
      invariant forall q :: 0 <= q < p ==> !Partial(s[q..], candidates)
    {
      var suffix := s[p..];
      for i := 0 to |candidates|
        invariant forall j :: 0 <= j < i ==> !(|suffix| < |candidates[j]| && suffix <= candidates[j])
      {
        if |suffix| < |candidates[i]| && suffix <= candidates[i] {
          HoldSkips(s, candidates, p);
          return |s| - p;
        }
      }
    }
    HoldSkips(s, candidates, |s|);
    return 0;
  }

  lemma {:induction false} NoCandidates(s: string)
    ensures Hold(s, []) == 0
  {
    if s != "" {
      NoCandidates(s[1..]);
    }
  }

  /** What the restorer holds back. The tokens to look for and the way to restore are asked for at
      each call, so the table they come from may have grown. */
  class StreamRestorer {
    var tail: string

    constructor ()
      ensures tail == ""
    {
      tail := "";
    }

    /** Passes on, restored, all that cannot be part of a token still to come. */
    method Feed(chunk: string, candidates: seq<string>, restore: string -> string) returns (out: string)
      modifies `tail
      ensures tail == Held(old(tail), chunk, candidates)
      ensures var sent := Sent(old(tail), chunk, candidates); out == if sent == "" then "" else restore(sent)
    {
      hide Hold;
      var s := tail + chunk;
      if s == "" {
        return "";
      }
      var hold := HoldbackLen(s, candidates);
      var emit := s[..|s| - hold];
      tail := s[|s| - hold..];
      if emit == "" {
        return "";
      }
      return restore(emit);
    }

    method Flush(restore: string -> string) returns (out: string)
      modifies `tail
      ensures tail == "" && out == if old(tail) == "" then "" else restore(old(tail))
    {
      if tail == "" {
        return "";
      }
      out := restore(tail);
      tail := "";
    }
  }

  function Held(tail: string, chunk: string, tokens: seq<string>): string {
    var s := tail + chunk;
    s[|s| - Hold(s, tokens)..]
  }

  function Sent(tail: string, chunk: string, tokens: seq<string>): string {
    var s := tail + chunk;
    s[..|s| - Hold(s, tokens)]
  }

  // Whole streams.

  function Concat(chunks: seq<string>): string {
    if chunks == [] then "" else Concat(chunks[..|chunks| - 1]) + chunks[|chunks| - 1]
  }

  /** What is held back after the chunks. */
  function Pending(chunks: seq<string>, tokens: seq<string>): string {
    if chunks == [] then ""
    else Held(Pending(chunks[..|chunks| - 1], tokens), chunks[|chunks| - 1], tokens)
  }

  /** What was passed on after the chunks, before restoring. */
  function Emitted(chunks: seq<string>, tokens: seq<string>): string {
    if chunks == [] then ""
    else
      var init := chunks[..|chunks| - 1];
      Emitted(init, tokens) + Sent(Pending(init, tokens), chunks[|chunks| - 1], tokens)
  }

  /** A token that begins in the text passed on and ends after it. */
  ghost predicate Straddles(t: string, sent: string, rest: string, p: nat) {
    At(t, sent + rest, p) && p < |sent| < p + |t|
  }

  /** Some token's end begins a held-back suffix, with nothing longer to hold back. */
  ghost predicate CanBeCut(tokens: seq<string>) {
    exists t, c, i, k :: t in tokens && c in tokens && Cuts(t, c, i, k, tokens)
  }

  ghost predicate Cuts(t: string, c: string, i: int, k: int, tokens: seq<string>) {
    0 < i < |t| && 0 <= k < |c| && t[i..] <= c[..k] && Hold(t[..i] + c[..k], tokens) == k
  }

  lemma BorderFreeIsNeverCut(tokens: seq<string>)
    requires BorderFree(tokens)
    ensures !CanBeCut(tokens)
  {
    hide BorderFree, Cuts;
    forall t, c, i, k | t in tokens && c in tokens ensures !Cuts(t, c, i, k, tokens) {
      NoBorderNoCut(tokens, t, c, i, k);
    }
  }

  lemma NoBorderNoCut(tokens: seq<string>, t: string, c: string, i: int, k: int)
    requires BorderFree(tokens) && t in tokens && c in tokens
    ensures !Cuts(t, c, i, k, tokens)
  {
    hide Hold;
    var n := |t| - i;
    assert |t| - n == i;
    if 0 < i < |t| && 0 <= k < |c| && t[i..] <= c[..k] {
      PrefixOfPrefix(t[i..], c, k);
    }
  }

  lemma PrefixOfPrefix(w: string, c: string, k: nat)
    requires k <= |c| && w <= c[..k]
    ensures w == c[..|w|]
  {
  }

  /** A token that runs on past the text would have been held back whole. */
  lemma RunsOn(s: string, future: string, tokens: seq<string>, t: string, p: nat)
    requires t in tokens && At(t, s + future, p) && p < |s| < p + |t|
    ensures Hold(s, tokens) >= |s| - p
  {
    assert s[p..] == (s + future)[p..p + |t|][..|s| - p];
    assert Partial(s[p..], tokens);
    HoldIsLongest(s, tokens, p);
  }

  lemma SliceAt(s: string, future: string, t: string, p: nat, q: nat)
    requires At(t, s + future, p) && p <= q <= p + |t| <= |s|
    ensures t[..q - p] == s[p..q] && t[q - p..] <= s[q..] && t[..q - p] + s[q..] == s[p..]
  {
    assert t == (s + future)[p..p + |t|] == s[p..p + |t|];
  }

  /** A token cut by one emission shows that tokens can be cut. */
  lemma CutHere(s: string, future: string, tokens: seq<string>, t: string, p: nat)
    requires t in tokens && At(t, s + future, p) && p < |s| - Hold(s, tokens) < p + |t|
    ensures CanBeCut(tokens)
  {
    hide Hold, At;
    var h := Hold(s, tokens);
    var q := |s| - h;
    if p + |t| > |s| {
      RunsOn(s, future, tokens, t, p);
    } else {
      SliceAt(s, future, t, p, q);
      HoldOfSuffix(s, tokens, p);
      var c :| c in tokens && |s[q..]| < |c| && s[q..] <= c;
      assert c[..h] == s[q..];
      assert Cuts(t, c, q - p, h, tokens);
    }
  }

  lemma SentThenHeld(tail: string, chunk: string, tokens: seq<string>)
    ensures Sent(tail, chunk, tokens) + Held(tail, chunk, tokens) == tail + chunk
    ensures |Sent(tail, chunk, tokens)| == |tail + chunk| - Hold(tail + chunk, tokens)
    ensures Sent(tail, chunk, tokens) <= tail + chunk
  {
  }

  lemma Regroup(before: string, e: string, held: string, tail: string, chunk: string, future: string)
    requires e + held == tail + chunk
    ensures (before + e) + (held + future) == before + (tail + (chunk + future)) == before + ((tail + chunk) + future)
  {
    Assoc(before, e, held + future);
    Assoc(e, held, future);
    Assoc(tail, chunk, future);
  }

  /** An occurrence across the emitted text was across it before the chunk, or is across what the chunk sends. */
  lemma BeforeOrHere(before: string, tail: string, chunk: string, future: string, tokens: seq<string>, t: string, p: nat)
    requires Straddles(t, before + Sent(tail, chunk, tokens), Held(tail, chunk, tokens) + future, p)
    ensures p < |before| ==> Straddles(t, before, tail + (chunk + future), p)
    ensures p >= |before| ==> At(t, tail + chunk + future, p - |before|)
                              && p - |before| < |tail + chunk| - Hold(tail + chunk, tokens) < p - |before| + |t|
  {
    hide Hold, At, Sent, Held;
    SentThenHeld(tail, chunk, tokens);
    Regroup(before, Sent(tail, chunk, tokens), Held(tail, chunk, tokens), tail, chunk, future);
    if p >= |before| {
      AtShift(t, before, tail + chunk + future, p);
    }
  }

  // Streams during which the table grows: each chunk meets the tokens of its time.

  ghost function HeldBack(chunks: seq<string>, sets: seq<seq<string>>): string
    requires |chunks| == |sets|
  {
    if chunks == [] then ""
    else
      var n := |chunks| - 1;
      Held(HeldBack(chunks[..n], sets[..n]), chunks[n], sets[n])
  }

  ghost function PassedOn(chunks: seq<string>, sets: seq<seq<string>>): string
    requires |chunks| == |sets|
  {
    if chunks == [] then ""
    else
      var n := |chunks| - 1;
      PassedOn(chunks[..n], sets[..n]) + Sent(HeldBack(chunks[..n], sets[..n]), chunks[n], sets[n])
  }

  /** Nothing is lost, repeated or reordered, and never more held back than the chunk's tokens ask for. */
  lemma {:induction false} NothingIsLostGrowing(chunks: seq<string>, sets: seq<seq<string>>)
    requires |chunks| == |sets|
    ensures PassedOn(chunks, sets) + HeldBack(chunks, sets) == Concat(chunks)
    ensures chunks != [] ==> |HeldBack(chunks, sets)| < Longest(sets[|sets| - 1]) || HeldBack(chunks, sets) == ""
  {
    hide Hold;
    if chunks != [] {
      var n := |chunks| - 1;
      NothingIsLostGrowing(chunks[..n], sets[..n]);
      var tail := HeldBack(chunks[..n], sets[..n]);
      HeldIsShort(tail, chunks[n], sets[n]);
      SentThenHeld(tail, chunks[n], sets[n]);
      Assoc(PassedOn(chunks[..n], sets[..n]), Sent(tail, chunks[n], sets[n]), Held(tail, chunks[n], sets[n]));
      Assoc(PassedOn(chunks[..n], sets[..n]), tail, chunks[n]);
    }
  }

  lemma HeldIsShort(tail: string, chunk: string, tokens: seq<string>)
    ensures |Held(tail, chunk, tokens)| < Longest(tokens) || Held(tail, chunk, tokens) == ""
  {
    LongestBounds(tokens);
  }

  ghost predicate SomeCanBeCut(sets: seq<seq<string>>, n: nat) {
    exists j :: n <= j < |sets| && CanBeCut(sets[j])
  }

  /** A token known from the n-th chunk on and not streamed before is cut only if the tokens of some
      later chunk can be. */
  lemma {:induction false} LateTokenCut(chunks: seq<string>, sets: seq<seq<string>>, n: nat, future: string, t: string, p: nat)
    requires |chunks| == |sets| && n <= |chunks| && p >= |Concat(chunks[..n])|
    requires forall j :: n <= j < |sets| ==> t in sets[j]
    requires Straddles(t, PassedOn(chunks, sets), HeldBack(chunks, sets) + future, p)
    ensures SomeCanBeCut(sets, n)
    decreases |chunks|
  {
    hide CanBeCut, Hold, At, Sent, Held, PassedOn, HeldBack, Concat;
    NothingIsLostGrowing(chunks, sets);
    assert |PassedOn(chunks, sets)| <= |Concat(chunks)|;
    TakeAll(chunks);
    if |chunks| > n {
      var k := |chunks| - 1;
      LastPiece(chunks, sets);
      assert chunks[..k][..n] == chunks[..n];
      var before, tail := PassedOn(chunks[..k], sets[..k]), HeldBack(chunks[..k], sets[..k]);
      BeforeOrHere(before, tail, chunks[k], future, sets[k], t, p);
      if p < |before| {
        LateTokenCut(chunks[..k], sets[..k], n, chunks[k] + future, t, p);
        EarlierCut(sets, k, n);
      } else {
        CutHere(tail + chunks[k], future, sets[k], t, p - |before|);
      }
    }
  }

  lemma EarlierCut(sets: seq<seq<string>>, k: nat, n: nat)
    requires k <= |sets| && SomeCanBeCut(sets[..k], n)
    ensures SomeCanBeCut(sets, n)
  {
    hide CanBeCut;
    var j :| n <= j < k && CanBeCut(sets[..k][j]);
    assert CanBeCut(sets[j]);
  }

  lemma LastPiece(chunks: seq<string>, sets: seq<seq<string>>)
    requires |chunks| == |sets| && chunks != []
    ensures var k := |chunks| - 1;
            && PassedOn(chunks, sets) == PassedOn(chunks[..k], sets[..k]) + Sent(HeldBack(chunks[..k], sets[..k]), chunks[k], sets[k])
            && HeldBack(chunks, sets) == Held(HeldBack(chunks[..k], sets[..k]), chunks[k], sets[k])
  {
  }

  ghost function Always(tokens: seq<string>, n: nat): seq<seq<string>> {
    seq(n, i => tokens)
  }

  lemma {:induction false} SameAllAlong(chunks: seq<string>, tokens: seq<string>)
    ensures PassedOn(chunks, Always(tokens, |chunks|)) == Emitted(chunks, tokens)
    ensures HeldBack(chunks, Always(tokens, |chunks|)) == Pending(chunks, tokens)
  {
    hide Sent, Held;
    if chunks != [] {
      var k := |chunks| - 1;
      assert Always(tokens, k + 1)[..k] == Always(tokens, k);
      SameAllAlong(chunks[..k], tokens);
    }
  }

  /** A token cut anywhere in a stream shows it too. */
  lemma CutSomewhere(chunks: seq<string>, future: string, tokens: seq<string>, t: string, p: nat)
    requires t in tokens && Straddles(t, Emitted(chunks, tokens), Pending(chunks, tokens) + future, p)
    ensures CanBeCut(tokens)
  {
    hide CanBeCut, Straddles, Emitted, Pending, PassedOn, HeldBack;
    var sets := Always(tokens, |chunks|);
    SameAllAlong(chunks, tokens);
    assert chunks[..0] == [];
    LateTokenCut(chunks, sets, 0, future, t, p);
    var j :| 0 <= j < |sets| && CanBeCut(sets[j]);
  }

  lemma AtShift(w: string, a: string, b: string, p: nat)
    requires At(w, a + b, p) && p >= |a|
    ensures At(w, b, p - |a|)
  {
    assert (a + b)[p..p + |w|] == b[p - |a|..p - |a| + |w|];
  }

  /** Nothing is lost, repeated or reordered: what was passed on and what is held back make up the
      input so far; and less is held back than the longest token. */
  lemma NothingIsLost(chunks: seq<string>, tokens: seq<string>)
    ensures Emitted(chunks, tokens) + Pending(chunks, tokens) == Concat(chunks)
    ensures |Pending(chunks, tokens)| < Longest(tokens) || Pending(chunks, tokens) == ""
  {
    hide PassedOn, HeldBack;
    SameAllAlong(chunks, tokens);
    NothingIsLostGrowing(chunks, Always(tokens, |chunks|));
  }

  ghost predicate CutsSomeStream(tokens: seq<string>) {
    exists chunks, future, t, p :: t in tokens && Straddles(t, Emitted(chunks, tokens), Pending(chunks, tokens) + future, p)
  }

  /** Some chunking of some stream has a token across an emission boundary exactly when the tokens
      can be cut, which their finite set decides. */
  lemma StreamsAreCutIff(tokens: seq<string>)
    ensures CutsSomeStream(tokens) <==> CanBeCut(tokens)
  {
    if CutsSomeStream(tokens) {
      var chunks, future, t, p :| t in tokens && Straddles(t, Emitted(chunks, tokens), Pending(chunks, tokens) + future, p);
      CutSomewhere(chunks, future, tokens, t, p);
    }
    if CanBeCut(tokens) {
      var t, c, i, k :| t in tokens && c in tokens && Cuts(t, c, i, k, tokens);
      CutStream(t, c, i, k, tokens);
    }
  }

  /** Fed the cut token as one chunk, the restorer passes on its beginning. */
  lemma CutStream(t: string, c: string, i: int, k: int, tokens: seq<string>)
    requires Cuts(t, c, i, k, tokens)
    ensures var s := t[..i] + c[..k]; Straddles(t, Emitted([s], tokens), Pending([s], tokens) + "", 0)
  {
    hide Hold;
    var s := t[..i] + c[..k];
    OneChunk(s, tokens);
    ConcatParts(t[..i], c[..k]);
    assert c[..k] + "" == c[..k];
    TakeDrop(t, i);
    assert At(t, s, 0) by {
      assert s[0..|t|] == t[..i] + c[..k][..|t| - i];
    }
  }

  lemma OneChunk(s: string, tokens: seq<string>)
    ensures Emitted([s], tokens) == s[..|s| - Hold(s, tokens)]
    ensures Pending([s], tokens) == s[|s| - Hold(s, tokens)..]
  {
    assert [s][..0] == [] && "" + s == s;
    assert Pending([], tokens) == "" && Emitted([], tokens) == "";
  }

  // The stream as characters and tokens.

  ghost predicate NothingAcross(tokens: seq<string>, a: string, b: string) {
    forall t, p: nat :: t in tokens ==> !Straddles(t, a, b, p)
  }

  lemma PrefixWithin(t: string, a: string, b: string)
    requires a != "" && !Straddles(t, a, b, 0)
    ensures t <= a + b <==> t <= a
  {
    if t <= a + b {
      assert (a + b)[0..|t|] == t;
      assert |t| <= |a|;
    }
    if t <= a {
      assert (a + b)[..|t|] == a[..|t|];
    }
  }

  lemma {:induction false} FirstWithin(tokens: seq<string>, a: string, b: string)
    requires a != "" && forall t :: t in tokens ==> !Straddles(t, a, b, 0)
    ensures First(tokens, a + b) == First(tokens, a)
  {
    hide Straddles;
    if tokens != [] {
      assert tokens[0] in tokens;
      FirstWithin(tokens[1..], a, b);
      PrefixWithin(tokens[0], a, b);
    }
  }

  lemma AcrossShift(tokens: seq<string>, a: string, b: string, n: nat)
    requires NothingAcross(tokens, a, b) && n <= |a|
    ensures NothingAcross(tokens, a[n..], b)
  {
    hide Straddles;
    forall t, p: nat | t in tokens ensures !Straddles(t, a[n..], b, p) {
      if Straddles(t, a[n..], b, p) {
        StraddleShift(t, a, b, n, p);
      }
    }
  }

  lemma StraddleShift(t: string, a: string, b: string, n: nat, p: nat)
    requires n <= |a| && Straddles(t, a[n..], b, p)
    ensures Straddles(t, a, b, n + p)
  {
    assert a + b == a[..n] + (a[n..] + b);
    assert (a + b)[n + p..n + p + |t|] == (a[n..] + b)[p..p + |t|];
  }

  lemma {:induction false} ParseConcat(tokens: seq<string>, a: string, b: string)
    requires NothingAcross(tokens, a, b)
    ensures Parse(tokens, a + b) == Parse(tokens, a) + Parse(tokens, b)
    decreases |a|
  {
    if a == "" {
      assert a + b == b;
    } else {
      FirstWithin(tokens, a, b);
      FirstIs(tokens, a);
      var t := First(tokens, a);
      var n := if t == "" then 1 else |t|;
      AcrossShift(tokens, a, b, n);
      ParseConcat(tokens, a[n..], b);
      assert (a + b)[n..] == a[n..] + b;
      Assoc([if t == "" then Ch(a[0]) else Tok(t)], Parse(tokens, a[n..]), Parse(tokens, b));
    }
  }

  // Streamed restoring.

  /** The restored text passed on for the chunks, before the final flush. */
  function Streamed(chunks: seq<string>, tokens: seq<string>, values: map<string, string>): string
    requires forall t :: t in tokens ==> t in values && t != ""
  {
    if chunks == [] then ""
    else
      var init := chunks[..|chunks| - 1];
      Streamed(init, tokens, values)
      + RestoreWith(tokens, values, Sent(Pending(init, tokens), chunks[|chunks| - 1], tokens))
  }

  /** Where no token goes across, the two parts have their meanings apart, and stay separated. */
  lemma MeaningConcat(tokens: seq<string>, values: map<string, string>, a: string, b: string)
    requires NothingAcross(tokens, a, b)
    ensures Meaning(tokens, values, a + b) == Meaning(tokens, values, a) + Meaning(tokens, values, b)
    ensures Separated(tokens, Meaning(tokens, values, a + b)) ==>
              Separated(tokens, Meaning(tokens, values, a)) && Separated(tokens, Meaning(tokens, values, b))
  {
    hide Separated, Parse, Expand, NothingAcross;
    ParseConcat(tokens, a, b);
    ExpandConcat(Parse(tokens, a), Parse(tokens, b), values);
    SeparatedHalves(tokens, Meaning(tokens, values, a), Meaning(tokens, values, b));
  }

  lemma SeparatedHalves(tokens: seq<string>, x: string, y: string)
    ensures Separated(tokens, x + y) ==> Separated(tokens, x) && Separated(tokens, y)
  {
    hide Separated;
    if Separated(tokens, x + y) {
      assert "" + x + y == x + y && x + y + "" == x + y;
      SeparatedPart(tokens, "", x, y);
      SeparatedPart(tokens, x, y, "");
    }
  }

  /** The same while the tokens grow: each chunk is restored with the tokens of its time. */
  ghost function StreamedGrowing(chunks: seq<string>, sets: seq<seq<string>>, values: map<string, string>): string
    requires |chunks| == |sets| && forall j, t :: 0 <= j < |sets| && t in sets[j] ==> t in values
  {
    if chunks == [] then ""
    else
      var k := |chunks| - 1;
      assert sets[k] == sets[|sets| - 1];
      StreamedGrowing(chunks[..k], sets[..k], values)
      + RestoreWith(sets[k], values, Sent(HeldBack(chunks[..k], sets[..k]), chunks[k], sets[k]))
  }

  ghost predicate KnownFrom(sets: seq<seq<string>>, t: string, n: nat) {
    forall j :: n <= j < |sets| ==> t in sets[j]
  }

  ghost predicate KnownInTime(chunks: seq<string>, sets: seq<seq<string>>, t: string, p: nat) {
    exists n: nat :: n <= |chunks| && p >= |Concat(chunks[..n])| && KnownFrom(sets, t, n)
  }

  /** Wherever a token is in the stream, it is known from the chunk on in which it begins. */
  ghost predicate OnTime(chunks: seq<string>, sets: seq<seq<string>>, tokens: seq<string>) {
    |chunks| == |sets| && forall t, p: nat :: t in tokens && At(t, Concat(chunks), p) ==> KnownInTime(chunks, sets, t, p)
  }

  /** The tokens of each chunk's time are among those of the end, and can never be cut. */
  ghost predicate Growing(sets: seq<seq<string>>, tokens: seq<string>) {
    forall j :: 0 <= j < |sets| ==> !CanBeCut(sets[j]) && forall t :: t in sets[j] ==> t in tokens
  }

  lemma {:induction false} ConcatGrows(chunks: seq<string>, n: nat)
    requires n <= |chunks|
    ensures Concat(chunks[..n]) <= Concat(chunks)
    decreases |chunks|
  {
    if n < |chunks| {
      var k := |chunks| - 1;
      ConcatGrows(chunks[..k], n);
      assert chunks[..k][..n] == chunks[..n];
    } else {
      TakeAll(chunks);
    }
  }

  lemma ConcatUpTo(chunks: seq<string>, k: nat, n: nat)
    requires k <= n <= |chunks|
    ensures |Concat(chunks[..k])| <= |Concat(chunks[..n])|
  {
    ConcatGrows(chunks[..n], k);
    assert chunks[..n][..k] == chunks[..k];
  }

  /** A token that begins before some chunk is known before that chunk. */
  lemma KnownBefore(chunks: seq<string>, sets: seq<seq<string>>, t: string, p: nat, k: nat) returns (n: nat)
    requires |chunks| == |sets| && k <= |chunks| && KnownInTime(chunks, sets, t, p) && p < |Concat(chunks[..k])|
    ensures n < k && p >= |Concat(chunks[..n])| && KnownFrom(sets, t, n)
  {
    hide KnownFrom, Concat;
    n :| n <= |chunks| && p >= |Concat(chunks[..n])| && KnownFrom(sets, t, n);
    if n >= k {
      ConcatUpTo(chunks, k, n);
    }
  }

  lemma AtLonger(t: string, s: string, whole: string, p: nat)
    requires At(t, s, p) && s <= whole
    ensures At(t, whole, p)
  {
    assert whole[p..p + |t|] == s[p..p + |t|];
  }

  lemma OnTimeSoFar(chunks: seq<string>, sets: seq<seq<string>>, tokens: seq<string>, k: nat)
    requires OnTime(chunks, sets, tokens) && k <= |chunks| && "" !in tokens
    ensures OnTime(chunks[..k], sets[..k], tokens)
  {
    hide KnownInTime;
    ConcatGrows(chunks, k);
    forall t, p: nat | t in tokens && At(t, Concat(chunks[..k]), p) ensures KnownInTime(chunks[..k], sets[..k], t, p) {
      AtLonger(t, Concat(chunks[..k]), Concat(chunks), p);
      var n := KnownBefore(chunks, sets, t, p, k);
      KnownStill(chunks, sets, t, p, k, n);
    }
  }

  lemma KnownStill(chunks: seq<string>, sets: seq<seq<string>>, t: string, p: nat, k: nat, n: nat)
    requires |chunks| == |sets| && n < k <= |chunks| && p >= |Concat(chunks[..n])| && KnownFrom(sets, t, n)
    ensures KnownInTime(chunks[..k], sets[..k], t, p)
  {
    assert chunks[..k][..n] == chunks[..n];
    assert KnownFrom(sets[..k], t, n);
  }

  /** No token goes from what was passed on into what comes next. */
  lemma PassedHasNothingAcross(chunks: seq<string>, sets: seq<seq<string>>, future: string, whole: string, tokens: seq<string>, rest: string)
    requires |chunks| == |sets| && Growing(sets, tokens)
    requires Concat(chunks) + future == whole && rest <= HeldBack(chunks, sets) + future
    requires forall t, p: nat :: t in tokens && At(t, whole, p) && p < |Concat(chunks)| ==> KnownInTime(chunks, sets, t, p)
    ensures NothingAcross(tokens, PassedOn(chunks, sets), rest)
  {
    hide KnownInTime, Straddles, HeldBack, PassedOn, Growing, Concat;
    var e, all := PassedOn(chunks, sets), HeldBack(chunks, sets) + future;
    NothingIsLostGrowing(chunks, sets);
    Assoc(e, HeldBack(chunks, sets), future);
    TakeAll(chunks);
    forall t, p: nat | t in tokens ensures !Straddles(t, e, rest, p) {
      if Straddles(t, e, rest, p) {
        StraddlesFurther(t, e, rest, all, p);
        var n := KnownBefore(chunks, sets, t, p, |chunks|);
        KnownAll(sets, t, n);
        LateTokenCut(chunks, sets, n, future, t, p);
        NoneCut(sets, tokens, n);
      }
    }
  }

  lemma StraddlesFurther(t: string, e: string, rest: string, all: string, p: nat)
    requires Straddles(t, e, rest, p) && rest <= all
    ensures Straddles(t, e, all, p) && At(t, e + all, p) && p < |e|
  {
    assert (e + all)[p..p + |t|] == (e + rest)[p..p + |t|];
  }

  lemma KnownAll(sets: seq<seq<string>>, t: string, n: nat)
    requires KnownFrom(sets, t, n)
    ensures forall j :: n <= j < |sets| ==> t in sets[j]
  {
  }

  lemma NoneCut(sets: seq<seq<string>>, tokens: seq<string>, n: nat)
    requires Growing(sets, tokens)
    ensures !SomeCanBeCut(sets, n)
  {
  }

  lemma GrowingSoFar(sets: seq<seq<string>>, tokens: seq<string>, k: nat)
    requires Growing(sets, tokens) && k < |sets|
    ensures Growing(sets[..k], tokens) && !CanBeCut(sets[k]) && forall t :: t in sets[k] ==> t in tokens
  {
    hide CanBeCut;
  }

  // With fewer tokens.

  lemma FewerSeparated(older: seq<string>, tokens: seq<string>, text: string)
    requires Separated(tokens, text) && forall t :: t in older ==> t in tokens
    ensures Separated(older, text)
  {
    hide Occurs;
    forall k, i, j | k in older && 0 <= i <= j <= |k| && i < |k| && 0 < j && Tail(older, k[..i]) && Head(older, k[j..])
      ensures !Occurs(k[i..j], text)
    {
      MoreTails(older, tokens, k[..i]);
      MoreHeads(older, tokens, k[j..]);
      RemainderAbsent(tokens, text, k, i, j);
    }
  }

  lemma MoreTails(older: seq<string>, tokens: seq<string>, w: string)
    requires Tail(older, w) && forall t :: t in older ==> t in tokens
    ensures Tail(tokens, w)
  {
  }

  lemma MoreHeads(older: seq<string>, tokens: seq<string>, w: string)
    requires Head(older, w) && forall t :: t in older ==> t in tokens
    ensures Head(tokens, w)
  {
  }

  /** Tokens that are not in a text play no part in reading it. */
  lemma {:induction false} FewerParse(older: seq<string>, tokens: seq<string>, s: string)
    requires Apart(tokens) && (forall t :: t in older ==> t in tokens)
    requires forall t :: t in tokens && t !in older ==> !Occurs(t, s)
    ensures Parse(older, s) == Parse(tokens, s)
    decreases |s|
  {
    hide Apart, Occurs;
    if s != "" {
      FirstIs(tokens, s);
      SameFirst(older, tokens, s);
      var n := if First(tokens, s) == "" then 1 else |First(tokens, s)|;
      forall t | t in tokens && t !in older ensures !Occurs(t, s[n..]) {
        if Occurs(t, s[n..]) {
          OccursInDrop(t, s, n);
        }
      }
      FewerParse(older, tokens, s[n..]);
    }
  }

  lemma SameFirst(older: seq<string>, tokens: seq<string>, s: string)
    requires Apart(tokens) && (forall t :: t in older ==> t in tokens)
    requires forall t :: t in tokens && t !in older ==> !Occurs(t, s)
    ensures First(older, s) == First(tokens, s)
  {
    var a, b := First(tokens, s), First(older, s);
    FirstIs(tokens, s);
    FirstIs(older, s);
    if a != "" {
      AtFront(a, s);
      assert a in older;
      if b == "" {
        FirstMisses(older, s, a);
      }
    }
    if a != "" && b != "" {
      OnePrefix(tokens, s, a, b);
    }
    if a == "" && b != "" {
      NotInEmpty(tokens, b);
      FirstMisses(tokens, s, b);
    }
  }

  lemma OnePrefix(tokens: seq<string>, s: string, a: string, b: string)
    requires Apart(tokens) && a in tokens && b in tokens && a <= s && b <= s
    ensures a == b
  {
    AtFront(a, b);
    AtFront(b, a);
    assert a == s[..|a|] && b == s[..|b|];
  }

  lemma NotInEmpty(tokens: seq<string>, b: string)
    requires Apart(tokens) && b in tokens
    ensures b != ""
  {
  }

  lemma NoEmptyToken(tokens: seq<string>, text: string)
    requires Separated(tokens, text)
    ensures "" !in tokens && Apart(tokens)
  {
  }

  /** A chunk restored with the tokens of its time comes out as with all. */
  lemma RestoredInTime(older: seq<string>, tokens: seq<string>, values: map<string, string>, s: string)
    requires forall t :: t in older ==> t in tokens
    requires forall t :: t in tokens ==> t in values && t != ""
    requires forall t :: t in tokens && t !in older ==> !Occurs(t, s)
    requires Separated(tokens, Meaning(tokens, values, s))
    ensures RestoreWith(older, values, s) == Meaning(tokens, values, s)
  {
    hide Separated, Parse, Apart, Occurs;
    NoEmptyToken(tokens, Meaning(tokens, values, s));
    FewerParse(older, tokens, s);
    FewerSeparated(older, tokens, Meaning(tokens, values, s));
    RestoreIsMeaning(older, values, s);
  }

  /** Tokens not known yet are not in what is sent. */
  lemma SentInTime(chunks: seq<string>, sets: seq<seq<string>>, tokens: seq<string>, k: nat, before: string, sent: string, t: string)
    requires OnTime(chunks, sets, tokens) && k + 1 == |chunks| && before + sent <= Concat(chunks)
    requires t in tokens && t != "" && t !in sets[k]
    ensures !Occurs(t, sent)
  {
    hide KnownInTime, Concat;
    if Occurs(t, sent) {
      var q: nat :| At(t, sent, q);
      AtBehind(t, before, sent, |before| + q);
      AtLonger(t, before + sent, Concat(chunks), |before| + q);
      TakeAll(chunks);
      var n := KnownBefore(chunks, sets, t, |before| + q, |chunks|);
      KnownAll(sets, t, n);
    }
  }

  lemma ConcatLast(chunks: seq<string>)
    requires chunks != []
    ensures Concat(chunks) == Concat(chunks[..|chunks| - 1]) + chunks[|chunks| - 1]
  {
  }

  lemma OnTimeAcross(chunks: seq<string>, sets: seq<seq<string>>, tokens: seq<string>, k: nat)
    requires OnTime(chunks, sets, tokens) && k <= |chunks|
    ensures forall t, p: nat :: t in tokens && At(t, Concat(chunks), p) && p < |Concat(chunks[..k])| ==> KnownInTime(chunks[..k], sets[..k], t, p)
  {
    hide KnownInTime, Concat;
    forall t, p: nat | t in tokens && At(t, Concat(chunks), p) && p < |Concat(chunks[..k])|
      ensures KnownInTime(chunks[..k], sets[..k], t, p)
    {
      var n := KnownBefore(chunks, sets, t, p, k);
      KnownStill(chunks, sets, t, p, k, n);
    }
  }

  lemma SubsetValues(sets: seq<seq<string>>, tokens: seq<string>, values: map<string, string>)
    requires Growing(sets, tokens) && forall t :: t in tokens ==> t in values
    ensures forall j, t :: 0 <= j < |sets| && t in sets[j] ==> t in values
  {
    hide CanBeCut;
  }

  /** What is passed on is what the text so far means. */
  lemma {:induction false} StreamedIsMeaning(chunks: seq<string>, sets: seq<seq<string>>, tokens: seq<string>, values: map<string, string>)
    requires forall t :: t in tokens ==> t in values && t != ""
    requires OnTime(chunks, sets, tokens) && Growing(sets, tokens)
    requires Separated(tokens, Meaning(tokens, values, PassedOn(chunks, sets)))
    ensures forall j, t :: 0 <= j < |sets| && t in sets[j] ==> t in values
    ensures StreamedGrowing(chunks, sets, values) == Meaning(tokens, values, PassedOn(chunks, sets))
    decreases |chunks|
  {
    hide Growing, OnTime, Separated, Sent, Held, HeldBack, PassedOn, Parse, KnownInTime, Concat;
    SubsetValues(sets, tokens, values);
    SameLength(chunks, sets, tokens);
    if chunks == [] {
      NothingPassed(sets, tokens, values);
      return;
    }
    var k := |chunks| - 1;
    var before, tail := PassedOn(chunks[..k], sets[..k]), HeldBack(chunks[..k], sets[..k]);
    var sent := Sent(tail, chunks[k], sets[k]);
    LastPiece(chunks, sets);
    SentThenHeld(tail, chunks[k], sets[k]);
    GrowingSoFar(sets, tokens, k);
    OnTimeSoFar(chunks, sets, tokens, k);
    OnTimeAcross(chunks, sets, tokens, k);
    ConcatLast(chunks);
    PassedHasNothingAcross(chunks[..k], sets[..k], chunks[k], Concat(chunks), tokens, sent);
    MeaningConcat(tokens, values, before, sent);
    StreamedIsMeaning(chunks[..k], sets[..k], tokens, values);
    NothingIsLostGrowing(chunks, sets);
    forall t | t in tokens && t !in sets[k] ensures !Occurs(t, sent) {
      SentInTime(chunks, sets, tokens, k, before, sent, t);
    }
    RestoredInTime(sets[k], tokens, values, sent);
  }

  lemma SameLength(chunks: seq<string>, sets: seq<seq<string>>, tokens: seq<string>)
    requires OnTime(chunks, sets, tokens)
    ensures |chunks| == |sets|
  {
  }

  lemma NothingPassed(sets: seq<seq<string>>, tokens: seq<string>, values: map<string, string>)
    requires sets == []
    ensures PassedOn([], sets) == "" && Meaning(tokens, values, "") == ""
  {
  }

  /** However the text is cut into chunks, and though the table grows as it comes in, streaming it
      restores what restoring it whole with the last table does: if no token is in the stream before it
      is known, none can be cut, and none shows in the restored text. */
  lemma GrowingStreamAgrees(chunks: seq<string>, sets: seq<seq<string>>, tokens: seq<string>, values: map<string, string>)
    requires forall t :: t in tokens ==> t in values && t != ""
    requires OnTime(chunks, sets, tokens) && Growing(sets, tokens)
    requires Separated(tokens, Meaning(tokens, values, Concat(chunks)))
    ensures forall j, t :: 0 <= j < |sets| && t in sets[j] ==> t in values
    ensures StreamedGrowing(chunks, sets, values) + RestoreWith(tokens, values, HeldBack(chunks, sets))
         == RestoreWith(tokens, values, Concat(chunks))
  {
    hide Growing, OnTime, Separated, HeldBack, PassedOn, Parse, KnownInTime, Concat, StreamedGrowing;
    SameLength(chunks, sets, tokens);
    var sent, tail := PassedOn(chunks, sets), HeldBack(chunks, sets);
    NothingIsLostGrowing(chunks, sets);
    assert tail + "" == tail && Concat(chunks) + "" == Concat(chunks);
    OnTimeAcross(chunks, sets, tokens, |chunks|);
    TakeAll(chunks);
    TakeAll(sets);
    PassedHasNothingAcross(chunks, sets, "", Concat(chunks), tokens, tail);
    MeaningConcat(tokens, values, sent, tail);
    StreamedIsMeaning(chunks, sets, tokens, values);
    RestoreIsMeaning(tokens, values, tail);
    RestoreIsMeaning(tokens, values, Concat(chunks));
  }

  lemma {:induction false} StreamedTheSame(chunks: seq<string>, tokens: seq<string>, values: map<string, string>)
    requires forall t :: t in tokens ==> t in values && t != ""
    ensures StreamedGrowing(chunks, Always(tokens, |chunks|), values) == Streamed(chunks, tokens, values)
  {
    hide Sent, HeldBack, Pending;
    if chunks != [] {
      var k := |chunks| - 1;
      assert Always(tokens, k + 1)[..k] == Always(tokens, k);
      SameAllAlong(chunks[..k], tokens);
      StreamedTheSame(chunks[..k], tokens, values);
    }
  }

  lemma AlwaysOnTime(chunks: seq<string>, tokens: seq<string>)
    ensures OnTime(chunks, Always(tokens, |chunks|), tokens)
  {
    forall t, p: nat | t in tokens ensures KnownInTime(chunks, Always(tokens, |chunks|), t, p) {
      assert chunks[..0] == [];
      assert KnownFrom(Always(tokens, |chunks|), t, 0);
    }
  }

  /** With the same tokens throughout: streaming a text restores what restoring it whole does. */
  lemma StreamingAgrees(chunks: seq<string>, tokens: seq<string>, values: map<string, string>)
    requires forall t :: t in tokens ==> t in values && t != ""
    requires !CanBeCut(tokens) && Separated(tokens, Meaning(tokens, values, Concat(chunks)))
    ensures Streamed(chunks, tokens, values) + RestoreWith(tokens, values, Pending(chunks, tokens))
         == RestoreWith(tokens, values, Concat(chunks))
  {
    hide CanBeCut, Separated, Parse, OnTime, HeldBack, Pending, Streamed, StreamedGrowing;
    AlwaysOnTime(chunks, tokens);
    GrowingStreamAgrees(chunks, Always(tokens, |chunks|), tokens, values);
    StreamedTheSame(chunks, tokens, values);
    SameAllAlong(chunks, tokens);
  }

  /** For plain tokens it is enough that no token shows in the restored text. */
  lemma PlainStreamingAgrees(chunks: seq<string>, t: Table, tokens: seq<string>, width: nat)
    requires TwoWay(t) && forall k :: k in tokens ==> k in t.byToken && PlainForm(k, width)
    requires NoneIn(tokens, Meaning(tokens, t.byToken, Concat(chunks)))
    ensures forall k :: k in tokens ==> k in t.byToken && k != ""
    ensures Streamed(chunks, tokens, t.byToken) + RestoreWith(tokens, t.byToken, Pending(chunks, tokens))
         == RestoreWith(tokens, t.byToken, Concat(chunks))
  {
    PlainTokensSeparate(t, tokens, width, Meaning(tokens, t.byToken, Concat(chunks)));
    BorderFreeIsNeverCut(tokens);
    StreamingAgrees(chunks, tokens, t.byToken);
  }

  /** For plain tokens and values unlike them it holds of every text and every chunking. */
  lemma InertStreamingAgrees(chunks: seq<string>, t: Table, tokens: seq<string>, width: nat)
    requires TwoWay(t) && Inert(tokens, t.byToken) && forall k :: k in tokens ==> k in t.byToken && PlainForm(k, width)
    ensures forall k :: k in tokens ==> k in t.byToken && k != ""
    ensures Streamed(chunks, tokens, t.byToken) + RestoreWith(tokens, t.byToken, Pending(chunks, tokens))
         == RestoreWith(tokens, t.byToken, Concat(chunks))
  {
    hide Inert, Meaning;
    InertRestore(t, tokens, width, Concat(chunks));
    PlainStreamingAgrees(chunks, t, tokens, width);
  }

  /** A whole stream through one restorer, flushed at its end; each chunk meets the tokens of its time. */
  method RestoreStream(chunks: seq<string>, sets: seq<seq<string>>, tokens: seq<string>, values: map<string, string>) returns (out: string)
    requires |chunks| == |sets| && (forall j, t :: 0 <= j < |sets| && t in sets[j] ==> t in values) && forall t :: t in tokens ==> t in values
    ensures out == StreamedGrowing(chunks, sets, values) + RestoreWith(tokens, values, HeldBack(chunks, sets))
  {
    hide RestoreWith, Sent, Held;
    var restorer := new StreamRestorer();
    out := "";
    for i := 0 to |chunks|
      invariant restorer.tail == HeldBack(chunks[..i], sets[..i]) && out == StreamedGrowing(chunks[..i], sets[..i], values)
    {
      assert chunks[..i + 1][..i] == chunks[..i] && sets[..i + 1][..i] == sets[..i];
      EmptyText(sets[i], values);
      var known := sets[i];
      var restored := restorer.Feed(chunks[i], known, (s: string) requires forall t :: t in known ==> t in values => RestoreWith(known, values, s));
      out := out + restored;
    }
    TakeAll(chunks);
    TakeAll(sets);
    EmptyText(tokens, values);
    var last := restorer.Flush((s: string) requires forall t :: t in tokens ==> t in values => RestoreWith(tokens, values, s));
    out := out + last;
  }

  // The private key token: it begins as it ends, and a stream can lose it.

  function PemToken(n: nat): string {
    Synthetic(Semantic, Shape("pem", "", Pem), n)
  }

  /** Where the dashes of a private key token are, and what follows the first three runs of them. */
  ghost predicate PemLike(t: string) {
    var o := |t| - 26;
    && o > 32 && t[5] == 'B' && t[27] == '\n' && t[o + 6] == 'E'
    && (forall i :: 0 <= i < |t| ==> (t[i] == '-' <==> i < 5 || 22 <= i < 27 || o < i < o + 6 || |t| - 5 <= i))
  }

  lemma PemShape(n: nat)
    ensures PemLike(PemToken(n))
  {
    var d := Padded(6, n);
    var t := PEM_HEAD + d + PEM_TAIL;
    var o := |PEM_HEAD| + |d|;
    assert |PEM_HEAD| == 32 && |PEM_TAIL| == 26;
    assert forall i :: 0 <= i < 32 ==> t[i] == PEM_HEAD[i];
    assert forall i :: 32 <= i < o ==> t[i] == d[i - 32] && t[i] != '-';
    assert forall i :: o <= i < |t| ==> t[i] == PEM_TAIL[i - o];
    PemFrame();
  }

  lemma PemFrame()
    ensures forall i :: 0 <= i < 32 ==> (PEM_HEAD[i] == '-' <==> i < 5 || 22 <= i < 27)
    ensures forall i :: 0 <= i < 26 ==> (PEM_TAIL[i] == '-' <==> 0 < i < 6 || 21 <= i)
    ensures PEM_HEAD[5] == 'B' && PEM_HEAD[27] == '\n' && PEM_TAIL[6] == 'E'
  {
  }

  /** No suffix longer than the five closing dashes is a beginning of the token. */
  lemma PemDiffers(t: string, p: nat)
    requires PemLike(t) && 0 < p < |t| - 5
    ensures !(t[p..] <= t)
  {
    var o := |t| - 26;
    var q := if p < 5 then 5 else if 22 <= p < 27 then 27 else if o < p < o + 6 then o + 6 else p;
    assert t[p..][q - p] == t[q];
    assert t[q] != t[q - p];
  }

  lemma PemHold(t: string)
    requires PemLike(t)
    ensures Hold(t, [t]) == 5
  {
    hide PemLike;
    PemEnd(t);
    forall q | 0 <= q < |t| - 5 ensures !Partial(t[q..], [t]) {
      if q > 0 {
        PemDiffers(t, q);
      }
    }
    HoldSkips(t, [t], |t| - 5);
    assert Partial(t[|t| - 5..], [t]);
  }

  lemma PemEnd(t: string)
    requires PemLike(t)
    ensures |t| > 58 && t[|t| - 5..] <= t
  {
  }

  /** A private key token that arrives whole, as one chunk, is passed on unrestored: its last dashes
      are held back as if another token began there. */
  lemma PemTokenIsLost(n: nat, secret: string)
    ensures var t := PemToken(n); var values := map[t := secret];
            && t != "" && CanBeCut([t])
            && Streamed([t], [t], values) + RestoreWith([t], values, Pending([t], [t])) == t
            && RestoreWith([t], values, t) == secret
  {
    hide PemLike, PemToken, Hold, CanBeCut, Streamed, RestoreWith, Pending;
    var t := PemToken(n);
    PemShape(n);
    PemEnd(t);
    PemHold(t);
    StreamedUnrestored(t, map[t := secret]);
    WholeToken(t, map[t := secret]);
    HeldTokenIsCut(t);
  }

  /** A token that holds back its own end when fed whole comes out as it went in. */
  lemma StreamedUnrestored(t: string, values: map<string, string>)
    requires t != "" && t in values && 0 < Hold(t, [t]) < |t|
    ensures Streamed([t], [t], values) + RestoreWith([t], values, Pending([t], [t])) == t
  {
    hide Hold, RestoreWith;
    var k := |t| - Hold(t, [t]);
    OneChunk(t, [t]);
    ShortTexts(t, values, t[..k]);
    ShortTexts(t, values, t[k..]);
    assert [t][..0] == [] && Pending([], [t]) == "" && "" + t == t;
    assert Streamed([], [t], values) == "";
    assert Streamed([t], [t], values) == "" + t[..k];
  }

  lemma HeldTokenIsCut(t: string)
    requires t != "" && 0 < Hold(t, [t]) < |t|
    ensures CanBeCut([t])
  {
    hide Hold, CanBeCut, At;
    AtItself(t);
    var tokens := [t];
    assert tokens[0] == t;
    CutHere(t, "", tokens, t, 0);
  }

  lemma AtItself(t: string)
    ensures At(t, t + "", 0)
  {
    assert t + "" == t;
  }

  lemma ShortTexts(t: string, values: map<string, string>, s: string)
    requires t != "" && t in values && |s| < |t|
    ensures RestoreWith([t], values, s) == s
  {
    assert [t][1..] == [];
  }

  lemma WholeToken(t: string, values: map<string, string>)
    requires t != "" && t in values
    ensures RestoreWith([t], values, t) == values[t]
  {
    assert [t][1..] == [];
    assert ReplaceAll(t, t, values[t]) == values[t] + ReplaceAll(t[|t|..], t, values[t]) == values[t];
  }
}
