/** Tokens made of a digit-free head and a fixed number of digits: nothing more than their absence
    from the text is needed to tell them apart in it. */
module PlainTokens {
  import opened Decimal
  import opened TokenFormat
  import opened TokenTable
  import opened TokenCells
  import opened Replacing
  import opened Sequences

  ghost predicate BorderFree(tokens: seq<string>) {
    forall a, b, n :: a in tokens && b in tokens && 0 < n < |a| && n < |b| ==> a[|a| - n..] != b[..n]
  }

  ghost predicate NoneIn(tokens: seq<string>, text: string) {
    forall k :: k in tokens ==> !Occurs(k, text)
  }

  /** Without borders, separation is only that no token is in the text. */
  lemma BorderFreeSeparated(tokens: seq<string>, text: string)
    requires Apart(tokens) && BorderFree(tokens)
    ensures Separated(tokens, text) <==> NoneIn(tokens, text)
  {
    if NoneIn(tokens, text) {
      forall k, i, j | k in tokens && 0 <= i <= j <= |k| && i < |k| && 0 < j && Tail(tokens, k[..i]) && Head(tokens, k[j..])
        ensures !Occurs(k[i..j], text)
      {
        NoTail(tokens, k, i);
        NoHead(tokens, k, j);
        assert k[0..|k|] == k;
      }
    }
    if Separated(tokens, text) {
      forall k | k in tokens ensures !Occurs(k, text) {
        EmptyTail(tokens);
        EmptyHead(tokens);
        assert k[..0] == "" && k[|k|..] == "" && k[0..|k|] == k;
        RemainderAbsent(tokens, text, k, 0, |k|);
      }
    }
  }

  lemma NoTail(tokens: seq<string>, k: string, i: nat)
    requires BorderFree(tokens) && k in tokens && i < |k| && Tail(tokens, k[..i])
    ensures i == 0
  {
  }

  lemma NoHead(tokens: seq<string>, k: string, j: nat)
    requires BorderFree(tokens) && k in tokens && 0 < j <= |k| && Head(tokens, k[j..])
    ensures j == |k|
  {
    var n := |k| - j;
    assert k[|k| - n..] == k[j..];
    assert forall t :: t in tokens && n < |t| && k[j..] <= t ==> t[..n] == k[j..];
  }

  /** A digit-free head followed by exactly so many digits. */
  ghost predicate PlainForm(k: string, width: nat) {
    && 0 < width < |k|
    && (forall i :: 0 <= i < |k| - width ==> !IsDigit(k[i]))
    && (forall i :: |k| - width <= i < |k| ==> IsDigit(k[i]))
  }

  lemma PlainNumber(k: string, width: nat)
    requires PlainForm(k, width)
    ensures SeqOf(k) == TrailingNumber(k) && DigitsStart(k) == |k| - width
  {
    hide SeqOf;
    DigitsStartIs(k, |k| - width);
    LastDigits(k[..|k| - width], k[|k| - width..]);
    TakeDrop(k, |k| - width);
  }

  lemma LastDigits(head: string, digits: string)
    requires digits != [] && AllDigits(digits)
    ensures SeqOf(head + digits) == TrailingNumber(head + digits)
  {
    hide EndsWith, TrailingNumber;
    EndsInDigit(head, digits, PEM_TAIL);
    EndsInDigit(head, digits, JWT_TAIL);
  }

  lemma PlainWithin(a: string, b: string, width: nat, p: nat)
    requires PlainForm(a, width) && PlainForm(b, width) && At(a, b, p)
    ensures SeqOf(a) == SeqOf(b)
  {
    forall i | 0 <= i < |a| ensures b[p + i] == a[i] {
      assert b[p..p + |a|][i] == a[i];
    }
    assert IsDigit(b[p + |a| - width]);
    assert !IsDigit(b[p + |a| - width - 1]);
    assert p + |a| == |b|;
    assert a[|a| - width..] == b[|b| - width..];
    PlainNumber(a, width);
    PlainNumber(b, width);
  }

  lemma PlainBorder(a: string, b: string, width: nat, n: nat)
    requires PlainForm(a, width) && PlainForm(b, width) && 0 < n < |a| && n < |b|
    ensures a[|a| - n..] != b[..n]
  {
    var q := if IsDigit(b[n - 1]) then |b| - width - 1 else n - 1;
    assert a[|a| - n..][q] == a[|a| - n + q] && b[..n][q] == b[q];
    assert IsDigit(a[|a| - n + q]) && !IsDigit(b[q]);
  }

  /** A table of plain tokens can tell them apart in any text that has none of them. */
  lemma PlainTokensSeparate(t: Table, tokens: seq<string>, width: nat, text: string)
    requires TwoWay(t) && forall k :: k in tokens ==> k in t.byToken && PlainForm(k, width)
    ensures Apart(tokens) && BorderFree(tokens)
    ensures Separated(tokens, text) <==> NoneIn(tokens, text)
  {
    forall a, b, p: nat | a in tokens && b in tokens && At(a, b, p) ensures a == b {
      PlainWithin(a, b, width, p);
    }
    forall a, b, n | a in tokens && b in tokens && 0 < n < |a| && n < |b| ensures a[|a| - n..] != b[..n] {
      PlainBorder(a, b, width, n);
    }
    BorderFreeSeparated(tokens, text);
  }

  // The built-in formats are plain while their numbers fit.

  predicate NoDigit(s: string) {
    forall i :: 0 <= i < |s| ==> !IsDigit(s[i])
  }

  function Width(mode: Mode): nat {
    if mode == Private then 3 else 6
  }

  function Limit(mode: Mode): nat {
    if mode == Private then 1000 else 1_000_000
  }

  lemma {:induction false} DigitsFit(n: nat, width: nat, limit: nat)
    requires 0 < width && limit == Power10(width) && n < limit
    ensures |Digits(n)| <= width
    decreases n
  {
    if n >= 10 {
      assert width > 1;
      DigitsFit(n / 10, width - 1, Power10(width - 1));
    }
  }

  function Power10(n: nat): nat {
    if n == 0 then 1 else 10 * Power10(n - 1)
  }

  lemma SyntheticIsPlain(mode: Mode, m: Shape, n: nat)
    requires n < Limit(mode)
    requires mode == Semantic ==> m.template == NoTemplate && NoDigit(m.prefix) && NoDigit(m.detector)
    ensures PlainForm(Synthetic(mode, m, n), Width(mode))
  {
    assert Power10(3) == 1000;
    assert Power10(6) == 1_000_000 by { assert Power10(4) == 10_000 && Power10(5) == 100_000; }
    DigitsFit(n, Width(mode), Limit(mode));
    var d := Padded(Width(mode), n);
    assert |d| == Width(mode);
    var head :=
      if mode == Private then "SECRET_TOKEN_"
      else if m.prefix != "" then m.prefix + "SNAT"
      else (if m.detector == "" then "SECRET" else UpperName(m.detector)) + "_SNAT_";
    assert Synthetic(mode, m, n) == head + d;
    UpperHasNoDigit(m.detector);
    assert NoDigit(head);
  }

  lemma UpperHasNoDigit(name: string)
    ensures NoDigit(name) ==> NoDigit(UpperName(name))
  {
  }
}
