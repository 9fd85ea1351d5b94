/** A text read once from left to right into characters and tokens, what it means, and when putting
    its tokens back gives that meaning. */
module TokenParse {
  import opened Replacing
  import opened TokenTable
  import opened TokenCells
  import opened PlainTokens
  import opened Sequences

  /** The first listed token that the text begins with, if any. */
  function First(tokens: seq<string>, s: string): string {
    if tokens == [] then "" else if tokens[0] != "" && tokens[0] <= s then tokens[0] else First(tokens[1..], s)
  }

  lemma {:induction false} FirstIs(tokens: seq<string>, s: string)
    ensures First(tokens, s) <= s && (First(tokens, s) != "" ==> First(tokens, s) in tokens)
  {
    if tokens != [] {
      FirstIs(tokens[1..], s);
    }
  }

  function Parse(tokens: seq<string>, s: string): seq<Cell>
    decreases |s|
  {
    if s == "" then []
    else
      FirstIs(tokens, s);
      var t := First(tokens, s);
      if t == "" then [Ch(s[0])] + Parse(tokens, s[1..]) else [Tok(t)] + Parse(tokens, s[|t|..])
  }

  lemma {:induction false} ParseShows(tokens: seq<string>, s: string)
    ensures Text(Parse(tokens, s)) == s && TokensAmong(Parse(tokens, s), tokens)
    decreases |s|
  {
    if s != "" {
      FirstIs(tokens, s);
      var t := First(tokens, s);
      if t == "" {
        ParseShows(tokens, s[1..]);
        Cons(s);
      } else {
        ParseShows(tokens, s[|t|..]);
        TakeDrop(s, |t|);
      }
    }
  }

  /** What the text means: each token's value in its place, all read from the original text. */
  function Meaning(tokens: seq<string>, values: map<string, string>, s: string): string {
    Expand(Parse(tokens, s), values)
  }

  /** Restoring a whole text gives its meaning, if no token shows in that. */
  lemma RestoreIsMeaning(tokens: seq<string>, values: map<string, string>, s: string)
    requires forall t :: t in tokens ==> t in values && t != ""
    requires Separated(tokens, Meaning(tokens, values, s))
    ensures RestoreWith(tokens, values, s) == Meaning(tokens, values, s)
  {
    ParseShows(tokens, s);
    hide Separated, Parse;
    var cells := Parse(tokens, s);
    forall c | c in cells && c.Tok? ensures c.key in tokens {
      var n :| 0 <= n < |cells| && cells[n] == c;
    }
    RestoreExpands(tokens, tokens, values, cells);
  }

  // Tables whose values and tokens have nothing in common.

  /** Neither holds the other, and neither ends as the other begins. */
  ghost predicate Unlike(k: string, v: string) {
    && v != "" && !Occurs(k, v) && !Occurs(v, k)
    && (forall n :: 0 < n <= |v| && n < |k| ==> v[|v| - n..] != k[..n] && v[..n] != k[|k| - n..])
  }

  ghost predicate Inert(tokens: seq<string>, values: map<string, string>) {
    forall k, u :: k in tokens && u in tokens && u in values ==> Unlike(k, values[u])
  }

  lemma InertPair(tokens: seq<string>, values: map<string, string>, k: string, u: string)
    requires Inert(tokens, values) && k in tokens && u in tokens && u in values
    ensures Unlike(k, values[u])
  {
  }

  /** A token does not run from plain text into a value or a value's inside. */
  lemma {:induction false} NotFromPlain(tokens: seq<string>, values: map<string, string>, k: string, q: nat, s: string)
    requires Inert(tokens, values) && (forall t :: t in tokens ==> t in values && t != "")
    requires k in tokens && 0 < q < |k| && !(k[q..] <= s)
    ensures !(k[q..] <= Meaning(tokens, values, s))
    decreases |s|
  {
    hide Inert, Unlike;
    if s != "" {
      FirstIs(tokens, s);
      var t := First(tokens, s);
      if t == "" {
        MeaningOfChar(tokens, values, s);
        if k[q] == s[0] && q + 1 < |k| {
          assert !(k[q + 1..] <= s[1..]) by { PrefixStep(k, q, s); }
          NotFromPlain(tokens, values, k, q + 1, s[1..]);
          PrefixStep(k, q, Meaning(tokens, values, s));
        } else if k[q] == s[0] {
          LastStep(k, s);
        }
      } else {
        MeaningOfToken(tokens, values, s);
        InertPair(tokens, values, k, t);
        NotIntoValue(k, q, values[t], Meaning(tokens, values, s[|t|..]));
      }
    }
  }

  lemma PrefixStep(k: string, q: nat, s: string)
    requires q < |k| && s != "" && k[q] == s[0]
    ensures k[q..] <= s <==> k[q + 1..] <= s[1..]
  {
    assert k[q..] == [k[q]] + k[q + 1..] && s == [s[0]] + s[1..];
  }

  lemma LastStep(k: string, s: string)
    requires k != "" && s != "" && k[|k| - 1] == s[0]
    ensures k[|k| - 1..] <= s
  {
  }

  lemma MeaningOfChar(tokens: seq<string>, values: map<string, string>, s: string)
    requires s != "" && First(tokens, s) == ""
    ensures Meaning(tokens, values, s) == [s[0]] + Meaning(tokens, values, s[1..])
  {
    ConsParts(Ch(s[0]), Parse(tokens, s[1..]));
  }

  lemma MeaningOfToken(tokens: seq<string>, values: map<string, string>, s: string)
    requires s != "" && First(tokens, s) != "" && First(tokens, s) in values
    ensures First(tokens, s) <= s
    ensures Meaning(tokens, values, s) == values[First(tokens, s)] + Meaning(tokens, values, s[|First(tokens, s)|..])
  {
    FirstIs(tokens, s);
    var t := First(tokens, s);
    ConsParts(Tok(t), Parse(tokens, s[|t|..]));
  }

  lemma PrefixCases(w: string, v: string, rest: string)
    requires w <= v + rest
    ensures |w| <= |v| ==> w == v[..|w|]
    ensures |w| > |v| ==> w[..|v|] == v
    ensures |w| == |v| ==> w == v
  {
    assert w == (v + rest)[..|w|];
  }

  lemma NotIntoValue(k: string, q: nat, v: string, rest: string)
    requires Unlike(k, v) && 0 < q < |k|
    ensures !(k[q..] <= v + rest)
  {
    var n := |k| - q;
    assert k[|k| - n..] == k[q..];
    assert !At(v, k, q);
    assert n > |v| ==> k[q..][..|v|] == k[q..q + |v|];
    if k[q..] <= v + rest {
      PrefixCases(k[q..], v, rest);
    }
  }

  lemma NotFromValue(k: string, v: string, j: nat, rest: string)
    requires Unlike(k, v) && j < |v|
    ensures !(k <= v[j..] + rest)
  {
    var n := |v| - j;
    assert v[|v| - n..] == v[j..];
    assert !At(k, v, j);
    assert |k| <= n ==> v[j..][..|k|] == v[j..j + |k|];
    if k <= v[j..] + rest {
      PrefixCases(k, v[j..], rest);
    }
  }

  /** Whatever the text, no token shows in its meaning. */
  lemma {:induction false} MeaningShowsNone(tokens: seq<string>, values: map<string, string>, k: string, s: string, p: nat)
    requires Inert(tokens, values) && (forall t :: t in tokens ==> t in values && t != "") && k in tokens
    ensures !At(k, Meaning(tokens, values, s), p)
    decreases |s|
  {
    hide Inert, Unlike;
    var m := Meaning(tokens, values, s);
    if s != "" {
      FirstIs(tokens, s);
      var t := First(tokens, s);
      if t == "" {
        MeaningOfChar(tokens, values, s);
        if p > 0 {
          MeaningShowsNone(tokens, values, k, s[1..], p - 1);
          AtBehind(k, [s[0]], Meaning(tokens, values, s[1..]), p);
        } else {
          NotAtPlain(tokens, values, k, s);
          AtFront(k, m);
        }
      } else {
        MeaningOfToken(tokens, values, s);
        InertPair(tokens, values, k, t);
        var v, rest := values[t], Meaning(tokens, values, s[|t|..]);
        if p >= |v| {
          MeaningShowsNone(tokens, values, k, s[|t|..], p - |v|);
          AtBehind(k, v, rest, p);
        } else {
          NotFromValue(k, v, p, rest);
          AtWithin(k, v, rest, p);
        }
      }
    }
  }

  lemma NotAtPlain(tokens: seq<string>, values: map<string, string>, k: string, s: string)
    requires Inert(tokens, values) && (forall t :: t in tokens ==> t in values && t != "") && k in tokens
    requires s != "" && First(tokens, s) == ""
    ensures !(k <= Meaning(tokens, values, s))
  {
    hide Inert;
    FirstMisses(tokens, s, k);
    MeaningOfChar(tokens, values, s);
    assert k[0..] == k;
    if k[0] == s[0] {
      PrefixStep(k, 0, s);
      PrefixStep(k, 0, Meaning(tokens, values, s));
      if |k| > 1 {
        NotFromPlain(tokens, values, k, 1, s[1..]);
      }
    }
  }

  lemma {:induction false} FirstMisses(tokens: seq<string>, s: string, k: string)
    requires First(tokens, s) == "" && k in tokens && k != ""
    ensures !(k <= s)
  {
    if k != tokens[0] {
      FirstMisses(tokens[1..], s, k);
    }
  }

  lemma AtBehind(w: string, a: string, b: string, p: nat)
    requires p >= |a|
    ensures At(w, a + b, p) <==> At(w, b, p - |a|)
  {
    if p + |w| <= |a + b| {
      assert (a + b)[p..p + |w|] == b[p - |a|..p - |a| + |w|];
    }
  }

  lemma AtWithin(w: string, a: string, b: string, p: nat)
    requires p < |a|
    ensures At(w, a + b, p) <==> w <= a[p..] + b
  {
    assert (a + b)[p..] == a[p..] + b;
    if w <= a[p..] + b {
      assert (a + b)[p..p + |w|] == w;
    }
    if At(w, a + b, p) {
      assert (a + b)[p..][..|w|] == w;
    }
  }

  /** For a table of plain tokens and values unlike them, restoring any text gives its meaning, in
      which no token is left. */
  lemma InertRestore(t: Table, tokens: seq<string>, width: nat, text: string)
    requires TwoWay(t) && Inert(tokens, t.byToken) && forall k :: k in tokens ==> k in t.byToken && PlainForm(k, width)
    ensures forall k :: k in tokens ==> k in t.byToken && k != ""
    ensures RestoreWith(tokens, t.byToken, text) == Meaning(tokens, t.byToken, text)
    ensures NoneIn(tokens, RestoreWith(tokens, t.byToken, text))
  {
    hide Inert, Meaning;
    var m := Meaning(tokens, t.byToken, text);
    forall k | k in tokens ensures !Occurs(k, m) {
      forall p: nat ensures !At(k, m, p) {
        MeaningShowsNone(tokens, t.byToken, k, text, p);
      }
    }
    PlainTokensSeparate(t, tokens, width, m);
    RestoreIsMeaning(tokens, t.byToken, text);
  }
}
