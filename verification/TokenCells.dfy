/** Texts seen as plain characters and whole tokens, and when putting the tokens back one after
    another gives exactly what each of them stands for. */
module TokenCells {
  import opened Replacing
  import opened TokenTable
  import opened Sequences

  datatype Cell = Ch(c: char) | Tok(key: string)

  function Shown(c: Cell): string {
    match c
    case Ch(ch) => [ch]
    case Tok(k) => k
  }

  function Meant(c: Cell, values: map<string, string>): string {
    match c
    case Ch(ch) => [ch]
    case Tok(k) => if k in values then values[k] else k
  }

  /** The text with its tokens showing. */
  function Text(cells: seq<Cell>): string {
    if cells == [] then "" else Shown(cells[0]) + Text(cells[1..])
  }

  /** The text with every token's value in its place. */
  function Expand(cells: seq<Cell>, values: map<string, string>): string {
    if cells == [] then "" else Meant(cells[0], values) + Expand(cells[1..], values)
  }

  lemma {:induction false} TextConcat(a: seq<Cell>, b: seq<Cell>)
    ensures Text(a + b) == Text(a) + Text(b)
  {
    hide Shown;
    if a == [] {
      assert a + b == b;
    } else {
      TextConcat(a[1..], b);
      assert (a + b)[1..] == a[1..] + b;
      Assoc(Shown(a[0]), Text(a[1..]), Text(b));
    }
  }

  lemma {:induction false} ExpandConcat(a: seq<Cell>, b: seq<Cell>, values: map<string, string>)
    ensures Expand(a + b, values) == Expand(a, values) + Expand(b, values)
  {
    hide Meant;
    if a == [] {
      assert a + b == b;
    } else {
      ExpandConcat(a[1..], b, values);
      assert (a + b)[1..] == a[1..] + b;
      Assoc(Meant(a[0], values), Expand(a[1..], values), Expand(b, values));
    }
  }

  lemma {:induction false} PlainBoth(v: string, values: map<string, string>)
    ensures Text(Plain(v)) == v && Expand(Plain(v), values) == v
  {
    if v != "" {
      PlainBoth(v[1..], values);
      assert Plain(v)[1..] == Plain(v[1..]);
      Cons(v);
    }
  }

  function Plain(s: string): seq<Cell> {
    seq(|s|, i requires 0 <= i < |s| => Ch(s[i]))
  }

  // When the tokens of a set can be told apart within a text.

  /** A proper suffix of a token, or nothing. */
  ghost predicate Tail(tokens: seq<string>, w: string) {
    w == "" || exists t :: t in tokens && |w| < |t| && t[|t| - |w|..] == w
  }

  /** A proper prefix of a token, or nothing. */
  ghost predicate Head(tokens: seq<string>, w: string) {
    w == "" || exists t :: t in tokens && |w| < |t| && w <= t
  }

  /** No token is empty or lies within another. */
  ghost predicate Apart(tokens: seq<string>) {
    && "" !in tokens
    && forall a, b, p: nat :: a in tokens && b in tokens && At(a, b, p) ==> a == b
  }

  /** What a token's occurrence would leave to plain text, once a token before it lends its end
      and a token after it its beginning, is not in the text. In particular no token is. */
  ghost predicate NoRemainder(tokens: seq<string>, text: string) {
    forall k, i, j :: k in tokens && 0 <= i <= j <= |k| && i < |k| && 0 < j && Tail(tokens, k[..i]) && Head(tokens, k[j..])
      ==> !Occurs(k[i..j], text)
  }

  ghost predicate Separated(tokens: seq<string>, text: string) {
    Apart(tokens) && NoRemainder(tokens, text)
  }

  lemma RemainderAbsent(tokens: seq<string>, text: string, k: string, i: nat, j: nat)
    requires NoRemainder(tokens, text) && k in tokens && i <= j <= |k| && i < |k| && 0 < j
    requires Tail(tokens, k[..i]) && Head(tokens, k[j..])
    ensures !Occurs(k[i..j], text)
  {
  }

  lemma SeparatedPart(tokens: seq<string>, a: string, s: string, b: string)
    requires Separated(tokens, a + s + b)
    ensures Separated(tokens, s)
  {
    forall k, i, j | k in tokens && 0 <= i <= j <= |k| && i < |k| && 0 < j && Tail(tokens, k[..i]) && Head(tokens, k[j..])
      ensures !Occurs(k[i..j], s)
    {
      RemainderAbsent(tokens, a + s + b, k, i, j);
      if Occurs(k[i..j], s) {
        OccursInPart(k[i..j], a, s, b);
      }
    }
  }

  ghost predicate TokensAmong(cells: seq<Cell>, tokens: seq<string>) {
    forall n :: 0 <= n < |cells| && cells[n].Tok? ==> cells[n].key in tokens
  }

  /** A token that seems to begin where a suffix of another ends can only be a whole token cell. */
  lemma {:induction false} OnlyWhole(tokens: seq<string>, values: map<string, string>, text: string, x: nat,
                                     cells: seq<Cell>, k: string, i: nat, q: nat)
    requires Separated(tokens, text) && TokensAmong(cells, tokens)
    requires k in tokens && i <= q <= |k| && i < |k| && Tail(tokens, k[..i])
    requires x <= |text| && text[x..] == k[i..q] + Expand(cells, values)
    requires k[q..] <= Text(cells)
    ensures i == q == 0 && cells != [] && cells[0] == Tok(k)
    decreases |cells|
  {
    hide Separated, Apart, NoRemainder, Tail, Head, Occurs, TokensAmong, Text, Expand;
    if q == |k| {
      EmptyHead(tokens);
      assert k[q..] == "";
      WholeRemainder(tokens, text, x, k, i, q, Expand(cells, values));
    } else if cells == [] {
      NoText(values);
    } else if cells[0].Ch? {
      AfterChar(tokens, cells);
      OneMoreChar(values, text[x..], cells, k, i, q);
      OnlyWhole(tokens, values, text, x, cells[1..], k, i, q + 1);
    } else {
      AtToken(tokens, text, x, cells, k, i, q, Expand(cells, values));
    }
  }

  lemma NoText(values: map<string, string>)
    ensures Text([]) == "" && Expand([], values) == "" && Toks([]) == 0
  {
  }

  lemma OneMoreChar(values: map<string, string>, s: string, cells: seq<Cell>, k: string, i: nat, q: nat)
    requires i <= q < |k| && cells != [] && cells[0].Ch?
    requires s == k[i..q] + Expand(cells, values) && k[q..] <= Text(cells)
    ensures s == k[i..q + 1] + Expand(cells[1..], values) && k[q + 1..] <= Text(cells[1..])
  {
    PrefixTail(k, q, cells[0].c, Text(cells[1..]));
    HeadGrows(s, k, i, q, Expand(cells[1..], values));
  }

  lemma PrefixTail(k: string, q: nat, c: char, r: string)
    requires q < |k| && k[q..] <= [c] + r
    ensures k[q] == c && k[q + 1..] <= r
  {
    DropStep(k, q);
    ConsParts(c, r);
  }

  lemma HeadGrows(s: string, k: string, i: nat, q: nat, rest: string)
    requires i <= q < |k| && s == k[i..q] + ([k[q]] + rest)
    ensures s == k[i..q + 1] + rest
  {
    SliceSnoc(k, i, q);
    Assoc(k[i..q], [k[q]], rest);
  }

  lemma AfterChar(tokens: seq<string>, cells: seq<Cell>)
    requires TokensAmong(cells, tokens) && cells != []
    ensures TokensAmong(cells[1..], tokens)
    ensures cells[0].Tok? ==> cells[0].key in tokens
  {
  }

  lemma WholeRemainder(tokens: seq<string>, text: string, x: nat, k: string, i: nat, q: nat, rest: string)
    requires Separated(tokens, text) && k in tokens && i <= q <= |k| && i < |k| && Tail(tokens, k[..i])
    requires x <= |text| && text[x..] == k[i..q] + rest
    ensures q > 0 ==> !Head(tokens, k[q..])
  {
    if q > 0 && Head(tokens, k[q..]) {
      RemainderAbsent(tokens, text, k, i, q);
      assert At(k[i..q], text[x..], 0);
      OccursInDrop(k[i..q], text, x);
    }
  }

  lemma AtToken(tokens: seq<string>, text: string, x: nat, cells: seq<Cell>, k: string, i: nat, q: nat, rest: string)
    requires Separated(tokens, text) && TokensAmong(cells, tokens)
    requires k in tokens && i <= q < |k| && Tail(tokens, k[..i])
    requires x <= |text| && text[x..] == k[i..q] + rest
    requires cells != [] && cells[0].Tok? && k[q..] <= Text(cells)
    ensures i == q == 0 && cells[0] == Tok(k)
  {
    hide NoRemainder, Occurs, Tail;
    var u := cells[0].key;
    assert Text(cells)[..|u|] == u;
    if |u| <= |k[q..]| {
      assert k[q..q + |u|] == u;
      assert At(u, k, q);
    } else {
      assert u[..|k[q..]|] == k[q..];
      assert Head(tokens, k[q..]);
      if q > 0 {
        WholeRemainder(tokens, text, x, k, i, q, rest);
      } else {
        assert k[0..] == k;
        NotInAnother(tokens, text, k, u, 0);
      }
    }
  }

  // One token put back throughout a text.

  function Settle(cells: seq<Cell>, key: string, value: string): seq<Cell> {
    if cells == [] then []
    else (if cells[0] == Tok(key) then Plain(value) else [cells[0]]) + Settle(cells[1..], key, value)
  }

  lemma {:induction false} ReplaceSettles(tokens: seq<string>, values: map<string, string>, text: string, x: nat, cells: seq<Cell>, k: string)
    requires Separated(tokens, text) && TokensAmong(cells, tokens) && k in tokens && k in values
    requires x <= |text| && text[x..] == Expand(cells, values)
    requires forall t :: t in tokens ==> t in values
    ensures k != "" && ReplaceAll(Text(cells), k, values[k]) == Text(Settle(cells, k, values[k]))
    ensures Toks(cells) == Count(Text(cells), k) + Toks(Settle(cells, k, values[k]))
    decreases |cells|
  {
    hide Separated, Apart, NoRemainder, Tail, Head, Occurs, TokensAmong;
    NotEmpty(tokens, text, k);
    if cells == [] {
      return;
    }
    AfterChar(tokens, cells);
    var s, rest, v := Text(cells), cells[1..], values[k];
    var meant := Meant(cells[0], values);
    var y := x + |meant|;
    assert text[y..] == text[x..][|meant|..] == Expand(rest, values);
    ReplaceSettles(tokens, values, text, y, rest, k);
    if cells[0] == Tok(k) {
      assert s[..|k|] == k && s[|k|..] == Text(rest);
      PlainBoth(v, values);
      TextConcat(Plain(v), Settle(rest, k, v));
      ToksConcat(Plain(v), Settle(rest, k, v));
      PlainHasNoToks(v);
    } else {
      ConsParts(cells[0], Settle(rest, k, v));
      if cells[0].Ch? && k <= s {
        EmptyTail(tokens);
        OnlyWhole(tokens, values, text, x, cells, k, 0, 0);
      }
      if cells[0].Ch? {
        assert s[1..] == Text(rest) && s[0] == cells[0].c;
      } else {
        SkipToken(tokens, values, text, x, cells, k, 0);
        assert cells[0].key[0..] == cells[0].key;
      }
    }
  }

  /** How many tokens there are. */
  function Toks(cells: seq<Cell>): nat {
    if cells == [] then 0 else (if cells[0].Tok? then 1 else 0) + Toks(cells[1..])
  }

  lemma {:induction false} ToksConcat(a: seq<Cell>, b: seq<Cell>)
    ensures Toks(a + b) == Toks(a) + Toks(b)
  {
    if a == [] {
      assert a + b == b;
    } else {
      ToksConcat(a[1..], b);
      assert (a + b)[1..] == a[1..] + b;
    }
  }

  lemma {:induction false} PlainHasNoToks(v: string)
    ensures Toks(Plain(v)) == 0
  {
    if v != "" {
      PlainHasNoToks(v[1..]);
      assert Plain(v)[1..] == Plain(v[1..]);
    }
  }

  lemma NotEmpty(tokens: seq<string>, text: string, k: string)
    requires Separated(tokens, text) && k in tokens
    ensures k != ""
  {
  }

  lemma EmptyTail(tokens: seq<string>)
    ensures Tail(tokens, "")
  {
  }

  lemma EmptyHead(tokens: seq<string>)
    ensures Head(tokens, "")
  {
  }

  lemma NotInAnother(tokens: seq<string>, text: string, a: string, b: string, p: nat)
    requires Separated(tokens, text) && a in tokens && b in tokens && a != b
    ensures !At(a, b, p)
  {
  }

  lemma PrefixOfConcat(k: string, w: string, r: string)
    requires |w| <= |k| && k <= w + r
    ensures k[..|w|] == w && k[|w|..] <= r
  {
    assert k[..|w|] == (w + r)[..|w|];
    assert k[|w|..] == (w + r)[|w|..|k|];
  }

  /** Replacing one token never disturbs another's text, wherever within it the scan stands. */
  lemma {:induction false} SkipToken(tokens: seq<string>, values: map<string, string>, text: string, x: nat,
                                     cells: seq<Cell>, k: string, j: nat)
    requires Separated(tokens, text) && TokensAmong(cells, tokens) && k in tokens && k in values && k != ""
    requires x <= |text| && text[x..] == Expand(cells, values)
    requires forall t :: t in tokens ==> t in values
    requires cells != [] && cells[0].Tok? && cells[0].key != k && j <= |cells[0].key|
    ensures ReplaceAll(cells[0].key[j..] + Text(cells[1..]), k, values[k])
         == cells[0].key[j..] + ReplaceAll(Text(cells[1..]), k, values[k])
    ensures Count(cells[0].key[j..] + Text(cells[1..]), k) == Count(Text(cells[1..]), k)
    decreases |cells[0].key| - j
  {
    hide Separated, Apart, NoRemainder, Tail, Head, Occurs, TokensAmong, Text, Expand;
    var t, rest := cells[0].key, Text(cells[1..]);
    var s := t[j..] + rest;
    if j == |t| {
      assert s == rest;
    } else {
      if k <= s {
        NotWithin(tokens, values, text, x, cells, k, j);
      }
      DropStep(t, j);
      assert s[0] == t[j] && s[1..] == t[j + 1..] + rest;
      SkipToken(tokens, values, text, x, cells, k, j + 1);
      Cons(t[j..]);
      Assoc([t[j]], t[j + 1..], ReplaceAll(rest, k, values[k]));
    }
  }

  lemma NotWithin(tokens: seq<string>, values: map<string, string>, text: string, x: nat,
                  cells: seq<Cell>, k: string, j: nat)
    requires Separated(tokens, text) && TokensAmong(cells, tokens) && k in tokens
    requires x <= |text| && text[x..] == Expand(cells, values)
    requires forall t :: t in tokens ==> t in values
    requires cells != [] && cells[0].Tok? && cells[0].key != k && j < |cells[0].key|
    ensures !(k <= cells[0].key[j..] + Text(cells[1..]))
  {
    hide NoRemainder, Occurs, TokensAmong, Head;
    var t, rest := cells[0].key, cells[1..];
    AfterChar(tokens, cells);
    var w := t[j..];
    var s := w + Text(rest);
    if |k| <= |w| {
      NotInAnother(tokens, text, k, t, j);
      assert s[..|k|] == t[j..j + |k|];
    } else if j == 0 {
      NotInAnother(tokens, text, t, k, 0);
      if k <= s {
        PrefixOfConcat(k, t, Text(rest));
      }
    } else if k <= s {
      PrefixOfConcat(k, w, Text(rest));
      assert t[|t| - |w|..] == w;
      assert Tail(tokens, k[..|w|]);
      var y := x + |values[t]|;
      assert Expand(cells, values) == values[t] + Expand(rest, values);
      assert text[y..] == text[x..][|values[t]|..] == Expand(rest, values);
      assert k[|w|..|w|] + Expand(rest, values) == Expand(rest, values);
      OnlyWhole(tokens, values, text, y, rest, k, |w|, |w|);
    }
  }

  // All of them.

  lemma {:induction false} SettleKeeps(tokens: seq<string>, values: map<string, string>, cells: seq<Cell>, k: string)
    requires k in values
    ensures Expand(Settle(cells, k, values[k]), values) == Expand(cells, values)
    ensures TokensAmong(cells, tokens) ==> TokensAmong(Settle(cells, k, values[k]), tokens)
    ensures Tok(k) !in Settle(cells, k, values[k])
    ensures forall c :: c in Settle(cells, k, values[k]) && c.Tok? ==> c in cells
  {
    if cells != [] {
      SettleKeeps(tokens, values, cells[1..], k);
      var rest := Settle(cells[1..], k, values[k]);
      if cells[0] == Tok(k) {
        PlainBoth(values[k], values);
        ExpandConcat(Plain(values[k]), rest, values);
      } else {
        assert ([cells[0]] + rest)[1..] == rest;
      }
    }
  }

  lemma {:induction false} NoTokensLeft(cells: seq<Cell>, values: map<string, string>)
    requires forall c :: c in cells ==> c.Ch?
    ensures Text(cells) == Expand(cells, values) && Toks(cells) == 0
  {
    if cells != [] {
      assert cells[0] in cells;
      NoTokensLeft(cells[1..], values);
    }
  }

  /** Putting the tokens back one after another, in any order, is putting them all back at once, and as
      many are counted as there are. */
  lemma {:induction false} RestoreExpands(tokens: seq<string>, todo: seq<string>, values: map<string, string>, cells: seq<Cell>)
    requires Separated(tokens, Expand(cells, values)) && TokensAmong(cells, tokens)
    requires forall t :: t in tokens ==> t in values && t != ""
    requires forall t :: t in todo ==> t in tokens
    requires forall c :: c in cells && c.Tok? ==> c.key in todo
    ensures RestoreWith(todo, values, Text(cells)) == Expand(cells, values)
    ensures RestoreCount(todo, values, Text(cells)) == Toks(cells)
    decreases |todo|
  {
    hide Separated, TokensAmong;
    if todo == [] {
      NoTokensLeft(cells, values);
    } else {
      var k := todo[0];
      var settled := Settle(cells, k, values[k]);
      ReplaceSettles(tokens, values, Expand(cells, values), 0, cells, k);
      SettleKeeps(tokens, values, cells, k);
      forall c | c in settled && c.Tok? ensures c.key in todo[1..] {
        assert c.key in todo && c != Tok(k);
      }
      RestoreExpands(tokens, todo[1..], values, settled);
    }
  }
}
