/** Sanitizing a text (its detected secrets replaced by tokens) and restoring it. */
module SecretTranslation {
  import opened Decimal
  import opened TokenFormat
  import opened TokenOrder
  import opened TokenTable
  import opened TokenCells
  import opened PlainTokens
  import opened TokenParse
  import opened Detection
  import opened Replacing
  import opened Sequences

  /** Whether a candidate holds a reference to a registered secret. */
  predicate HasReference(s: string) {
    |s| >= 2 && (s[..2] == "${" || HasReference(s[1..]))
  }

  predicate Skipped(t: Table, candidate: string) {
    candidate in t.byToken || HasReference(candidate)
  }

  /** How far a rewriting has come: what is written, the text consumed, the table, the replacements. */
  datatype Progress = Progress(built: string, last: nat, table: Table, n: nat)

  ghost predicate Spans(ms: seq<Match>, text: string) {
    Disjoint(ms) && forall i :: 0 <= i < |ms| ==> InBounds(ms[i], text)
  }

  lemma SpansPrefix(ms: seq<Match>, text: string)
    requires Spans(ms, text) && ms != []
    ensures var init := ms[..|ms| - 1];
            Spans(init, text) && InBounds(ms[|ms| - 1], text) && (init != [] ==> init[|init| - 1].end <= ms[|ms| - 1].start)
  {
  }

  /** The text rewritten through the given matches. */
  ghost function Rewritten(text: string, ms: seq<Match>, mode: Mode, t: Table): (p: Progress)
    requires Spans(ms, text)
    ensures p.last <= |text| && p.last <= if ms == [] then 0 else ms[|ms| - 1].end
  {
    if ms == [] then Progress("", 0, t, 0)
    else
      SpansPrefix(ms, text);
      var m, p := ms[|ms| - 1], Rewritten(text, ms[..|ms| - 1], mode, t);
      var candidate := text[m.start..m.end];
      if Skipped(p.table, candidate) then p
      else Progress(p.built + text[p.last..m.start] + TokenOf(p.table, candidate, Mint(mode, m.shape)), m.end,
                    Looked(p.table, candidate, m.shape.detector, Mint(mode, m.shape)), p.n + 1)
  }

  ghost function Sanitized(text: string, ms: seq<Match>, mode: Mode, t: Table): string
    requires Spans(ms, text)
  {
    var p := Rewritten(text, ms, mode, t);
    p.built + text[p.last..]
  }

  // The rewriting seen as characters and token cells.

  ghost function Cells(text: string, ms: seq<Match>, mode: Mode, t: Table): seq<Cell>
    requires Spans(ms, text)
  {
    if ms == [] then []
    else
      SpansPrefix(ms, text);
      var m, p := ms[|ms| - 1], Rewritten(text, ms[..|ms| - 1], mode, t);
      var candidate := text[m.start..m.end];
      var before := Cells(text, ms[..|ms| - 1], mode, t);
      if Skipped(p.table, candidate) then before
      else before + Plain(text[p.last..m.start]) + [Tok(TokenOf(p.table, candidate, Mint(mode, m.shape)))]
  }

  /** Asking for a token keeps the table two-way and everything in it in place, and files the pair. */
  lemma LookupStep(t: Table, candidate: string, shape: Shape, mode: Mode)
    requires TwoWay(t)
    ensures var t' := Looked(t, candidate, shape.detector, Mint(mode, shape));
            var k := TokenOf(t, candidate, Mint(mode, shape));
            TwoWay(t') && Keeps(t, t') && k in t'.byToken && t'.byToken[k] == candidate
  {
    hide SeqOf, Synthetic;
    SeqOfSynthetic(mode, shape, t.minted + 1);
    LookedKeepsTwoWay(t, candidate, shape.detector, Mint(mode, shape));
    LookedKeeps(t, candidate, shape.detector, Mint(mode, shape));
  }

  lemma {:induction false} RewrittenKeepsTable(text: string, ms: seq<Match>, mode: Mode, t: Table)
    requires Spans(ms, text) && TwoWay(t)
    ensures var p := Rewritten(text, ms, mode, t); TwoWay(p.table) && Keeps(t, p.table)
  {
    hide TwoWay, Keeps, Looked, Skipped;
    if ms == [] {
      KeepsItself(t);
    } else {
      SpansPrefix(ms, text);
      RewrittenKeepsTable(text, ms[..|ms| - 1], mode, t);
      var m, p := ms[|ms| - 1], Rewritten(text, ms[..|ms| - 1], mode, t);
      LookupStep(p.table, text[m.start..m.end], m.shape, mode);
      KeepsTransitive(t, p.table, Looked(p.table, text[m.start..m.end], m.shape.detector, Mint(mode, m.shape)));
    }
  }

  lemma KeepsItself(t: Table)
    ensures Keeps(t, t)
  {
  }

  /** The cells show what was written, and under any later table stand for what was read. */
  lemma {:induction false} CellsAgree(text: string, ms: seq<Match>, mode: Mode, t: Table, later: Table)
    requires Spans(ms, text) && TwoWay(t) && Keeps(Rewritten(text, ms, mode, t).table, later)
    ensures var p, cells := Rewritten(text, ms, mode, t), Cells(text, ms, mode, t);
            && Text(cells) == p.built && Expand(cells, later.byToken) == text[..p.last] && Toks(cells) == p.n
            && forall c :: c in cells && c.Tok? ==> c.key in later.byToken
  {
    hide TwoWay, Keeps, Looked, Skipped, TokenOf, Text, Expand, Disjoint;
    if ms == [] {
      NoText(later.byToken);
      return;
    }
    SpansPrefix(ms, text);
    var init, m := ms[..|ms| - 1], ms[|ms| - 1];
    var p, before := Rewritten(text, init, mode, t), Cells(text, init, mode, t);
    var candidate := text[m.start..m.end];
    RewrittenKeepsTable(text, init, mode, t);
    if Skipped(p.table, candidate) {
      CellsAgree(text, init, mode, t, later);
      return;
    }
    LookupStep(p.table, candidate, m.shape, mode);
    var next := Looked(p.table, candidate, m.shape.detector, Mint(mode, m.shape));
    KeepsTransitive(p.table, next, later);
    CellsAgree(text, init, mode, t, later);
    var k := TokenOf(p.table, candidate, Mint(mode, m.shape));
    KeptToken(next, later, k);
    OneMoreCell(text, before, p.built, p.last, m.start, m.end, k, later.byToken);
  }

  lemma KeptToken(t: Table, later: Table, k: string)
    requires Keeps(t, later) && k in t.byToken
    ensures k in later.byToken && later.byToken[k] == t.byToken[k]
  {
  }

  lemma OneMoreCell(text: string, before: seq<Cell>, built: string, last: nat, start: nat, end: nat, k: string, values: map<string, string>)
    requires last <= start <= end <= |text| && Text(before) == built && Expand(before, values) == text[..last]
    requires k in values && values[k] == text[start..end]
    ensures var cells := before + Plain(text[last..start]) + [Tok(k)];
            Text(cells) == built + text[last..start] + k && Expand(cells, values) == text[..end] && Toks(cells) == Toks(before) + 1
    ensures forall c :: c in before + Plain(text[last..start]) + [Tok(k)] && c.Tok? ==> c in before || c.key == k
  {
    var gap := text[last..start];
    ThenPlain(before, gap, values);
    ThenToken(before + Plain(gap), k, values);
    ToksConcat(before, Plain(gap));
    PlainHasNoToks(gap);
    SlicesMeet(text, last, start, end);
  }

  lemma SlicesMeet(text: string, last: nat, start: nat, end: nat)
    requires last <= start <= end <= |text|
    ensures text[..last] + text[last..start] + text[start..end] == text[..end]
  {
  }

  lemma ThenPlain(cells: seq<Cell>, v: string, values: map<string, string>)
    ensures Text(cells + Plain(v)) == Text(cells) + v && Expand(cells + Plain(v), values) == Expand(cells, values) + v
  {
    TextConcat(cells, Plain(v));
    ExpandConcat(cells, Plain(v), values);
    PlainBoth(v, values);
  }

  lemma ThenToken(cells: seq<Cell>, k: string, values: map<string, string>)
    requires k in values
    ensures Text(cells + [Tok(k)]) == Text(cells) + k && Expand(cells + [Tok(k)], values) == Expand(cells, values) + values[k]
    ensures Toks(cells + [Tok(k)]) == Toks(cells) + 1
  {
    TextConcat(cells, [Tok(k)]);
    ExpandConcat(cells, [Tok(k)], values);
    ToksConcat(cells, [Tok(k)]);
  }

  lemma TokensNotEmpty(t: Table)
    requires Numbered(t)
    ensures forall k :: k in t.byToken ==> k != ""
  {
  }

  lemma OnlyTokensOf(cells: seq<Cell>, rest: string, tokens: seq<string>)
    requires forall c :: c in cells && c.Tok? ==> c.key in tokens
    ensures forall c :: c in cells + Plain(rest) && c.Tok? ==> c.key in tokens
    ensures TokensAmong(cells + Plain(rest), tokens)
  {
    var all := cells + Plain(rest);
    forall c | c in all && c.Tok? ensures c.key in tokens {
      assert c in cells || c in Plain(rest);
    }
    forall n | 0 <= n < |all| && all[n].Tok? ensures all[n].key in tokens {
      assert all[n] in all;
    }
  }

  /** Restoring undoes sanitizing, at any later time: putting all tokens back, in any order,
      gives the original text whenever they can be told apart in it, and counts as many as were put in. */
  lemma RestoreUndoesSanitize(text: string, ms: seq<Match>, mode: Mode, t: Table, later: Table, tokens: seq<string>)
    requires Spans(ms, text) && TwoWay(t)
    requires Keeps(Rewritten(text, ms, mode, t).table, later) && TwoWay(later)
    requires forall k :: k in tokens <==> k in later.byToken
    requires Separated(tokens, text)
    ensures forall k :: k in tokens ==> k in later.byToken && k != ""
    ensures RestoreWith(tokens, later.byToken, Sanitized(text, ms, mode, t)) == text
    ensures RestoreCount(tokens, later.byToken, Sanitized(text, ms, mode, t)) == Rewritten(text, ms, mode, t).n
  {
    hide Keeps, Rewritten, Cells, Separated, Text, Expand, RestoreWith, Numbered, ValuesComeBack, TokensGoOut;
    TokensNotEmpty(later);
    var p, cells := Rewritten(text, ms, mode, t), Cells(text, ms, mode, t);
    CellsAgree(text, ms, mode, t, later);
    var rest := text[p.last..];
    ThenPlain(cells, rest, later.byToken);
    ToksConcat(cells, Plain(rest));
    PlainHasNoToks(rest);
    var all := cells + Plain(rest);
    TakeDrop(text, p.last);
    OnlyTokensOf(cells, rest, tokens);
    RestoreExpands(tokens, tokens, later.byToken, all);
  }

  /** A table whose tokens all have the plain form of one width. */
  ghost predicate AllPlain(t: Table, width: nat) {
    forall k :: k in t.byToken ==> PlainForm(k, width)
  }

  lemma LookedStaysPlain(t: Table, value: string, mode: Mode, shape: Shape)
    requires AllPlain(t, Width(mode)) && t.minted + 1 < Limit(mode)
    requires mode == Semantic ==> shape.template == NoTemplate && NoDigit(shape.prefix) && NoDigit(shape.detector)
    ensures AllPlain(Looked(t, value, shape.detector, Mint(mode, shape)), Width(mode))
  {
    SyntheticIsPlain(mode, shape, t.minted + 1);
  }

  /** Every table built up in one mode by detectors without templates or digits in their names has
      plain tokens only, for as long as the numbers fit the format. */
  lemma {:induction false} RunsStayPlain(calls: seq<Call>, mode: Mode)
    requires forall i :: 0 <= i < |calls| ==> calls[i].mode == mode
    requires forall i :: 0 <= i < |calls| && mode == Semantic ==>
               calls[i].shape.template == NoTemplate && NoDigit(calls[i].shape.prefix) && NoDigit(calls[i].shape.detector)
    requires |calls| < Limit(mode)
    ensures AllPlain(After(EMPTY, calls), Width(mode)) && After(EMPTY, calls).minted <= |calls|
  {
    hide AllPlain, NoDigit;
    if calls == [] {
      NothingIsPlain(Width(mode));
    } else {
      RunsStayPlain(calls[..|calls| - 1], mode);
      var c := calls[|calls| - 1];
      LookedStaysPlain(After(EMPTY, calls[..|calls| - 1]), c.value, mode, c.shape);
    }
  }

  lemma NothingIsPlain(width: nat)
    ensures AllPlain(EMPTY, width)
  {
  }

  /** With plain tokens the round trip needs nothing but that no token is already in the text. */
  lemma PlainRoundTrip(text: string, ms: seq<Match>, mode: Mode, t: Table, later: Table, tokens: seq<string>, width: nat)
    requires Spans(ms, text) && TwoWay(t)
    requires Keeps(Rewritten(text, ms, mode, t).table, later) && TwoWay(later)
    requires forall k :: k in tokens <==> k in later.byToken
    requires AllPlain(later, width) && NoneIn(tokens, text)
    ensures forall k :: k in tokens ==> k in later.byToken && k != ""
    ensures RestoreWith(tokens, later.byToken, Sanitized(text, ms, mode, t)) == text
  {
    PlainTokensSeparate(later, tokens, width, text);
    RestoreUndoesSanitize(text, ms, mode, t, later, tokens);
  }

  /** With values unlike their plain tokens, the round trip gives the text back exactly when no token
      was in it: a restored text never shows a token. */
  lemma InertRoundTripIff(text: string, ms: seq<Match>, mode: Mode, t: Table, later: Table, tokens: seq<string>, width: nat)
    requires Spans(ms, text) && TwoWay(t)
    requires Keeps(Rewritten(text, ms, mode, t).table, later) && TwoWay(later)
    requires forall k :: k in tokens <==> k in later.byToken
    requires AllPlain(later, width) && Inert(tokens, later.byToken)
    ensures forall k :: k in tokens ==> k in later.byToken && k != ""
    ensures RestoreWith(tokens, later.byToken, Sanitized(text, ms, mode, t)) == text <==> NoneIn(tokens, text)
  {
    InertRestore(later, tokens, width, Sanitized(text, ms, mode, t));
    if NoneIn(tokens, text) {
      PlainRoundTrip(text, ms, mode, t, later, tokens, width);
    }
  }

  // A table whose values hold tokens: the text comes back though tokens were in it.

  const FIRST_TOKEN := "A_SNAT_000001"
  const SECOND_TOKEN := "B_SNAT_000002"
  const SWAP := [Call("A_SNAT_000001B", Semantic, Shape("a", "", NoTemplate)), Call("_SNAT_000002", Semantic, Shape("b", "", NoTemplate))]

  /** Without the condition on values the absence of tokens is not necessary. */
  lemma TokensCanComeBack()
    ensures var t := After(EMPTY, SWAP);
            var text := FIRST_TOKEN + SECOND_TOKEN;
            && TwoWay(t) && t.byToken == map[FIRST_TOKEN := "A_SNAT_000001B", SECOND_TOKEN := "_SNAT_000002"]
            && !NoneIn([FIRST_TOKEN, SECOND_TOKEN], text)
            && RestoreWith([FIRST_TOKEN, SECOND_TOKEN], t.byToken, text) == text
  {
    hide TwoWay, RestoreWith, ReplaceAll, NoneIn;
    EmptyIsTwoWay();
    EveryRunIsTwoWay(EMPTY, SWAP);
    SwapTable();
    SwapRestored();
    SwapHasToken();
  }

  lemma EmptyIsTwoWay()
    ensures TwoWay(EMPTY)
  {
  }

  lemma SwapHasToken()
    ensures !NoneIn([FIRST_TOKEN, SECOND_TOKEN], FIRST_TOKEN + SECOND_TOKEN)
  {
    assert At(FIRST_TOKEN, FIRST_TOKEN + SECOND_TOKEN, 0);
    assert FIRST_TOKEN in [FIRST_TOKEN, SECOND_TOKEN];
  }

  lemma SmallNumbers()
    ensures Padded(6, 1) == "000001" && Padded(6, 2) == "000002"
  {
    assert Digits(1) == "1" && Digits(2) == "2";
    assert Zeros(5) == "00000";
  }

  lemma SwapTable()
    ensures After(EMPTY, SWAP).byToken == map[FIRST_TOKEN := "A_SNAT_000001B", SECOND_TOKEN := "_SNAT_000002"]
  {
    SmallNumbers();
    var one := Looked(EMPTY, SWAP[0].value, "a", Mint(Semantic, SWAP[0].shape));
    assert UpperName("a") == "A" && UpperName("b") == "B";
    assert "A" + "_SNAT_" + "000001" == FIRST_TOKEN && "B" + "_SNAT_" + "000002" == SECOND_TOKEN;
    assert SWAP[..1] == [SWAP[0]] && [SWAP[0]][..0] == [];
    assert After(EMPTY, []) == EMPTY;
    assert After(EMPTY, [SWAP[0]]) == one;
    assert SWAP[0].value != SWAP[1].value;
    assert After(EMPTY, SWAP) == Looked(one, SWAP[1].value, "b", Mint(Semantic, SWAP[1].shape));
  }

  lemma SwapRestored()
    ensures var values := map[FIRST_TOKEN := "A_SNAT_000001B", SECOND_TOKEN := "_SNAT_000002"];
            RestoreWith([FIRST_TOKEN, SECOND_TOKEN], values, FIRST_TOKEN + SECOND_TOKEN) == FIRST_TOKEN + SECOND_TOKEN
  {
    var values := map[FIRST_TOKEN := "A_SNAT_000001B", SECOND_TOKEN := "_SNAT_000002"];
    var text := FIRST_TOKEN + SECOND_TOKEN;
    var a, b := FIRST_TOKEN, SECOND_TOKEN;
    var mid := "A_SNAT_000001B" + b;
    FirstStep();
    SecondStep();
    hide ReplaceAll;
    assert a != b && [a, b][1..] == [b] && [b][1..] == [];
    assert RestoreWith([], values, text) == text;
    assert RestoreWith([b], values, mid) == RestoreWith([], values, ReplaceAll(mid, b, "_SNAT_000002"));
    assert RestoreWith([a, b], values, text) == RestoreWith([b], values, ReplaceAll(text, a, "A_SNAT_000001B"));
  }

  lemma FirstStep()
    ensures ReplaceAll(FIRST_TOKEN + SECOND_TOKEN, FIRST_TOKEN, "A_SNAT_000001B") == "A_SNAT_000001B" + SECOND_TOKEN
  {
    var a, b := FIRST_TOKEN, SECOND_TOKEN;
    ConcatParts(a, b);
    assert !(a <= b) by { assert b[0] != a[0]; }
    assert |b| == |a| && b[1..] != [];
    assert ReplaceAll(b, a, "A_SNAT_000001B") == [b[0]] + ReplaceAll(b[1..], a, "A_SNAT_000001B") == [b[0]] + b[1..] == b;
  }

  lemma SecondStep()
    ensures ReplaceAll("A_SNAT_000001B" + SECOND_TOKEN, SECOND_TOKEN, "_SNAT_000002") == FIRST_TOKEN + SECOND_TOKEN
  {
    var b, v := SECOND_TOKEN, "A_SNAT_000001B";
    var s := v + b;
    forall i | 0 <= i < 14 ensures !(b <= s[i..]) {
      assert s[i] == v[i];
      assert s[i..][0] == s[i];
      if i == 13 {
        assert s[13..][1] == s[14] == b[0];
      }
    }
    SkipTo(s, b, "_SNAT_000002", 14);
    assert s[..14] == v && s[14..] == b;
    assert ReplaceAll(b, b, "_SNAT_000002") == "_SNAT_000002" + ReplaceAll(b[13..], b, "_SNAT_000002") == "_SNAT_000002";
    assert v + "_SNAT_000002" == FIRST_TOKEN + b;
  }

  // Private mode past its three digits.

  const HUNDREDTH := "SECRET_TOKEN_100"
  const THOUSANDTH := "SECRET_TOKEN_1000"
  const ANY := Shape("", "", NoTemplate)

  /** A thousand secrets, all different: "a" the hundredth, "b" the last. */
  function NthSecret(n: nat): string {
    if n == 100 then "a" else if n == 1000 then "b" else "x" + Digits(n)
  }

  function Secrets(n: nat): seq<Call> {
    seq(n, i requires 0 <= i < n => Call(NthSecret(i + 1), Private, ANY))
  }

  lemma SecretsDiffer(m: nat, n: nat)
    requires NthSecret(m) == NthSecret(n)
    ensures m == n
  {
    DigitsInjective(m, n);
    if NthSecret(m)[0] == 'x' {
      assert NthSecret(m)[1..] == Digits(m) && NthSecret(n)[1..] == Digits(n);
    }
  }

  /** The table of the first n secrets: each has the token of its turn, and there is nothing else. */
  ghost predicate InTurn(t: Table, n: nat) {
    && t.minted == n
    && (forall v :: v in t.byValue ==> exists i :: 1 <= i <= n && v == NthSecret(i))
    && (forall i :: 1 <= i <= n ==> NthSecret(i) in t.byValue && t.byValue[NthSecret(i)].token == Synthetic(Private, ANY, i))
  }

  lemma SecretIsNew(t: Table, n: nat)
    requires n > 0 && InTurn(t, n - 1)
    ensures NthSecret(n) !in t.byValue
  {
    hide NthSecret, Synthetic;
    if NthSecret(n) in t.byValue {
      var i :| 1 <= i <= n - 1 && NthSecret(n) == NthSecret(i);
      SecretsDiffer(n, i);
    }
  }

  lemma NextInTurn(t: Table, n: nat)
    requires n > 0 && InTurn(t, n - 1) && NthSecret(n) !in t.byValue
    ensures InTurn(Looked(t, NthSecret(n), "", Mint(Private, ANY)), n)
  {
    hide NthSecret, Synthetic;
    var u := Looked(t, NthSecret(n), "", Mint(Private, ANY));
    forall v | v in u.byValue ensures exists i :: 1 <= i <= n && v == NthSecret(i) {
      if v != NthSecret(n) {
        var i :| 1 <= i <= n - 1 && v == NthSecret(i);
      }
    }
    forall i | 1 <= i <= n ensures NthSecret(i) in u.byValue && u.byValue[NthSecret(i)].token == Synthetic(Private, ANY, i) {
      if i < n {
        assert NthSecret(i) in t.byValue;
      }
    }
  }

  /** Secrets asked for in turn get the numbers in turn. */
  lemma {:induction false} NumberedInTurn(n: nat)
    ensures TwoWay(After(EMPTY, Secrets(n))) && InTurn(After(EMPTY, Secrets(n)), n)
  {
    hide TwoWay, Synthetic, NthSecret, InTurn;
    EmptyIsTwoWay();
    EveryRunIsTwoWay(EMPTY, Secrets(n));
    if n == 0 {
      NobodysTurn();
    } else {
      NumberedInTurn(n - 1);
      var before := After(EMPTY, Secrets(n - 1));
      assert Secrets(n)[..n - 1] == Secrets(n - 1);
      SecretIsNew(before, n);
      NextInTurn(before, n);
      assert After(EMPTY, Secrets(n)) == Looked(before, NthSecret(n), "", Mint(Private, ANY));
    }
  }

  lemma NobodysTurn()
    ensures InTurn(EMPTY, 0)
  {
  }

  lemma PrivateNumbers()
    ensures Synthetic(Private, ANY, 100) == HUNDREDTH && Synthetic(Private, ANY, 1000) == THOUSANDTH
  {
    assert Digits(1) == "1";
    assert Digits(10) == "10";
    assert Digits(100) == "100";
    assert Digits(1000) == "1000";
    assert Zeros(0) == "";
    assert Padded(3, 100) == "100" && Padded(3, 1000) == "1000";
    assert "SECRET_TOKEN_" + "100" == HUNDREDTH && "SECRET_TOKEN_" + "1000" == THOUSANDTH;
  }

  lemma PrivateLength(n: nat)
    requires 1 <= n < 1000
    ensures |Synthetic(Private, ANY, n)| == 16
  {
    assert Power10(3) == 1000;
    DigitsFit(n, 3, 1000);
  }

  /** Every token of the thousand is sixteen long but the last, which is seventeen. */
  lemma ThousandTokens(k: string)
    requires k in After(EMPTY, Secrets(1000)).byToken
    ensures |k| == 16 || k == THOUSANDTH
  {
    hide Synthetic, NthSecret, Numbered;
    NumberedInTurn(1000);
    var t := After(EMPTY, Secrets(1000));
    var v := t.byToken[k];
    assert v in t.byValue && t.byValue[v].token == k;
    var i :| 1 <= i <= 1000 && v == NthSecret(i);
    if i < 1000 {
      PrivateLength(i);
    } else {
      PrivateNumbers();
    }
  }

  /** In private mode the thousandth token extends the hundredth. After a thousand different secrets,
      none of whose tokens is in the text, sanitizing "a" with a zero behind it and restoring the
      result gives back another secret. */
  lemma WidePrivateTokensCollide(tokens: seq<string>)
    requires Orders(tokens, After(EMPTY, Secrets(1000)).byToken.Keys)
    ensures var t := After(EMPTY, Secrets(1000));
            var ms := [Match(0, 1, ANY, 1.0)];
            && TwoWay(t) && Spans(ms, "a0") && NoneIn(tokens, "a0")
            && (forall k :: k in tokens ==> k in t.byToken && k != "")
            && RestoreWith(tokens, t.byToken, Sanitized("a0", ms, Private, t)) == "b"
  {
    hide Synthetic, Orders, Rewritten, RestoreWith, NoneIn, Secrets, After, NthSecret;
    var t := After(EMPTY, Secrets(1000));
    TheTwo();
    WideSanitized(t);
    forall k | k in tokens ensures k in t.byToken && |k| >= 16 && (|k| == 16 || k == THOUSANDTH) {
      OrderedMember(tokens, t.byToken.Keys, k);
      ThousandTokens(k);
    }
    LongNotIn(tokens, "a0");
    ThousandthFirst(tokens, t.byToken.Keys);
    WideRestored(tokens, t.byToken);
  }

  lemma OrderedMember(tokens: seq<string>, members: set<string>, k: string)
    requires Orders(tokens, members)
    ensures k in tokens <==> k in members
  {
  }

  lemma TheTwo()
    ensures var t := After(EMPTY, Secrets(1000));
            && TwoWay(t) && "a" in t.byValue && t.byValue["a"].token == HUNDREDTH
            && HUNDREDTH in t.byToken && THOUSANDTH in t.byToken && t.byToken[THOUSANDTH] == "b" && "a" !in t.byToken
  {
    hide Synthetic;
    NumberedInTurn(1000);
    PrivateNumbers();
    assert NthSecret(100) == "a" && NthSecret(1000) == "b";
    var t := After(EMPTY, Secrets(1000));
    hide After, Secrets;
    assert t.byValue["b"].token == THOUSANDTH;
    if "a" in t.byToken {
      ThousandTokens("a");
    }
  }

  lemma WideSanitized(t: Table)
    requires "a" in t.byValue && t.byValue["a"].token == HUNDREDTH && "a" !in t.byToken
    ensures var ms := [Match(0, 1, ANY, 1.0)];
            Spans(ms, "a0") && Sanitized("a0", ms, Private, t) == THOUSANDTH
  {
    var m := Match(0, 1, ANY, 1.0);
    assert [m][..0] == [];
    assert Rewritten("a0", [], Private, t) == Progress("", 0, t, 0);
    assert "a0"[0..1] == "a" && "a0"[1..] == "0" && "a0"[0..0] == "";
    assert !HasReference("a");
    assert TokenOf(t, "a", Mint(Private, m.shape)) == HUNDREDTH;
    assert "" + "" + HUNDREDTH + "0" == THOUSANDTH;
  }

  lemma LongNotIn(tokens: seq<string>, s: string)
    requires |s| < 16 && forall k :: k in tokens ==> |k| >= 16
    ensures NoneIn(tokens, s)
  {
  }

  /** The longest token comes first. */
  lemma ThousandthFirst(tokens: seq<string>, members: set<string>)
    requires Orders(tokens, members) && THOUSANDTH in members
    requires forall k :: k in tokens ==> |k| == 16 || k == THOUSANDTH
    ensures tokens != [] && tokens[0] == THOUSANDTH
  {
    var i :| 0 <= i < |tokens| && tokens[i] == THOUSANDTH;
    if i > 0 {
      assert tokens[0] in tokens && Before(tokens[0], tokens[i]);
      LexIrreflexive(THOUSANDTH);
    }
  }

  lemma WideRestored(tokens: seq<string>, values: map<string, string>)
    requires tokens != [] && tokens[0] == THOUSANDTH && (forall k :: k in tokens ==> k in values && |k| >= 16)
    requires values[THOUSANDTH] == "b"
    ensures forall k :: k in tokens ==> k != ""
    ensures RestoreWith(tokens, values, THOUSANDTH) == "b"
  {
    assert ReplaceAll(THOUSANDTH, THOUSANDTH, "b") == "b" + ReplaceAll(THOUSANDTH[17..], THOUSANDTH, "b") == "b";
    ShortStays(tokens[1..], values, "b");
  }

  lemma {:induction false} ShortStays(tokens: seq<string>, values: map<string, string>, s: string)
    requires forall k :: k in tokens ==> k in values && k != "" && |s| < |k|
    ensures RestoreWith(tokens, values, s) == s
  {
    if tokens != [] {
      assert tokens[0] in tokens;
      assert ReplaceAll(s, tokens[0], values[tokens[0]]) == s;
      ShortStays(tokens[1..], values, s);
    }
  }

  /** Replaces the detected secrets of a text by tokens, minting those it needs. Once it has, putting
      the tokens back gives the text, unless the tokens cannot be told apart in it. */
  method SanitizeDetected(text: string, detectors: seq<Detector>, table: MappingTable, mode: Mode)
    returns (out: string, n: nat, ghost ms: seq<Match>)
    requires table.Valid() && TwoWay(table.View())
    modifies table, table.valueToRec.Values
    ensures table.Valid() && TwoWay(table.View()) && Keeps(old(table.View()), table.View())
    ensures Result(detectors, text, ms) && Spans(ms, text)
    ensures table.View() == Rewritten(text, ms, mode, old(table.View())).table
    ensures out == Sanitized(text, ms, mode, old(table.View())) && n == Rewritten(text, ms, mode, old(table.View())).n
    ensures forall tokens | (forall k :: k in tokens <==> k in table.View().byToken) && Separated(tokens, text) ::
              (forall k :: k in tokens ==> k in table.View().byToken && k != "")
              && RestoreWith(tokens, table.View().byToken, out) == text
  {
    hide MappingTable.View, MappingTable.Valid, TwoWay, Keeps, Separated, Looked, TokenOf, Sound, Complete;
    ghost var t := table.View();
    var matches := DetectAll(detectors, text);
    ms := matches;
    SoundInBounds(detectors, text, ms);
    out, n := Rewrite(text, matches, table, mode);
    RewrittenKeepsTable(text, ms, mode, t);
    KeepsItself(table.View());
    forall tokens | (forall k :: k in tokens <==> k in table.View().byToken) && Separated(tokens, text)
      ensures (forall k :: k in tokens ==> k in table.View().byToken && k != "")
           && RestoreWith(tokens, table.View().byToken, out) == text
    {
      RestoreUndoesSanitize(text, ms, mode, t, table.View(), tokens);
    }
  }

  method Rewrite(text: string, ms: seq<Match>, table: MappingTable, mode: Mode) returns (out: string, n: nat)
    requires table.Valid() && Spans(ms, text)
    modifies table, table.valueToRec.Values
    ensures table.Valid()
    ensures table.View() == Rewritten(text, ms, mode, old(table.View())).table
    ensures out == Sanitized(text, ms, mode, old(table.View())) && n == Rewritten(text, ms, mode, old(table.View())).n
  {
    hide MappingTable.View, MappingTable.Valid, Looked, TokenOf, Disjoint;
    ghost var t := table.View();
    out, n := "", 0;
    var last: nat := 0;
    NoSpans(text);
    assert ms[..0] == [];
    for i := 0 to |ms|
      invariant table.Valid() && Spans(ms[..i], text)
      invariant forall v :: v in table.valueToRec ==>
                  (v in old(table.valueToRec) && table.valueToRec[v] == old(table.valueToRec)[v]) || fresh(table.valueToRec[v])
      invariant Progress(out, last, table.View(), n) == Rewritten(text, ms[..i], mode, t)
    {
      SpansUpTo(ms, text, i);
      assert ms[..i + 1][..i] == ms[..i];
      var m := ms[i];
      var candidate := text[m.start..m.end];
      var mine := table.IsToken(candidate);
      if mine || HasReference(candidate) {
        continue;
      }
      var token := table.TokenFor(candidate, m.shape.detector, Mint(mode, m.shape));
      out := out + text[last..m.start] + token;
      last := m.end;
      n := n + 1;
    }
    assert ms[..|ms|] == ms;
    out := out + text[last..];
  }

  lemma NoSpans(text: string)
    ensures Spans([], text)
  {
  }

  lemma SpansUpTo(ms: seq<Match>, text: string, i: nat)
    requires Spans(ms, text) && i < |ms|
    ensures Spans(ms[..i + 1], text) && Spans(ms[..i], text) && InBounds(ms[i], text)
    ensures i > 0 ==> ms[i - 1].end <= ms[i].start
  {
  }
}
