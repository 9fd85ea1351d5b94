/** The two-way table between secret values and the tokens that stand for them. */
module TokenTable {
  import opened Basics
  import opened TokenFormat
  import opened TokenOrder
  import opened Replacing

  datatype Entry = Entry(token: string, detector: string, hits: nat)

  /** The table as a value: each known value's entry, each token's value, the tokens minted so
      far, the replacements made so far and the longest token's length. */
  datatype Table = Table(byValue: map<string, Entry>, byToken: map<string, string>, minted: nat, restored: nat, longest: nat)

  const EMPTY := Table(map[], map[], 0, 0, 0)

  function TokenOf(t: Table, value: string, mint: nat -> string): string {
    if value in t.byValue then t.byValue[value].token else mint(t.minted + 1)
  }

  /** The table after a token was asked for. */
  function Looked(t: Table, value: string, detector: string, mint: nat -> string): Table {
    if value in t.byValue then
      var e := t.byValue[value];
      t.(byValue := t.byValue[value := e.(hits := e.hits + 1)])
    else
      var token := mint(t.minted + 1);
      t.(byValue := t.byValue[value := Entry(token, detector, 1)], byToken := t.byToken[token := value],
         minted := t.minted + 1, longest := if |token| > t.longest then |token| else t.longest)
  }

  ghost predicate ValuesComeBack(t: Table) {
    forall v :: v in t.byValue ==> t.byValue[v].token in t.byToken && t.byToken[t.byValue[v].token] == v
  }

  ghost predicate TokensGoOut(t: Table) {
    forall k :: k in t.byToken ==> t.byToken[k] in t.byValue && t.byValue[t.byToken[k]].token == k
  }

  ghost predicate Numbered(t: Table) {
    && (forall k :: k in t.byToken ==> k != "" && 1 <= SeqOf(k) <= t.minted && |k| <= t.longest)
    && (forall j, k :: j in t.byToken && k in t.byToken && SeqOf(j) == SeqOf(k) ==> j == k)
  }

  /** The two maps undo each other, and every token carries a number of its own, already minted. */
  ghost predicate TwoWay(t: Table) {
    ValuesComeBack(t) && TokensGoOut(t) && Numbered(t)
  }

  ghost predicate TokenFresh(t: Table, mint: nat -> string) {
    mint(t.minted + 1) !in t.byToken
  }

  lemma LookedComesBack(t: Table, value: string, detector: string, mint: nat -> string)
    requires ValuesComeBack(t) && (value !in t.byValue ==> TokenFresh(t, mint))
    ensures ValuesComeBack(Looked(t, value, detector, mint))
  {
  }

  lemma LookedGoesOut(t: Table, value: string, detector: string, mint: nat -> string)
    requires TokensGoOut(t)
    ensures TokensGoOut(Looked(t, value, detector, mint))
  {
  }

  lemma LookedNumbered(t: Table, value: string, detector: string, mint: nat -> string)
    requires Numbered(t) && mint(t.minted + 1) != "" && SeqOf(mint(t.minted + 1)) == t.minted + 1
    ensures Numbered(Looked(t, value, detector, mint)) && TokenFresh(t, mint)
  {
    hide SeqOf;
  }

  lemma LookedKeepsTwoWay(t: Table, value: string, detector: string, mint: nat -> string)
    requires TwoWay(t) && mint(t.minted + 1) != "" && SeqOf(mint(t.minted + 1)) == t.minted + 1
    ensures TwoWay(Looked(t, value, detector, mint)) && TokenFresh(t, mint)
  {
    hide ValuesComeBack, TokensGoOut, Numbered, TokenFresh, Looked, SeqOf;
    LookedNumbered(t, value, detector, mint);
    LookedComesBack(t, value, detector, mint);
    LookedGoesOut(t, value, detector, mint);
  }

  /** A mint that repeats a live token breaks the table: the older value can no longer come back. */
  lemma RepeatedTokenLosesValue(t: Table, value: string, detector: string, mint: nat -> string)
    requires TwoWay(t) && value !in t.byValue
    ensures ValuesComeBack(Looked(t, value, detector, mint)) <==> TokenFresh(t, mint)
  {
    var token := mint(t.minted + 1);
    if token in t.byToken {
      var v := t.byToken[token];
      assert v in Looked(t, value, detector, mint).byValue && v != value;
    } else {
      LookedComesBack(t, value, detector, mint);
    }
  }

  // Runs of requests, with any detector and any change of mode between them.

  datatype Call = Call(value: string, mode: Mode, shape: Shape)

  function Mint(mode: Mode, shape: Shape): nat -> string {
    (n: nat) => Synthetic(mode, shape, n)
  }

  function After(t: Table, calls: seq<Call>): Table {
    if calls == [] then t
    else
      var c := calls[|calls| - 1];
      Looked(After(t, calls[..|calls| - 1]), c.value, c.shape.detector, Mint(c.mode, c.shape))
  }

  lemma {:induction false} EveryRunIsTwoWay(t: Table, calls: seq<Call>)
    requires TwoWay(t)
    ensures TwoWay(After(t, calls))
  {
    if calls != [] {
      var before := After(t, calls[..|calls| - 1]);
      var c := calls[|calls| - 1];
      EveryRunIsTwoWay(t, calls[..|calls| - 1]);
      SeqOfSynthetic(c.mode, c.shape, before.minted + 1);
      LookedKeepsTwoWay(before, c.value, c.shape.detector, Mint(c.mode, c.shape));
    }
  }

  /** Every value keeps its token, and every token its value. */
  ghost predicate Keeps(t: Table, t': Table) {
    && (forall v :: v in t.byValue ==> v in t'.byValue && t'.byValue[v].token == t.byValue[v].token)
    && (forall k :: k in t.byToken ==> k in t'.byToken && t'.byToken[k] == t.byToken[k])
  }

  lemma LookedKeeps(t: Table, value: string, detector: string, mint: nat -> string)
    requires TokenFresh(t, mint)
    ensures Keeps(t, Looked(t, value, detector, mint))
  {
  }

  lemma KeepsTransitive(t: Table, u: Table, w: Table)
    requires Keeps(t, u) && Keeps(u, w)
    ensures Keeps(t, w)
  {
  }

  /** No request takes a value's token away or gives a token to another value. */
  lemma {:induction false} TokensAreForever(t: Table, calls: seq<Call>)
    requires TwoWay(t)
    ensures Keeps(t, After(t, calls))
  {
    if calls != [] {
      var before := After(t, calls[..|calls| - 1]);
      var c := calls[|calls| - 1];
      TokensAreForever(t, calls[..|calls| - 1]);
      EveryRunIsTwoWay(t, calls[..|calls| - 1]);
      SeqOfSynthetic(c.mode, c.shape, before.minted + 1);
      hide Keeps, TwoWay, TokenFresh, Looked;
      LookedKeepsTwoWay(before, c.value, c.shape.detector, Mint(c.mode, c.shape));
      LookedKeeps(before, c.value, c.shape.detector, Mint(c.mode, c.shape));
      KeepsTransitive(t, before, After(t, calls));
    }
  }

  // Restoring.

  /** The tokens are put back one after another, each throughout the text; an empty one is nowhere. */
  function RestoreWith(tokens: seq<string>, values: map<string, string>, text: string): string
    requires forall k :: k in tokens ==> k in values
  {
    if tokens == [] then text
    else if tokens[0] == "" then RestoreWith(tokens[1..], values, text)
    else RestoreWith(tokens[1..], values, ReplaceAll(text, tokens[0], values[tokens[0]]))
  }

  function RestoreCount(tokens: seq<string>, values: map<string, string>, text: string): nat
    requires forall k :: k in tokens ==> k in values
  {
    if tokens == [] then 0
    else if tokens[0] == "" then RestoreCount(tokens[1..], values, text)
    else
      assert forall k :: k in tokens[1..] ==> k in tokens;
      Count(text, tokens[0]) + RestoreCount(tokens[1..], values, ReplaceAll(text, tokens[0], values[tokens[0]]))
  }

  class Record {
    const value: string
    const token: string
    const detector: string
    var hits: nat

    constructor (value: string, token: string, detector: string)
      ensures this.value == value && this.token == token && this.detector == detector && hits == 1
    {
      this.value, this.token, this.detector, hits := value, token, detector, 1;
    }
  }

  class MappingTable {
    var valueToRec: map<string, Record>
    var tokenToRec: map<string, Record>
    var minted: nat
    var restored: nat
    var maxTokenLen: nat

    /** Each value has a record of its own. */
    ghost predicate Valid()
      reads `valueToRec
    {
      forall v :: v in valueToRec ==> valueToRec[v].value == v
    }

    ghost function Values(): map<string, Entry>
      reads `valueToRec, valueToRec.Values
    {
      map v | v in valueToRec :: Entry(valueToRec[v].token, valueToRec[v].detector, valueToRec[v].hits)
    }

    ghost function TokenValues(): map<string, string>
      reads `tokenToRec
    {
      map k | k in tokenToRec :: tokenToRec[k].value
    }

    ghost function View(): Table
      reads this, valueToRec.Values
    {
      Table(Values(), TokenValues(), minted, restored, maxTokenLen)
    }

    constructor ()
      ensures Valid() && View() == EMPTY
    {
      valueToRec, tokenToRec := map[], map[];
      minted, restored, maxTokenLen := 0, 0, 0;
    }

    /** Asks for a value's token, minting one at first sight. */
    method TokenFor(value: string, detector: string, mint: nat -> string) returns (token: string)
      requires Valid()
      modifies this, valueToRec.Values
      ensures Valid()
      ensures forall v :: v in valueToRec ==> (v in old(valueToRec) && valueToRec[v] == old(valueToRec)[v]) || fresh(valueToRec[v])
      ensures token == TokenOf(old(View()), value, mint)
      ensures View() == Looked(old(View()), value, detector, mint)
    {
      hide View, Valid;
      Fields();
      if value in valueToRec {
        Touch(value);
        return valueToRec[value].token;
      }
      token := mint(minted + 1);
      Enter(value, token, detector);
      Recount(minted + 1, if |token| > maxTokenLen then |token| else maxTokenLen);
    }

    lemma Fields()
      ensures View().byValue.Keys == valueToRec.Keys && View().byToken.Keys == tokenToRec.Keys
      ensures forall v :: v in valueToRec ==> View().byValue[v].token == valueToRec[v].token
      ensures View().minted == minted && View().restored == restored && View().longest == maxTokenLen
    {
    }

    method Recount(n: nat, longest: nat)
      modifies `minted, `maxTokenLen
      ensures View() == old(View()).(minted := n, longest := longest)
    {
      minted, maxTokenLen := n, longest;
    }

    method Touch(value: string)
      requires Valid() && value in valueToRec
      modifies valueToRec[value]
      ensures View() == old(View()).(byValue := old(View()).byValue[value := old(View()).byValue[value].(hits := old(View()).byValue[value].hits + 1)])
    {
      var known := valueToRec[value];
      known.hits := known.hits + 1;
    }

    /** Files one new record under both its keys. */
    method Enter(value: string, token: string, detector: string)
      requires Valid()
      modifies `valueToRec, `tokenToRec
      ensures Valid()
      ensures forall v :: v in valueToRec ==> (v in old(valueToRec) && valueToRec[v] == old(valueToRec)[v]) || fresh(valueToRec[v])
      ensures View() == old(View()).(byValue := old(View()).byValue[value := Entry(token, detector, 1)],
                                     byToken := old(View()).byToken[token := value])
    {
      var rec := new Record(value, token, detector);
      valueToRec := valueToRec[value := rec];
      tokenToRec := tokenToRec[token := rec];
      assert Values() == old(Values())[value := Entry(token, detector, 1)];
      assert TokenValues() == old(TokenValues())[token := value];
    }

    method IsToken(s: string) returns (b: bool)
      ensures b == (s in View().byToken)
    {
      b := s in tokenToRec;
    }

    method RevealToken(token: string) returns (value: string, ok: bool)
      ensures ok == (token in View().byToken)
      ensures value == if ok then View().byToken[token] else ""
    {
      if token in tokenToRec {
        return tokenToRec[token].value, true;
      }
      return "", false;
    }

    /** All tokens, longest first. */
    method Tokens() returns (out: seq<string>)
      ensures Orders(out, View().byToken.Keys)
    {
      hide Distinct;
      NoneDistinct();
      out := [];
      var todo := tokenToRec.Keys;
      while todo != {}
        invariant todo <= tokenToRec.Keys
        invariant forall k :: k in out <==> k in tokenToRec.Keys - todo
        invariant Distinct(out)
        decreases |todo|
      {
        var k :| k in todo;
        DistinctSnoc(out, k);
        todo := todo - {k};
        out := out + [k];
      }
      SortOrders(out);
      out := Sort(out, Before);
    }

    /** Puts every token back, whatever order the map yields them in. */
    method RestoreAll(text: string) returns (out: string, n: nat)
      modifies `restored
      ensures View() == old(View()).(restored := old(View()).restored + n)
      ensures forall tokens | Orders(tokens, old(View()).byToken.Keys) ::
        out == RestoreWith(tokens, old(View()).byToken, text) && n == RestoreCount(tokens, old(View()).byToken, text)
    {
      ghost var t := View();
      if |tokenToRec| == 0 || text == "" {
        NothingToRestore(t.byToken, text);
        return text, 0;
      }
      var tokens := Tokens();
      out, n := text, 0;
      for i := 0 to |tokens|
        invariant View() == t
        invariant RestoreWith(tokens, t.byToken, text) == RestoreWith(tokens[i..], t.byToken, out)
        invariant RestoreCount(tokens, t.byToken, text) == n + RestoreCount(tokens[i..], t.byToken, out)
      {
        assert tokens[i] in t.byToken;
        var c := Count(out, tokens[i]);
        if c == 0 {
          if tokens[i] != "" {
            NoneToReplace(out, tokens[i], t.byToken[tokens[i]]);
          }
          continue;
        }
        out := ReplaceAll(out, tokens[i], tokenToRec[tokens[i]].value);
        n := n + c;
      }
      restored := restored + n;
      forall other | Orders(other, t.byToken.Keys) ensures other == tokens {
        OrderIsUnique(other, tokens, t.byToken.Keys);
      }
    }
  }

  lemma NoneDistinct()
    ensures Distinct<string>([])
  {
  }

  lemma {:induction false} NothingToRestore(values: map<string, string>, text: string)
    requires values == map[] || text == ""
    ensures forall tokens | Orders(tokens, values.Keys) :: RestoreWith(tokens, values, text) == text && RestoreCount(tokens, values, text) == 0
  {
    forall tokens | Orders(tokens, values.Keys)
      ensures RestoreWith(tokens, values, text) == text && RestoreCount(tokens, values, text) == 0
    {
      if values == map[] {
        EmptyOrder(tokens, values.Keys);
      } else {
        EmptyText(tokens, values);
      }
    }
  }

  lemma {:induction false} EmptyText(tokens: seq<string>, values: map<string, string>)
    requires forall k :: k in tokens ==> k in values
    ensures RestoreWith(tokens, values, "") == "" && RestoreCount(tokens, values, "") == 0
  {
    if tokens != [] {
      assert tokens[0] in tokens;
      EmptyText(tokens[1..], values);
    }
  }
}
