/** Secrets registered by name: their values are replaced by references, and references by values. */
module KnownSecrets {
  import opened Basics
  import opened TokenOrder
  import opened TokenCells
  import opened TokenParse
  import opened Replacing
  import opened Sequences

  datatype Secret = Secret(name: string, value: string)

  /** A snapshot of the registered secrets: longest value first, and each name's value. */
  datatype KnownSet = KnownSet(byLen: seq<Secret>, names: map<string, string>, maxTokenLen: nat)

  const SHORTEST := 6

  function Ref(name: string): (r: string)
    ensures r != ""
  {
    "${" + name + "}"
  }

  predicate Usable(s: Secret) {
    s.name != "" && |s.value| >= SHORTEST
  }

  predicate LongerFirst(a: Secret, b: Secret) {
    |a.value| > |b.value| || (|a.value| == |b.value| && LexLess(a.name, b.name))
  }

  /** The first usable registration of its name. */
  ghost predicate FirstOfName(secrets: seq<Secret>, s: Secret) {
    Usable(s) && exists i :: 0 <= i < |secrets| && secrets[i] == s
                             && forall j :: 0 <= j < i && Usable(secrets[j]) ==> secrets[j].name != s.name
  }

  ghost predicate Filed(ss: seq<Secret>, names: map<string, string>) {
    && (forall s :: s in ss ==> Usable(s) && s.name in names && names[s.name] == s.value)
    && (forall name :: name in names ==> Secret(name, names[name]) in ss)
  }

  ghost predicate WellFormed(ks: KnownSet) {
    Filed(ks.byLen, ks.names) && Sorted(ks.byLen, LongerFirst) && forall s :: s in ks.byLen ==> |Ref(s.name)| <= ks.maxTokenLen
  }

  ghost predicate Registers(s: Secret, name: string) {
    s.name == name && name != "" && |s.value| >= 6
  }

  /** A registration is kept if it has a name and a value of six bytes or more and is the first such of its name. */
  lemma KeptIff(secrets: seq<Secret>, s: Secret)
    ensures FirstOfName(secrets, s) <==>
            exists i :: 0 <= i < |secrets| && secrets[i] == s && Registers(s, s.name)
                        && forall j :: 0 <= j < i ==> !Registers(secrets[j], s.name)
  {
    if FirstOfName(secrets, s) {
      var i :| 0 <= i < |secrets| && secrets[i] == s && forall j :: 0 <= j < i && Usable(secrets[j]) ==> secrets[j].name != s.name;
      assert forall j :: 0 <= j < i ==> !Registers(secrets[j], s.name);
    }
  }

  lemma LongerFirstIsStrict()
    ensures StrictOrder(LongerFirst)
  {
    forall a, b | LongerFirst(a, b) ensures !LongerFirst(b, a) {
      if LongerFirst(b, a) {
        LexTransitive(a.name, b.name, a.name);
        LexIrreflexive(a.name);
      }
    }
    forall a, b, c | !LongerFirst(b, a) && !LongerFirst(c, b) ensures !LongerFirst(c, a) {
      if |a.value| == |b.value| == |c.value| {
        LexTotal(a.name, b.name);
        LexTotal(b.name, c.name);
        NotLexBack(a.name, b.name, c.name);
      }
    }
  }

  lemma OneMoreSecret(secrets: seq<Secret>, n: nat, kept: seq<Secret>, names: map<string, string>)
    requires n < |secrets| && Filed(kept, names)
    requires forall s :: s in kept <==> FirstOfName(secrets[..n], s)
    ensures var s := secrets[n];
            && (!Usable(s) || s.name in names ==> forall t :: t in kept <==> FirstOfName(secrets[..n + 1], t))
            && (Usable(s) && s.name !in names ==>
                  Filed(kept + [s], names[s.name := s.value]) && forall t :: t in kept + [s] <==> FirstOfName(secrets[..n + 1], t))
  {
    var s := secrets[n];
    forall t ensures FirstOfName(secrets[..n + 1], t) <==> FirstOfName(secrets[..n], t) || (t == s && Usable(s) && s.name !in names) {
      FirstStep(secrets, n, t);
      UsedName(secrets[..n], kept, names, s.name);
    }
  }

  lemma FirstStep(secrets: seq<Secret>, n: nat, t: Secret)
    requires n < |secrets|
    ensures FirstOfName(secrets[..n + 1], t) <==>
            FirstOfName(secrets[..n], t)
            || (t == secrets[n] && Usable(t) && forall j :: 0 <= j < n && Usable(secrets[..n][j]) ==> secrets[..n][j].name != t.name)
  {
    var all, init := secrets[..n + 1], secrets[..n];
    assert forall j :: 0 <= j < n ==> all[j] == init[j];
    assert all[n] == secrets[n];
    if FirstOfName(init, t) {
      var i :| 0 <= i < |init| && init[i] == t && forall j :: 0 <= j < i && Usable(init[j]) ==> init[j].name != t.name;
      assert all[i] == t;
    }
  }

  /** A name is in the map exactly when a usable registration had it. */
  lemma UsedName(secrets: seq<Secret>, kept: seq<Secret>, names: map<string, string>, name: string)
    requires Filed(kept, names) && forall s :: s in kept <==> FirstOfName(secrets, s)
    ensures name in names <==> exists j :: 0 <= j < |secrets| && Usable(secrets[j]) && secrets[j].name == name
  {
    if name in names {
      assert FirstOfName(secrets, Secret(name, names[name]));
    }
    if j :| 0 <= j < |secrets| && Usable(secrets[j]) && secrets[j].name == name {
      var i := FirstWith(secrets, name, j);
      assert FirstOfName(secrets, secrets[i]);
    }
  }

  lemma {:induction false} FirstWith(secrets: seq<Secret>, name: string, j: nat) returns (i: nat)
    requires j < |secrets| && Usable(secrets[j]) && secrets[j].name == name
    ensures i <= j && Usable(secrets[i]) && secrets[i].name == name
    ensures forall m :: 0 <= m < i && Usable(secrets[m]) ==> secrets[m].name != name
    decreases j
  {
    i := j;
    if m :| 0 <= m < j && Usable(secrets[m]) && secrets[m].name == name {
      i := FirstWith(secrets, name, m);
    }
  }

  /** The snapshot of a list of registrations: of each name the first that is usable. */
  method NewKnownSet(secrets: seq<Secret>) returns (ks: KnownSet)
    ensures WellFormed(ks)
    ensures forall s :: s in ks.byLen <==> FirstOfName(secrets, s)
    ensures forall i, j :: 0 <= i < j < |ks.byLen| ==> ks.byLen[i].name != ks.byLen[j].name
  {
    hide FirstOfName, Usable, Ref, Distinct;
    NoneTwice();
    var kept: seq<Secret>, names: map<string, string>, maxLen: nat := [], map[], 0;
    NoneFirst(secrets[..0]);
    for i := 0 to |secrets|
      invariant Filed(kept, names) && forall s :: s in kept <==> FirstOfName(secrets[..i], s)
      invariant forall s :: s in kept ==> |Ref(s.name)| <= maxLen
      invariant Distinct(kept)
    {
      var s := secrets[i];
      OneMoreSecret(secrets, i, kept, names);
      if !Usable(s) {
        continue;
      }
      if s.name in names {
        continue;
      }
      names := names[s.name := s.value];
      DistinctSnoc(kept, s);
      kept := kept + [s];
      if |Ref(s.name)| > maxLen {
        maxLen := |Ref(s.name)|;
      }
    }
    TakeAll(secrets);
    LongerFirstIsStrict();
    SortSorts(kept, LongerFirst);
    SortDistinct(kept, LongerFirst);
    OncePerName(Sort(kept, LongerFirst), names);
    ks := KnownSet(Sort(kept, LongerFirst), names, maxLen);
  }

  lemma NoneTwice()
    ensures Distinct<Secret>([])
  {
  }

  /** Registrations filed under their names differ in their names if they differ at all. */
  lemma OncePerName(ss: seq<Secret>, names: map<string, string>)
    requires Filed(ss, names) && Distinct(ss)
    ensures forall i, j :: 0 <= i < j < |ss| ==> ss[i].name != ss[j].name
  {
    hide Usable;
  }

  lemma NoneFirst(secrets: seq<Secret>)
    requires secrets == []
    ensures forall s :: !FirstOfName(secrets, s)
  {
  }

  // The pass over a text.

  ghost predicate NoEmptyValue(ss: seq<Secret>) {
    forall s :: s in ss ==> s.value != ""
  }

  /** Each value replaced throughout by its reference, one secret after another. */
  function KnownPass(ss: seq<Secret>, text: string): string
    requires NoEmptyValue(ss)
  {
    if ss == [] then text
    else
      assert ss[0] in ss;
      KnownPass(ss[1..], ReplaceAll(text, ss[0].value, Ref(ss[0].name)))
  }

  function KnownCount(ss: seq<Secret>, text: string): nat
    requires NoEmptyValue(ss)
  {
    if ss == [] then 0
    else
      assert ss[0] in ss;
      Count(text, ss[0].value) + KnownCount(ss[1..], ReplaceAll(text, ss[0].value, Ref(ss[0].name)))
  }

  method ReplaceKnown(ss: seq<Secret>, text: string) returns (out: string, n: nat)
    requires NoEmptyValue(ss)
    ensures out == KnownPass(ss, text) && n == KnownCount(ss, text)
  {
    hide Ref, ReplaceAll, Count;
    out, n := text, 0;
    for i := 0 to |ss|
      invariant KnownPass(ss, text) == KnownPass(ss[i..], out)
      invariant KnownCount(ss, text) == n + KnownCount(ss[i..], out)
    {
      DropStep(ss, i);
      assert ss[i] in ss;
      var c := Count(out, ss[i].value);
      if c == 0 {
        NoneToReplace(out, ss[i].value, Ref(ss[i].name));
        continue;
      }
      out := ReplaceAll(out, ss[i].value, Ref(ss[i].name));
      n := n + c;
    }
  }

  // Words spelled out by plain characters.

  ghost predicate Spelled(cells: seq<Cell>, w: string) {
    |w| <= |cells| && forall i :: 0 <= i < |w| ==> cells[i] == Ch(w[i])
  }

  ghost predicate NoneSpelled(cells: seq<Cell>, w: string) {
    forall i :: 0 <= i <= |cells| ==> !Spelled(cells[i..], w)
  }

  /** Nothing that a token shows has anything in common with the word. */
  ghost predicate Clear(cells: seq<Cell>, w: string) {
    forall c :: c in cells && c.Tok? ==> Unlike(w, c.key)
  }

  lemma ClearRest(cells: seq<Cell>, w: string, n: nat)
    requires Clear(cells, w) && n <= |cells|
    ensures Clear(cells[n..], w)
    ensures n < |cells| && cells[n].Tok? ==> Unlike(w, cells[n].key)
  {
    hide Unlike;
  }

  lemma SpelledRest(cells: seq<Cell>, w: string)
    requires cells != [] && w != ""
    ensures Spelled(cells, w) <==> cells[0] == Ch(w[0]) && Spelled(cells[1..], w[1..])
  {
    if cells[0] == Ch(w[0]) && Spelled(cells[1..], w[1..]) {
      forall i | 0 <= i < |w| ensures cells[i] == Ch(w[i]) {
        if i > 0 {
          assert cells[1..][i - 1] == Ch(w[1..][i - 1]);
        }
      }
    }
  }

  /** A word at the front of the text is spelled by plain characters. */
  lemma {:induction false} FrontIsSpelled(cells: seq<Cell>, w: string, q: nat)
    requires Clear(cells, w) && q <= |w| && w[q..] <= Text(cells)
    ensures Spelled(cells, w[q..])
    decreases |cells|
  {
    hide Clear, Unlike;
    if q < |w| {
      assert cells != [];
      var rest := Text(cells[1..]);
      ClearRest(cells, w, 0);
      ClearRest(cells, w, 1);
      if cells[0].Ch? {
        PrefixTail(w, q, cells[0].c, rest);
        FrontIsSpelled(cells[1..], w, q + 1);
        DropStep(w, q);
        SpelledRest(cells, w[q..]);
      } else {
        NotAtToken(w, q, cells[0].key, rest);
      }
    }
  }

  lemma NotAtToken(w: string, q: nat, k: string, rest: string)
    requires Unlike(w, k) && q < |w|
    ensures !(w[q..] <= k + rest)
  {
    hide Unlike;
    if q > 0 {
      NotIntoValue(w, q, k, rest);
    } else {
      NotEmptyToken(w, k);
      NotFromValue(w, k, 0, rest);
      TakeAll(w);
      TakeAll(k);
    }
  }

  lemma NotEmptyToken(w: string, k: string)
    requires Unlike(w, k)
    ensures k != ""
  {
  }

  /** What is spelled shows, in the text and in what the text stands for. */
  lemma {:induction false} SpelledShows(cells: seq<Cell>, w: string, values: map<string, string>)
    requires Spelled(cells, w)
    ensures Text(cells) == w + Text(cells[|w|..]) && Expand(cells, values) == w + Expand(cells[|w|..], values)
    ensures Toks(cells) == Toks(cells[|w|..])
  {
    if w == "" {
      TakeAll(cells);
    } else {
      SpelledRest(cells, w);
      SpelledShows(cells[1..], w[1..], values);
      DropDrop(cells, 1, |w| - 1);
      Cons(w);
      Assoc([w[0]], w[1..], Text(cells[|w|..]));
      Assoc([w[0]], w[1..], Expand(cells[|w|..], values));
    }
  }

  /** Wherever a word occurs in the text it is spelled. */
  lemma {:induction false} OccursSpelled(cells: seq<Cell>, w: string, p: nat)
    requires Clear(cells, w) && w != "" && At(w, Text(cells), p)
    ensures !NoneSpelled(cells, w)
    decreases |cells|
  {
    hide Clear, Unlike;
    TakeAll(cells);
    TakeAll(w);
    if p == 0 {
      AtFront(w, Text(cells));
      FrontIsSpelled(cells, w, 0);
      assert Spelled(cells[0..], w);
    } else {
      assert cells != [];
      var first, rest := Shown(cells[0]), Text(cells[1..]);
      ClearRest(cells, w, 0);
      ClearRest(cells, w, 1);
      if p >= |first| {
        AtBehind(w, first, rest, p);
        OccursSpelled(cells[1..], w, p - |first|);
        SpelledLater(cells, w);
      } else {
        AtWithin(w, first, rest, p);
        NotFromValue(w, first, p, rest);
      }
    }
  }

  lemma SpelledLater(cells: seq<Cell>, w: string)
    requires cells != []
    ensures NoneSpelled(cells, w) <==> NoneSpelled(cells[1..], w) && !Spelled(cells, w)
  {
    hide Spelled;
    TakeAll(cells);
    forall i | 0 <= i < |cells| ensures cells[1..][i..] == cells[i + 1..] {
      DropDrop(cells, 1, i);
    }
    if NoneSpelled(cells, w) {
      assert !Spelled(cells[0..], w);
      forall i | 0 <= i <= |cells[1..]| ensures !Spelled(cells[1..][i..], w) {
        assert !Spelled(cells[i + 1..], w);
      }
    }
    if NoneSpelled(cells[1..], w) && !Spelled(cells, w) {
      forall i | 0 <= i <= |cells| ensures !Spelled(cells[i..], w) {
        if i > 0 {
          assert !Spelled(cells[1..][i - 1..], w);
        }
      }
    }
  }

  // One value replaced throughout a text.

  ghost function Retok(cells: seq<Cell>, v: string, k: string): seq<Cell>
    requires v != ""
    decreases |cells|
  {
    if cells == [] then []
    else if Spelled(cells, v) then [Tok(k)] + Retok(cells[|v|..], v, k)
    else [cells[0]] + Retok(cells[1..], v, k)
  }

  lemma {:induction false} ReplaceRetoks(cells: seq<Cell>, v: string, k: string)
    requires v != "" && Clear(cells, v)
    ensures ReplaceAll(Text(cells), v, k) == Text(Retok(cells, v, k))
    ensures Toks(Retok(cells, v, k)) == Toks(cells) + Count(Text(cells), v)
    decreases |cells|
  {
    hide Clear, Unlike, Spelled;
    var s := Text(cells);
    TakeAll(v);
    if cells == [] {
      return;
    }
    if Spelled(cells, v) {
      SpelledNonEmpty(cells, v);
      SpelledShows(cells, v, map[]);
      ClearRest(cells, v, |v|);
      ReplaceRetoks(cells[|v|..], v, k);
      ConcatParts(v, Text(cells[|v|..]));
      ConsParts(Tok(k), Retok(cells[|v|..], v, k));
      ReplacedFront(s, v, k);
    } else {
      ClearRest(cells, v, 0);
      ClearRest(cells, v, 1);
      ReplaceRetoks(cells[1..], v, k);
      ConsParts(cells[0], Retok(cells[1..], v, k));
      if v <= s {
        FrontIsSpelled(cells, v, 0);
      }
      if cells[0].Ch? {
        ConsParts(cells[0].c, Text(cells[1..]));
        OneSkip(s, v, k);
      } else {
        SkipShown(cells[0].key, Text(cells[1..]), v, k);
      }
    }
  }

  lemma SpelledNonEmpty(cells: seq<Cell>, v: string)
    requires Spelled(cells, v)
    ensures |v| <= |cells|
  {
  }

  lemma ReplacedFront(s: string, key: string, value: string)
    requires key != "" && key <= s
    ensures ReplaceAll(s, key, value) == value + ReplaceAll(s[|key|..], key, value) && Count(s, key) == 1 + Count(s[|key|..], key)
  {
  }

  lemma SkipShown(u: string, rest: string, v: string, k: string)
    requires v != "" && Unlike(v, u)
    ensures ReplaceAll(u + rest, v, k) == u + ReplaceAll(rest, v, k) && Count(u + rest, v) == Count(rest, v)
  {
    hide Unlike, ReplaceAll, Count;
    forall i | 0 <= i < |u| ensures !(v <= (u + rest)[i..]) {
      DropConcat(u, rest, i);
      NotFromValue(v, u, i, rest);
    }
    SkipTo(u + rest, v, k, |u|);
    ConcatParts(u, rest);
  }

  lemma {:induction false} RetokExpands(cells: seq<Cell>, v: string, k: string, values: map<string, string>)
    requires v != "" && k in values && values[k] == v
    ensures Expand(Retok(cells, v, k), values) == Expand(cells, values)
    decreases |cells|
  {
    hide Spelled;
    if cells != [] {
      if Spelled(cells, v) {
        SpelledNonEmpty(cells, v);
        SpelledShows(cells, v, values);
        RetokExpands(cells[|v|..], v, k, values);
        ConsParts(Tok(k), Retok(cells[|v|..], v, k));
      } else {
        RetokExpands(cells[1..], v, k, values);
        ConsParts(cells[0], Retok(cells[1..], v, k));
      }
    }
  }

  lemma {:induction false} RetokTokens(cells: seq<Cell>, v: string, k: string)
    requires v != ""
    ensures forall c :: c in Retok(cells, v, k) && c.Tok? ==> c in cells || c.key == k
    decreases |cells|
  {
    if cells != [] {
      if Spelled(cells, v) {
        RetokTokens(cells[|v|..], v, k);
      } else {
        RetokTokens(cells[1..], v, k);
      }
    }
  }

  /** What is spelled after a replacement was spelled before it. */
  lemma {:induction false} SpelledBefore(cells: seq<Cell>, v: string, k: string, w: string)
    requires v != "" && Spelled(Retok(cells, v, k), w)
    ensures Spelled(cells, w)
    decreases |w|
  {
    if w != "" {
      var r := Retok(cells, v, k);
      assert cells != [];
      SpelledRest(r, w);
      ConsParts(cells[0], Retok(cells[1..], v, k));
      SpelledBefore(cells[1..], v, k, w[1..]);
      SpelledRest(cells, w);
    }
  }

  /** Nothing becomes spelled by a replacement, and the replaced value is no more. */
  lemma {:induction false} RetokSpellsNothing(cells: seq<Cell>, v: string, k: string, w: string)
    requires v != "" && w != "" && (w == v || NoneSpelled(cells, w))
    ensures NoneSpelled(Retok(cells, v, k), w)
    decreases |cells|
  {
    hide Spelled, NoneSpelled;
    var r := Retok(cells, v, k);
    if cells == [] {
      NothingSpelled(w);
    } else {
      SpelledLater(r, w);
      if Spelled(r, w) {
        SpelledBefore(cells, v, k, w);
      }
      if Spelled(cells, v) {
        SpelledNonEmpty(cells, v);
        NoneSpelledRest(cells, w, |v|);
        RetokSpellsNothing(cells[|v|..], v, k, w);
        ConsParts(Tok(k), Retok(cells[|v|..], v, k));
        TokenSpellsNothing(r, w);
      } else {
        NoneSpelledRest(cells, w, 1);
        RetokSpellsNothing(cells[1..], v, k, w);
        ConsParts(cells[0], Retok(cells[1..], v, k));
        SpelledLater(cells, w);
      }
    }
  }

  lemma NothingSpelled(w: string)
    requires w != ""
    ensures NoneSpelled([], w)
  {
  }

  lemma TokenSpellsNothing(cells: seq<Cell>, w: string)
    requires cells != [] && cells[0].Tok? && w != ""
    ensures !Spelled(cells, w)
  {
  }

  lemma NoneSpelledRest(cells: seq<Cell>, w: string, n: nat)
    requires n <= |cells|
    ensures NoneSpelled(cells, w) ==> NoneSpelled(cells[n..], w)
  {
    hide Spelled;
    if NoneSpelled(cells, w) {
      forall i | 0 <= i <= |cells[n..]| ensures !Spelled(cells[n..][i..], w) {
        DropDrop(cells, n, i);
        assert !Spelled(cells[n + i..], w);
      }
    }
  }

  // All values, one after another.

  /** No value has anything in common with a reference, and each reference stands for its value. */
  ghost predicate KnownApart(ss: seq<Secret>) {
    forall a, b :: a in ss && b in ss ==> Unlike(a.value, Ref(b.name))
  }

  ghost predicate StandFor(ss: seq<Secret>, values: map<string, string>) {
    forall s :: s in ss ==> Ref(s.name) in values && values[Ref(s.name)] == s.value
  }

  ghost predicate RefsOnly(cells: seq<Cell>, ss: seq<Secret>) {
    forall c :: c in cells && c.Tok? ==> exists s :: s in ss && c.key == Ref(s.name)
  }

  ghost function KnownCells(ss: seq<Secret>, cells: seq<Cell>): seq<Cell>
    requires NoEmptyValue(ss)
  {
    if ss == [] then cells
    else
      assert ss[0] in ss;
      KnownCells(ss[1..], Retok(cells, ss[0].value, Ref(ss[0].name)))
  }

  lemma RefsAreClear(cells: seq<Cell>, all: seq<Secret>, s: Secret)
    requires RefsOnly(cells, all) && KnownApart(all) && s in all
    ensures Clear(cells, s.value)
  {
    hide Unlike, Ref;
  }

  lemma RefsOnlyAfter(cells: seq<Cell>, all: seq<Secret>, s: Secret)
    requires RefsOnly(cells, all) && s in all && s.value != ""
    ensures RefsOnly(Retok(cells, s.value, Ref(s.name)), all)
  {
    hide Ref, Retok;
    RetokTokens(cells, s.value, Ref(s.name));
  }

  lemma Subset(ss: seq<Secret>, all: seq<Secret>)
    requires ss != [] && (forall s :: s in ss ==> s in all) && NoEmptyValue(all)
    ensures ss[0] in all && ss[0].value != "" && NoEmptyValue(ss) && NoEmptyValue(ss[1..]) && forall s :: s in ss[1..] ==> s in all
  {
  }

  /** The pass turns plain characters into references, changing nothing of what the text stands for. */
  lemma {:induction false} PassIsCells(ss: seq<Secret>, all: seq<Secret>, cells: seq<Cell>, values: map<string, string>)
    requires (forall s :: s in ss ==> s in all) && NoEmptyValue(all) && NoEmptyValue(ss) && KnownApart(all) && StandFor(all, values)
    requires RefsOnly(cells, all)
    ensures var after := KnownCells(ss, cells);
            && KnownPass(ss, Text(cells)) == Text(after) && Expand(after, values) == Expand(cells, values) && RefsOnly(after, all)
            && Toks(after) == Toks(cells) + KnownCount(ss, Text(cells))
    decreases |ss|
  {
    hide KnownApart, RefsOnly, Ref, Retok, Text, Expand, ReplaceAll, NoEmptyValue, Toks, Count;
    if ss != [] {
      Subset(ss, all);
      var v, k := ss[0].value, Ref(ss[0].name);
      RefsAreClear(cells, all, ss[0]);
      ReplaceRetoks(cells, v, k);
      RetokExpands(cells, v, k, values);
      RefsOnlyAfter(cells, all, ss[0]);
      PassIsCells(ss[1..], all, Retok(cells, v, k), values);
    }
  }

  /** After the pass no value is spelled. */
  lemma {:induction false} PassSpellsNone(ss: seq<Secret>, cells: seq<Cell>, w: string)
    requires NoEmptyValue(ss) && w != ""
    requires NoneSpelled(cells, w) || exists s :: s in ss && s.value == w
    ensures NoneSpelled(KnownCells(ss, cells), w)
    decreases |ss|
  {
    hide NoneSpelled, Retok, Ref;
    if ss != [] {
      Subset(ss, ss);
      if NoneSpelled(cells, w) || ss[0].value == w {
        RetokSpellsNothing(cells, ss[0].value, Ref(ss[0].name), w);
      }
      PassSpellsNone(ss[1..], Retok(cells, ss[0].value, Ref(ss[0].name)), w);
    }
  }

  lemma PlainHasNoRefs(text: string, ss: seq<Secret>)
    ensures RefsOnly(Plain(text), ss)
  {
  }

  /** The text after the pass as cells: what it shows, what it stands for, and that no value is spelled. */
  lemma PassCells(ss: seq<Secret>, text: string, values: map<string, string>) returns (cells: seq<Cell>)
    requires NoEmptyValue(ss) && KnownApart(ss) && StandFor(ss, values)
    ensures Text(cells) == KnownPass(ss, text) && Expand(cells, values) == text && RefsOnly(cells, ss)
    ensures forall s :: s in ss ==> NoneSpelled(cells, s.value)
    ensures Toks(cells) == KnownCount(ss, text)
  {
    hide KnownApart, RefsOnly, StandFor, KnownPass, KnownCells, KnownCount, Text, Expand, NoneSpelled, Toks;
    PlainBoth(text, values);
    PlainHasNoToks(text);
    PlainHasNoRefs(text, ss);
    PassIsCells(ss, ss, Plain(text), values);
    cells := KnownCells(ss, Plain(text));
    forall s | s in ss ensures NoneSpelled(cells, s.value) {
      PassSpellsNone(ss, Plain(text), s.value);
    }
  }

  /** No registered value is left in the text, even where one lies within another. */
  lemma NoValueIsLeft(ss: seq<Secret>, text: string, values: map<string, string>, s: Secret)
    requires NoEmptyValue(ss) && KnownApart(ss) && StandFor(ss, values) && s in ss
    ensures !Occurs(s.value, KnownPass(ss, text))
  {
    hide KnownApart, StandFor, KnownPass, NoneSpelled, RefsOnly, At, Text;
    var cells := PassCells(ss, text, values);
    RefsAreClear(cells, ss, s);
    forall p: nat ensures !At(s.value, Text(cells), p) {
      if At(s.value, Text(cells), p) {
        OccursSpelled(cells, s.value, p);
      }
    }
  }

  /** When a value's turn comes no longer one is left, so none is replaced in part while it is whole. */
  lemma LongerAreGone(ss: seq<Secret>, text: string, values: map<string, string>, i: nat, longer: Secret)
    requires Sorted(ss, LongerFirst) && NoEmptyValue(ss) && KnownApart(ss) && StandFor(ss, values)
    requires i < |ss| && longer in ss && |longer.value| > |ss[i].value|
    ensures NoEmptyValue(ss[..i]) && !Occurs(longer.value, KnownPass(ss[..i], text))
  {
    hide Unlike, Ref, Occurs, KnownPass;
    var j :| 0 <= j < |ss| && ss[j] == longer;
    assert j > i ==> !LongerFirst(ss[j], ss[i]);
    assert ss[..i][j] == longer;
    NoValueIsLeft(ss[..i], text, values, longer);
  }

  /** So a second pass finds nothing. */
  lemma {:induction false} NothingLeftToReplace(ss: seq<Secret>, text: string)
    requires NoEmptyValue(ss) && forall s :: s in ss ==> !Occurs(s.value, text)
    ensures KnownPass(ss, text) == text && KnownCount(ss, text) == 0
  {
    hide Occurs, Ref;
    if ss != [] {
      Subset(ss, ss);
      CountedOccurs(text, ss[0].value);
      NoneToReplace(text, ss[0].value, Ref(ss[0].name));
      NothingLeftToReplace(ss[1..], text);
    }
  }

  // References read back.

  predicate IdentStart(c: char) {
    'A' <= c <= 'Z' || 'a' <= c <= 'z' || c == '_'
  }

  predicate IdentChar(c: char) {
    IdentStart(c) || '0' <= c <= '9'
  }

  predicate IsIdent(name: string) {
    name != "" && IdentStart(name[0]) && forall i :: 0 <= i < |name| ==> IdentChar(name[i])
  }

  /** How far the identifier characters go on. */
  function NameEnd(s: string, i: nat): (j: nat)
    requires i <= |s|
    ensures i <= j <= |s| && (forall n :: i <= n < j ==> IdentChar(s[n])) && (j < |s| ==> !IdentChar(s[j]))
    decreases |s| - i
  {
    if i < |s| && IdentChar(s[i]) then NameEnd(s, i + 1) else i
  }

  /** The name in the reference that the text begins with, if it begins with one. */
  function RefName(s: string): string {
    if "${" <= s then
      var j := NameEnd(s, 2);
      if 2 < j < |s| && s[j] == '}' && IdentStart(s[2]) then s[2..j] else ""
    else ""
  }

  lemma RefNameIs(s: string, name: string)
    requires name != ""
    ensures RefName(s) == name <==> IsIdent(name) && Ref(name) <= s
  {
    var r := Ref(name);
    RefParts(name);
    if RefName(s) == name {
      var j := NameEnd(s, 2);
      forall i | 0 <= i < |name| ensures IdentChar(name[i]) {
        assert name[i] == s[2 + i];
      }
      assert r == s[..|r|] by {
        assert |r| == j + 1;
        forall i | 0 <= i < |r| ensures r[i] == s[i] {
          if 2 <= i < j {
            assert s[2..j][i - 2] == s[i];
          }
        }
      }
    }
    if IsIdent(name) && r <= s {
      var j := NameEnd(s, 2);
      assert forall i :: 0 <= i < |r| ==> s[i] == r[i];
      assert s[2 + |name|] == '}';
      assert j == 2 + |name|;
      assert s[2..j] == name;
    }
  }

  lemma RefParts(name: string)
    ensures var r := Ref(name);
            |r| == |name| + 3 && r[0] == '$' && r[1] == '{' && r[|r| - 1] == '}' && forall i :: 0 <= i < |name| ==> r[2 + i] == name[i]
  {
  }

  ghost predicate Letter(c: char) {
    'A' <= c <= 'Z' || 'a' <= c <= 'z'
  }

  /** A reference is read as one exactly when its name is made of letters, digits and underscores and does not
      begin with a digit. */
  lemma ReadsBackIff(name: string)
    requires name != ""
    ensures RefName("${" + name + "}") == name <==>
            (forall i :: 0 <= i < |name| ==> Letter(name[i]) || name[i] == '_' || '0' <= name[i] <= '9') && !('0' <= name[0] <= '9')
  {
    RefNameIs(Ref(name), name);
    assert Ref(name) == "${" + name + "}";
  }

  /** Each reference to a registered name is replaced by its value; all others stay. */
  function RestoreRefs(names: map<string, string>, s: string): string
    decreases |s|
  {
    if s == "" then ""
    else
      var name := RefName(s);
      if name == "" then [s[0]] + RestoreRefs(names, s[1..])
      else
        RefNameIs(s, name);
        (if name in names then names[name] else Ref(name)) + RestoreRefs(names, s[|Ref(name)|..])
  }

  function CountRefs(names: map<string, string>, s: string): nat
    decreases |s|
  {
    if s == "" then 0
    else
      var name := RefName(s);
      if name == "" then CountRefs(names, s[1..])
      else
        RefNameIs(s, name);
        (if name in names then 1 else 0) + CountRefs(names, s[|Ref(name)|..])
  }

  /** A registered reference is spelled by plain characters. */
  ghost predicate PlainRef(cells: seq<Cell>, names: map<string, string>) {
    exists name :: name in names && !NoneSpelled(cells, Ref(name))
  }

  /** The tokens are references to registered names, which are identifiers. */
  ghost predicate KnownRefs(cells: seq<Cell>, names: map<string, string>, values: map<string, string>) {
    forall c :: c in cells && c.Tok? ==>
      exists name :: name in names && IsIdent(name) && c.key == Ref(name) && c.key in values && values[c.key] == names[name]
  }

  /** Names are identifiers, and no reference begins its value or is begun by it. */
  ghost predicate Restorable(names: map<string, string>) {
    forall name :: name in names ==> IsIdent(name) && !(Ref(name) <= names[name]) && !(names[name] <= Ref(name))
  }

  lemma KnownRefsRest(cells: seq<Cell>, names: map<string, string>, values: map<string, string>, n: nat)
    requires KnownRefs(cells, names, values) && n <= |cells|
    ensures KnownRefs(cells[n..], names, values)
  {
    hide Ref, IsIdent;
  }

  lemma KnownRefAt(cells: seq<Cell>, names: map<string, string>, values: map<string, string>) returns (name: string)
    requires KnownRefs(cells, names, values) && cells != [] && cells[0].Tok?
    ensures name in names && IsIdent(name) && cells[0] == Tok(Ref(name)) && Ref(name) in values && values[Ref(name)] == names[name]
  {
    hide Ref, IsIdent;
    name :| name in names && IsIdent(name) && cells[0].key == Ref(name) && cells[0].key in values && values[cells[0].key] == names[name];
  }

  lemma TextOfToken(cells: seq<Cell>, k: string)
    requires cells != [] && cells[0] == Tok(k) && k != ""
    ensures Text(cells) != "" && Text(cells)[0] == k[0]
  {
  }

  lemma OneDollar(name: string, q: nat)
    requires IsIdent(name) && 0 < q < |Ref(name)|
    ensures Ref(name)[q] != '$'
  {
    RefParts(name);
    if 2 <= q < 2 + |name| {
      assert IdentChar(name[q - 2]);
    }
  }

  /** A reference that begins with a plain character is plain throughout: no reference begins within another. */
  lemma {:induction false} RefIsSpelled(cells: seq<Cell>, names: map<string, string>, values: map<string, string>, name: string, q: nat)
    requires KnownRefs(cells, names, values) && IsIdent(name) && q <= |Ref(name)|
    requires Ref(name)[q..] <= Text(cells) && (q == 0 ==> cells != [] && cells[0].Ch?)
    ensures Spelled(cells, Ref(name)[q..])
    decreases |cells|
  {
    hide Ref, KnownRefs;
    var r := Ref(name);
    if q < |r| {
      assert cells != [];
      DropStep(r, q);
      if cells[0].Ch? {
        KnownRefsRest(cells, names, values, 1);
        PrefixTail(r, q, cells[0].c, Text(cells[1..]));
        RefIsSpelled(cells[1..], names, values, name, q + 1);
        SpelledRest(cells, r[q..]);
      } else {
        var other := KnownRefAt(cells, names, values);
        RefParts(other);
        TextOfToken(cells, Ref(other));
        OneDollar(name, q);
      }
    }
  }

  lemma NoRefSpelledIn(cells: seq<Cell>, name: string, other: string)
    requires IsIdent(name) && Spelled(cells, Ref(name)) && |Ref(name)| <= |cells|
    requires !Spelled(cells, Ref(other))
    ensures NoneSpelled(cells, Ref(other)) <==> NoneSpelled(cells[|Ref(name)|..], Ref(other))
  {
    hide Ref;
    NoneSpelledRest(cells, Ref(other), |Ref(name)|);
    if NoneSpelled(cells[|Ref(name)|..], Ref(other)) {
      forall i | 0 <= i <= |cells| ensures !Spelled(cells[i..], Ref(other)) {
        RefParts(other);
        if i == 0 {
          TakeAll(cells);
        } else if i < |Ref(name)| {
          OneDollar(name, i);
          DropStep(cells, i);
        } else {
          DropDrop(cells, |Ref(name)|, i - |Ref(name)|);
          assert !Spelled(cells[|Ref(name)|..][i - |Ref(name)|..], Ref(other));
        }
      }
    }
  }

  lemma NoPlainRef(names: map<string, string>)
    ensures !PlainRef([], names)
  {
    hide Ref;
    forall name ensures NoneSpelled([], Ref(name)) {
      NothingSpelled(Ref(name));
    }
  }

  lemma NothingRestored(names: map<string, string>)
    ensures RestoreRefs(names, "") == "" && CountRefs(names, "") == 0
  {
  }

  lemma UnfoldCells(cells: seq<Cell>, values: map<string, string>)
    requires cells != []
    ensures Text(cells) == Shown(cells[0]) + Text(cells[1..])
    ensures Expand(cells, values) == Meant(cells[0], values) + Expand(cells[1..], values)
    ensures Toks(cells) == (if cells[0].Tok? then 1 else 0) + Toks(cells[1..])
  {
  }

  lemma SamePrefix(a: string, s: string, u: string)
    ensures a + s == a + u <==> s == u
  {
    ConcatParts(a, s);
    ConcatParts(a, u);
  }

  lemma DifferentFront(a: string, s: string, b: string, u: string)
    requires !(a <= b) && !(b <= a)
    ensures a + s != b + u
  {
    if a + s == b + u {
      FrontsMeet(a, s, b, u);
    }
  }

  lemma RestoredRef(names: map<string, string>, name: string, rest: string)
    requires name != "" && IsIdent(name)
    ensures RestoreRefs(names, Ref(name) + rest) == (if name in names then names[name] else Ref(name)) + RestoreRefs(names, rest)
    ensures CountRefs(names, Ref(name) + rest) == (if name in names then 1 else 0) + CountRefs(names, rest)
  {
    hide Ref, RefName;
    var s := Ref(name) + rest;
    ConcatParts(Ref(name), rest);
    RefNameIs(s, name);
  }

  lemma RestoredToken(names: map<string, string>, name: string, rest: string)
    requires IsIdent(name) && name in names
    ensures RestoreRefs(names, Ref(name) + rest) == names[name] + RestoreRefs(names, rest)
    ensures CountRefs(names, Ref(name) + rest) == 1 + CountRefs(names, rest)
  {
    RestoredRef(names, name, rest);
  }

  lemma RestoredChar(names: map<string, string>, c: char, rest: string)
    requires RefName([c] + rest) == ""
    ensures RestoreRefs(names, [c] + rest) == [c] + RestoreRefs(names, rest) && CountRefs(names, [c] + rest) == CountRefs(names, rest)
  {
    ConsParts(c, rest);
  }

  lemma PlainRefRest(cells: seq<Cell>, names: map<string, string>)
    requires cells != [] && cells[0].Tok?
    ensures PlainRef(cells, names) <==> PlainRef(cells[1..], names)
  {
    hide Ref, NoneSpelled, Spelled;
    forall name ensures NoneSpelled(cells, Ref(name)) <==> NoneSpelled(cells[1..], Ref(name)) {
      SpelledLater(cells, Ref(name));
      TokenSpellsNothing(cells, Ref(name));
    }
  }

  /** Where no reference begins, none is spelled. */
  lemma PlainCharRest(cells: seq<Cell>, names: map<string, string>)
    requires cells != [] && RefName(Text(cells)) == "" && Restorable(names)
    ensures PlainRef(cells, names) <==> PlainRef(cells[1..], names)
  {
    hide Ref, RefName, NoneSpelled, Spelled, Text;
    forall name | name in names ensures NoneSpelled(cells, Ref(name)) <==> NoneSpelled(cells[1..], Ref(name)) {
      SpelledLater(cells, Ref(name));
      if Spelled(cells, Ref(name)) {
        SpelledReads(cells, name);
      }
    }
  }

  lemma SpelledReads(cells: seq<Cell>, name: string)
    requires IsIdent(name) && Spelled(cells, Ref(name))
    ensures RefName(Text(cells)) == name != ""
  {
    hide Ref, RefName, Spelled, Text;
    SpelledShows(cells, Ref(name), map[]);
    RefNameIs(Text(cells), name);
  }

  lemma SpelledRefIsPlain(cells: seq<Cell>, names: map<string, string>, name: string)
    requires Spelled(cells, Ref(name)) && name in names
    ensures PlainRef(cells, names)
  {
    hide Ref, Spelled;
    TakeAll(cells);
    assert Spelled(cells[0..], Ref(name));
    assert !NoneSpelled(cells, Ref(name));
  }

  /** Behind a reference to a name that is not registered nothing changes about registered ones. */
  lemma PlainRefAfter(cells: seq<Cell>, names: map<string, string>, name: string)
    requires IsIdent(name) && name !in names && Spelled(cells, Ref(name)) && |Ref(name)| <= |cells| && Restorable(names)
    ensures PlainRef(cells, names) <==> PlainRef(cells[|Ref(name)|..], names)
  {
    hide Ref, RefName, NoneSpelled, Spelled, Text;
    SpelledReads(cells, name);
    forall other | other in names ensures NoneSpelled(cells, Ref(other)) <==> NoneSpelled(cells[|Ref(name)|..], Ref(other)) {
      if Spelled(cells, Ref(other)) {
        SpelledReads(cells, other);
      }
      NoRefSpelledIn(cells, name, other);
    }
  }

  /** Reading the references back gives what the text stands for, exactly when none is spelled by plain characters. */
  lemma {:induction false} RefsRestoredIff(cells: seq<Cell>, names: map<string, string>, values: map<string, string>)
    requires KnownRefs(cells, names, values) && Restorable(names)
    ensures RestoreRefs(names, Text(cells)) == Expand(cells, values) <==> !PlainRef(cells, names)
    ensures !PlainRef(cells, names) ==> CountRefs(names, Text(cells)) == Toks(cells)
    decreases |cells|, 1
  {
    hide KnownRefs, Restorable, PlainRef, RestoreRefs, CountRefs, Toks, RefName, Ref, Text, Expand, Spelled, IsIdent;
    if cells == [] {
      NoPlainRef(names);
      NoText(values);
      NothingRestored(names);
    } else {
      KnownRefsRest(cells, names, values, 1);
      UnfoldCells(cells, values);
      if cells[0].Tok? {
        var name := KnownRefAt(cells, names, values);
        RefsRestoredIff(cells[1..], names, values);
        RestoredToken(names, name, Text(cells[1..]));
        SamePrefix(names[name], RestoreRefs(names, Text(cells[1..])), Expand(cells[1..], values));
        PlainRefRest(cells, names);
      } else if RefName(Text(cells)) == "" {
        RefsRestoredIff(cells[1..], names, values);
        RestoredChar(names, cells[0].c, Text(cells[1..]));
        SamePrefix([cells[0].c], RestoreRefs(names, Text(cells[1..])), Expand(cells[1..], values));
        PlainCharRest(cells, names);
      } else {
        RefsRestoredAtRef(cells, names, values, RefName(Text(cells)));
      }
    }
  }

  lemma RefsRestoredAtRef(cells: seq<Cell>, names: map<string, string>, values: map<string, string>, name: string)
    requires KnownRefs(cells, names, values) && Restorable(names)
    requires cells != [] && cells[0].Ch? && name != "" && RefName(Text(cells)) == name
    ensures RestoreRefs(names, Text(cells)) == Expand(cells, values) <==> !PlainRef(cells, names)
    ensures !PlainRef(cells, names) ==> CountRefs(names, Text(cells)) == Toks(cells)
    decreases |cells|, 0
  {
    hide KnownRefs, PlainRef, RestoreRefs, CountRefs, Toks, RefName, Ref, Text, Expand, Spelled, IsIdent;
    var r := Ref(name);
    RefNameIs(Text(cells), name);
    TakeAll(r);
    RefIsSpelled(cells, names, values, name, 0);
    SpelledNonEmpty(cells, r);
    SpelledShows(cells, r, values);
    KnownRefsRest(cells, names, values, |r|);
    var rest := cells[|r|..];
    RestoredRef(names, name, Text(rest));
    if name in names {
      SpelledRefIsPlain(cells, names, name);
      DifferentFront(names[name], RestoreRefs(names, Text(rest)), r, Expand(rest, values));
    } else {
      RefsRestoredIff(rest, names, values);
      SamePrefix(r, RestoreRefs(names, Text(rest)), Expand(rest, values));
      PlainRefAfter(cells, names, name);
    }
  }

  // References in what the text stands for.

  /** The cells with each token's value shown in its place. */
  ghost function ValueCells(cells: seq<Cell>, values: map<string, string>): seq<Cell> {
    if cells == [] then []
    else [if cells[0].Ch? then cells[0] else Tok(Meant(cells[0], values))] + ValueCells(cells[1..], values)
  }

  lemma {:induction false} ValueCellsShow(cells: seq<Cell>, values: map<string, string>)
    ensures Text(ValueCells(cells, values)) == Expand(cells, values)
  {
    if cells != [] {
      ValueCellsShow(cells[1..], values);
      ConsParts(if cells[0].Ch? then cells[0] else Tok(Meant(cells[0], values)), ValueCells(cells[1..], values));
    }
  }

  lemma {:induction false} ValueCellsSpell(cells: seq<Cell>, values: map<string, string>, w: string)
    requires w != ""
    ensures NoneSpelled(ValueCells(cells, values), w) <==> NoneSpelled(cells, w)
  {
    hide NoneSpelled, Spelled, Meant;
    if cells != [] {
      var vs := ValueCells(cells, values);
      ConsParts(if cells[0].Ch? then cells[0] else Tok(Meant(cells[0], values)), ValueCells(cells[1..], values));
      ValueCellsSpell(cells[1..], values, w);
      SpelledLater(cells, w);
      SpelledLater(vs, w);
      SpellTheSame(cells, values, w);
    }
  }

  lemma {:induction false} SpellTheSame(cells: seq<Cell>, values: map<string, string>, w: string)
    ensures Spelled(ValueCells(cells, values), w) <==> Spelled(cells, w)
    decreases |w|
  {
    hide Spelled, Meant;
    if w == "" {
      SpellNothing(cells);
      SpellNothing(ValueCells(cells, values));
    } else if cells == [] {
      assert ValueCells(cells, values) == cells;
    } else {
      ConsParts(if cells[0].Ch? then cells[0] else Tok(Meant(cells[0], values)), ValueCells(cells[1..], values));
      SpelledRest(cells, w);
      SpelledRest(ValueCells(cells, values), w);
      SpellTheSame(cells[1..], values, w[1..]);
    }
  }

  lemma SpellNothing(cells: seq<Cell>)
    ensures Spelled(cells, "")
  {
  }

  lemma {:induction false} ValueTokens(cells: seq<Cell>, values: map<string, string>)
    ensures forall c :: c in ValueCells(cells, values) && c.Tok? ==> exists d :: d in cells && d.Tok? && c.key == Meant(d, values)
  {
    hide Meant;
    if cells != [] {
      ValueTokens(cells[1..], values);
      forall c | c in ValueCells(cells, values) && c.Tok? ensures exists d :: d in cells && d.Tok? && c.key == Meant(d, values) {
        if c !in ValueCells(cells[1..], values) {
          assert cells[0] in cells && c.key == Meant(cells[0], values);
        } else {
          var d :| d in cells[1..] && d.Tok? && c.key == Meant(d, values);
          assert d in cells;
        }
      }
    }
  }

  lemma UnlikeBack(k: string, v: string)
    requires Unlike(k, v) && k != ""
    ensures Unlike(v, k) && !(k <= v) && !(v <= k)
  {
    AtFront(k, v);
    AtFront(v, k);
    TakeAll(k);
    TakeAll(v);
    forall n | 0 < n <= |k| && n < |v| ensures k[|k| - n..] != v[..n] && k[..n] != v[|v| - n..] {
      if n == |k| {
        assert !(k <= v);
        EndOccurs(k, v);
      }
    }
  }

  lemma EndOccurs(k: string, v: string)
    requires |k| <= |v|
    ensures v[|v| - |k|..] == k ==> Occurs(k, v)
  {
    if v[|v| - |k|..] == k {
      assert At(k, v, |v| - |k|);
    }
  }

  lemma SpelledOccurs(cells: seq<Cell>, w: string, values: map<string, string>)
    requires !NoneSpelled(cells, w)
    ensures Occurs(w, Expand(cells, values))
  {
    hide Expand, Spelled;
    var i :| 0 <= i <= |cells| && Spelled(cells[i..], w);
    SpelledNonEmpty(cells[i..], w);
    SpelledShows(cells[i..], w, values);
    TakeDrop(cells, i);
    ExpandConcat(cells[..i], cells[i..], values);
    var before, after := Expand(cells[..i], values), Expand(cells[i..][|w|..], values);
    Assoc(before, w, after);
    assert At(w, w, 0);
    OccursInPart(w, before, w, after);
  }

  /** A reference is spelled exactly when it is in what the text stands for. */
  lemma SpelledIffOccurs(cells: seq<Cell>, w: string, values: map<string, string>)
    requires w != "" && forall c :: c in cells && c.Tok? ==> Unlike(w, Meant(c, values))
    ensures !NoneSpelled(cells, w) <==> Occurs(w, Expand(cells, values))
  {
    hide NoneSpelled, Unlike, Meant, Expand, At, Text;
    if !NoneSpelled(cells, w) {
      SpelledOccurs(cells, w, values);
    }
    if Occurs(w, Expand(cells, values)) {
      var p: nat :| At(w, Expand(cells, values), p);
      ValueCellsShow(cells, values);
      ValueTokens(cells, values);
      OccursSpelled(ValueCells(cells, values), w, p);
      ValueCellsSpell(cells, values, w);
    }
  }

  // The round trip.

  ghost predicate Identifiers(ss: seq<Secret>) {
    forall s :: s in ss ==> IsIdent(s.name)
  }

  ghost predicate NoRefIn(ss: seq<Secret>, text: string) {
    forall s :: s in ss ==> !Occurs(Ref(s.name), text)
  }

  ghost function RefValues(names: map<string, string>): map<string, string> {
    map k | k in set name | name in names :: Ref(name) :: names[RefOwner(names, k)]
  }

  ghost function RefOwner(names: map<string, string>, k: string): string
    requires k in set name | name in names :: Ref(name)
    ensures RefOwner(names, k) in names && Ref(RefOwner(names, k)) == k
  {
    var name :| name in names && Ref(name) == k;
    name
  }

  lemma RefInjective(a: string, b: string)
    requires Ref(a) == Ref(b)
    ensures a == b
  {
    RefParts(a);
    RefParts(b);
    forall i | 0 <= i < |a| ensures a[i] == b[i] {
      assert Ref(a)[2 + i] == Ref(b)[2 + i];
    }
  }

  lemma RefValue(names: map<string, string>, name: string)
    requires name in names
    ensures Ref(name) in RefValues(names) && RefValues(names)[Ref(name)] == names[name]
  {
    hide Ref;
    RefInjective(name, RefOwner(names, Ref(name)));
  }

  lemma FiledFacts(ss: seq<Secret>, names: map<string, string>)
    requires Filed(ss, names)
    ensures NoEmptyValue(ss) && StandFor(ss, RefValues(names))
  {
    hide RefValues, Ref;
    forall s | s in ss ensures Ref(s.name) in RefValues(names) && RefValues(names)[Ref(s.name)] == s.value {
      RefValue(names, s.name);
    }
  }

  lemma IdentifiersAreRestorable(ss: seq<Secret>, names: map<string, string>)
    requires Filed(ss, names) && Identifiers(ss) && KnownApart(ss)
    ensures Restorable(names)
  {
    hide Unlike, Ref, IsIdent;
    forall name | name in names ensures IsIdent(name) && !(Ref(name) <= names[name]) && !(names[name] <= Ref(name)) {
      var s := Secret(name, names[name]);
      assert s in ss;
      UnlikeBack(s.value, Ref(s.name));
    }
  }

  lemma RefsAreKnown(cells: seq<Cell>, ss: seq<Secret>, names: map<string, string>, values: map<string, string>)
    requires Filed(ss, names) && Identifiers(ss) && StandFor(ss, values) && RefsOnly(cells, ss)
    ensures KnownRefs(cells, names, values)
  {
    hide Ref, IsIdent, Usable;
    forall c | c in cells && c.Tok?
      ensures exists name :: name in names && IsIdent(name) && c.key == Ref(name) && c.key in values && values[c.key] == names[name]
    {
      var s :| s in ss && c.key == Ref(s.name);
      assert s.name in names;
    }
  }

  lemma RefsAreUnlikeValues(cells: seq<Cell>, ss: seq<Secret>, values: map<string, string>, s: Secret)
    requires RefsOnly(cells, ss) && StandFor(ss, values) && KnownApart(ss) && NoEmptyValue(ss) && s in ss
    ensures forall c :: c in cells && c.Tok? ==> Unlike(Ref(s.name), Meant(c, values))
  {
    hide Unlike, Ref;
    forall c | c in cells && c.Tok? ensures Unlike(Ref(s.name), Meant(c, values)) {
      var other :| other in ss && c.key == Ref(other.name);
      UnlikeBack(other.value, Ref(s.name));
    }
  }

  lemma PlainRefIff(cells: seq<Cell>, ss: seq<Secret>, names: map<string, string>, values: map<string, string>)
    requires Filed(ss, names) && RefsOnly(cells, ss) && StandFor(ss, values) && KnownApart(ss) && NoEmptyValue(ss)
    ensures PlainRef(cells, names) <==> !NoRefIn(ss, Expand(cells, values))
  {
    hide RefsOnly, StandFor, KnownApart, NoEmptyValue, Ref, NoneSpelled, Occurs, Usable, Expand;
    forall s | s in ss ensures !NoneSpelled(cells, Ref(s.name)) <==> Occurs(Ref(s.name), Expand(cells, values)) {
      RefsAreUnlikeValues(cells, ss, values, s);
      SpelledIffOccurs(cells, Ref(s.name), values);
    }
    forall name | name in names ensures Secret(name, names[name]) in ss {
    }
  }

  /** With identifiers for names and values apart from the references, reading the references back
      undoes the pass exactly for texts that hold no reference to a registered name; and then as many are
      read back as were put in. */
  lemma KnownRoundTripIff(ss: seq<Secret>, names: map<string, string>, text: string)
    requires Filed(ss, names) && Identifiers(ss) && KnownApart(ss)
    ensures NoEmptyValue(ss)
    ensures RestoreRefs(names, KnownPass(ss, text)) == text <==> NoRefIn(ss, text)
    ensures NoRefIn(ss, text) ==> CountRefs(names, KnownPass(ss, text)) == KnownCount(ss, text)
  {
    hide *;
    FiledFacts(ss, names);
    var cells := PassCells(ss, text, RefValues(names));
    IdentifiersAreRestorable(ss, names);
    RefsAreKnown(cells, ss, names, RefValues(names));
    RefsRestoredIff(cells, names, RefValues(names));
    PlainRefIff(cells, ss, names, RefValues(names));
  }

  /** A name that is no identifier is written into a text and never read back. */
  lemma OddNameIsLost()
    ensures var s := Secret("my-key", "hunter22");
            FirstOfName([s], s) && KnownPass([s], s.value) == "${my-key}" && RestoreRefs(map[s.name := s.value], "${my-key}") == "${my-key}"
  {
    var s := Secret("my-key", "hunter22");
    assert [s][0] == s && [s][1..] == [];
    assert "${" + s.name + "}" == "${my-key}";
    ReplacedWhole(s.value, Ref(s.name));
    OddStays();
  }

  lemma ReplacedWhole(v: string, k: string)
    requires v != ""
    ensures ReplaceAll(v, v, k) == k
  {
    TakeAll(v);
    ReplacedFront(v, v, k);
  }

  lemma OddStays()
    ensures RestoreRefs(map["my-key" := "hunter22"], "${my-key}") == "${my-key}"
  {
    var s := "${my-key}";
    assert NameEnd(s, 4) == 4;
    assert NameEnd(s, 2) == 4;
    NoDollarNoRef(map["my-key" := "hunter22"], s[1..]);
    Cons(s);
  }

  lemma {:induction false} NoDollarNoRef(names: map<string, string>, s: string)
    requires forall i :: 0 <= i < |s| ==> s[i] != '$'
    ensures RestoreRefs(names, s) == s && CountRefs(names, s) == 0
  {
    if s != "" {
      assert s[0] != "${"[0];
      NoDollarNoRef(names, s[1..]);
      Cons(s);
    }
  }

  // When values and references have nothing in common.

  /** No dollar sign and no brace. */
  predicate Unmarked(v: string) {
    forall i :: 0 <= i < |v| ==> v[i] != '$' && v[i] != '{' && v[i] != '}'
  }

  lemma ApartFromRef(v: string, name: string)
    requires v != "" && Unmarked(v) && !Occurs(v, name)
    ensures Unlike(v, Ref(name))
  {
    hide Occurs;
    var r := Ref(name);
    RefParts(name);
    NotInRef(v, name);
    NoDollarNoneIn(v, name);
    forall n | 0 < n <= |r| && n < |v| ensures r[|r| - n..] != v[..n] && r[..n] != v[|v| - n..] {
      assert r[|r| - n..][n - 1] == '}' && v[..n][n - 1] == v[n - 1];
      assert r[..n][0] == '$' && v[|v| - n..][0] == v[|v| - n];
    }
  }

  lemma NotInRef(v: string, name: string)
    requires v != "" && Unmarked(v) && !Occurs(v, name)
    ensures !Occurs(v, Ref(name))
  {
    RefParts(name);
    forall p: nat ensures !At(v, Ref(name), p) {
      if At(v, Ref(name), p) {
        FirstOf(v, Ref(name), p);
        assert Ref(name)[p..p + |v|] == name[p - 2..p - 2 + |v|];
        assert At(v, name, p - 2);
      }
    }
  }

  /** Values without marks that lie in no registered name are apart from all references. */
  lemma UnmarkedAreApart(ss: seq<Secret>)
    requires NoEmptyValue(ss) && forall s :: s in ss ==> Unmarked(s.value)
    requires forall a, b :: a in ss && b in ss ==> !Occurs(a.value, b.name)
    ensures KnownApart(ss)
  {
    hide Unmarked, Occurs, Unlike, Ref;
    forall a, b | a in ss && b in ss ensures Unlike(a.value, Ref(b.name)) {
      ApartFromRef(a.value, b.name);
    }
  }

  // A value that is another secret's name.

  const OWNER := Secret("OTHERS", "longest")
  const NAMESAKE := Secret("X", "OTHERS")
  const BOTH := map["OTHERS" := "longest", "X" := "OTHERS"]

  /** Values apart from references is what the round trip needs: a value that is another secret's name
      is replaced within that secret's reference, which then no longer reads back. */
  lemma ValueThatIsAName()
    ensures var ss := [OWNER, NAMESAKE];
            && Filed(ss, BOTH) && Sorted(ss, LongerFirst) && Identifiers(ss) && NoRefIn(ss, "longest")
            && KnownPass(ss, "longest") == "${${X}}" && RestoreRefs(BOTH, "${${X}}") == "${OTHERS}"
  {
    hide *;
    BothAreFiled();
    NoneInLongest();
    NestedPass();
    NestedRestore();
  }

  lemma BothAreFiled()
    ensures var ss := [OWNER, NAMESAKE]; Filed(ss, BOTH) && Sorted(ss, LongerFirst) && Identifiers(ss)
  {
    hide LexLess, Ref;
    assert |OWNER.value| == 7 && |NAMESAKE.value| == 6;
  }

  lemma NoneInLongest()
    ensures NoRefIn([OWNER, NAMESAKE], "longest")
  {
    hide Occurs, Ref;
    NoDollarNoneIn("longest", "OTHERS");
    NoDollarNoneIn("longest", "X");
  }

  lemma NoDollarNoneIn(text: string, name: string)
    requires forall i :: 0 <= i < |text| ==> text[i] != '$'
    ensures !Occurs(Ref(name), text)
  {
    RefParts(name);
    forall p: nat ensures !At(Ref(name), text, p) {
      if At(Ref(name), text, p) {
        FirstOf(Ref(name), text, p);
      }
    }
  }

  lemma NestedPass()
    ensures KnownPass([OWNER, NAMESAKE], "longest") == "${${X}}"
  {
    var s := "${OTHERS}";
    assert [OWNER, NAMESAKE][1..] == [NAMESAKE] && [NAMESAKE][1..] == [];
    assert Ref("OTHERS") == s && Ref("X") == "${X}";
    ReplacedWhole("longest", s);
    assert s[0..][0] == '$' && s[1..][0] == '{';
    SkipTo(s, "OTHERS", "${X}", 2);
    assert s[2..] == "OTHERS}" && s[..2] == "${";
    ReplacedFront("OTHERS}", "OTHERS", "${X}");
    assert "OTHERS}"[6..] == "}";
    assert ReplaceAll(s, "OTHERS", "${X}") == "${" + ("${X}" + "}") == "${${X}}";
    hide ReplaceAll;
    assert KnownPass([NAMESAKE], s) == KnownPass([], "${${X}}") == "${${X}}";
  }

  lemma NestedRestore()
    ensures RestoreRefs(BOTH, "${${X}}") == "${OTHERS}"
  {
    var s := "${${X}}";
    assert NameEnd(s, 2) == 2;
    assert s[1..] == "{${X}}" && "{${X}}"[1..] == "${X}}";
    assert Ref("X") == "${X}" && "${X}" + "}" == "${X}}";
    RestoredRef(BOTH, "X", "}");
    NoDollarNoRef(BOTH, "}");
    assert RestoreRefs(BOTH, "{${X}}") == ['{'] + RestoreRefs(BOTH, "${X}}");
    assert RestoreRefs(BOTH, s) == ['$'] + (['{'] + ("OTHERS" + "}")) == "${OTHERS}";
  }
}
