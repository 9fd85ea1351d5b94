/** Streams with both tiers: tokens and references to registered secrets put back as chunks come in. */
module StreamTiers {
  import opened TokenTable
  import opened TokenCells
  import opened TokenParse
  import opened PlainTokens
  import opened Replacing
  import opened Sequences
  import opened KnownSecrets
  import opened StreamRestore

  function RefTokens(ss: seq<Secret>): (refs: seq<string>)
    ensures |refs| == |ss| && forall i :: 0 <= i < |ss| ==> refs[i] == Ref(ss[i].name)
  {
    seq(|ss|, i requires 0 <= i < |ss| => Ref(ss[i].name))
  }

  function RefSets(kss: seq<KnownSet>): (sets: seq<seq<string>>)
    ensures |sets| == |kss| && forall j :: 0 <= j < |kss| ==> sets[j] == RefTokens(kss[j].byLen)
  {
    seq(|kss|, j requires 0 <= j < |kss| => RefTokens(kss[j].byLen))
  }

  /** What the restorer looks for at each chunk: the table's tokens, then the references. */
  function Candidates(sets: seq<seq<string>>, kss: seq<KnownSet>): (all: seq<seq<string>>)
    requires |sets| == |kss|
    ensures |all| == |sets| && forall j :: 0 <= j < |sets| ==> all[j] == sets[j] + RefTokens(kss[j].byLen)
  {
    seq(|sets|, j requires 0 <= j < |sets| => sets[j] + RefTokens(kss[j].byLen))
  }

  // References read in two parts.

  lemma {:induction false} SkipUndollared(names: map<string, string>, w: string, rest: string)
    requires forall i :: 0 <= i < |w| ==> w[i] != '$'
    ensures RestoreRefs(names, w + rest) == w + RestoreRefs(names, rest)
  {
    hide RestoreRefs, RefName;
    if w == "" {
      assert w + rest == rest;
    } else {
      Cons(w);
      Assoc([w[0]], w[1..], rest);
      NoRefHere(w[0], w[1..] + rest);
      RestoredChar(names, w[0], w[1..] + rest);
      SkipUndollared(names, w[1..], rest);
      Assoc([w[0]], w[1..], RestoreRefs(names, rest));
    }
  }

  lemma NoRefHere(c: char, rest: string)
    requires c != '$'
    ensures RefName([c] + rest) == ""
  {
    assert ([c] + rest)[0] != "${"[0];
  }

  /** No reference to a name goes from the one text into the other. */
  ghost predicate NoRefAcross(names: map<string, string>, a: string, b: string) {
    forall name, p: nat :: name in names && IsIdent(name) ==> !Straddles(Ref(name), a, b, p)
  }

  lemma NoRefAcrossShift(names: map<string, string>, a: string, b: string, n: nat)
    requires NoRefAcross(names, a, b) && n <= |a|
    ensures NoRefAcross(names, a[n..], b)
  {
    hide Straddles, Ref, IsIdent;
    forall name, p: nat | name in names && IsIdent(name) ensures !Straddles(Ref(name), a[n..], b, p) {
      if Straddles(Ref(name), a[n..], b, p) {
        StraddleShift(Ref(name), a, b, n, p);
      }
    }
  }

  /** Then the two are read each for itself, whatever unregistered references stand there. */
  lemma {:induction false} RefsConcat(names: map<string, string>, a: string, b: string)
    requires NoRefAcross(names, a, b)
    ensures RestoreRefs(names, a + b) == RestoreRefs(names, a) + RestoreRefs(names, b)
    decreases |a|
  {
    hide RestoreRefs, RefName, NoRefAcross, Ref, IsIdent;
    if a == "" {
      assert a + b == b;
      NothingRestored(names);
      assert "" + RestoreRefs(names, b) == RestoreRefs(names, b);
    } else {
      var name := RefName(a + b);
      if name == "" {
        NoRefInPart(a, b);
        Cons(a);
        Assoc([a[0]], a[1..], b);
        NoRefAcrossShift(names, a, b, 1);
        RefsConcat(names, a[1..], b);
        RestoredChar(names, a[0], a[1..] + b);
        RestoredChar(names, a[0], a[1..]);
        Assoc([a[0]], RestoreRefs(names, a[1..]), RestoreRefs(names, b));
      } else {
        RefsConcatAtRef(names, a, b, name);
      }
    }
  }

  lemma NoRefInPart(a: string, b: string)
    requires RefName(a + b) == ""
    ensures RefName(a) == ""
  {
    hide RefName, Ref, IsIdent;
    var name := RefName(a);
    if name != "" {
      RefNameIs(a, name);
      PrefixOfLonger(Ref(name), a, b);
      RefNameIs(a + b, name);
    }
  }

  lemma PrefixOfLonger(w: string, a: string, b: string)
    ensures w <= a ==> w <= a + b
    ensures w <= a + b && |w| <= |a| ==> w <= a
  {
    if w <= a + b && |w| <= |a| {
      assert (a + b)[..|w|] == a[..|w|];
    }
  }

  lemma RefsConcatAtRef(names: map<string, string>, a: string, b: string, name: string)
    requires NoRefAcross(names, a, b) && a != "" && name != "" && RefName(a + b) == name
    ensures RestoreRefs(names, a + b) == RestoreRefs(names, a) + RestoreRefs(names, b)
    decreases |a|, 0
  {
    hide RestoreRefs, RefName, NoRefAcross, Ref, IsIdent;
    var r := Ref(name);
    RefNameIs(a + b, name);
    PrefixOfLonger(r, a, b);
    if |r| <= |a| {
      TakeDrop(a, |r|);
      assert a[..|r|] == r;
      var rest := a[|r|..];
      Assoc(r, rest, b);
      NoRefAcrossShift(names, a, b, |r|);
      RefsConcat(names, rest, b);
      RestoredRef(names, name, rest + b);
      RestoredRef(names, name, rest);
      Assoc(if name in names then names[name] else r, RestoreRefs(names, rest), RestoreRefs(names, b));
    } else {
      CutRef(names, a, b, name);
    }
  }

  /** A reference cut in two is not registered, and stays as it is in one piece or in two. */
  lemma CutRef(names: map<string, string>, a: string, b: string, name: string)
    requires NoRefAcross(names, a, b) && a != "" && IsIdent(name) && Ref(name) <= a + b && |Ref(name)| > |a|
    ensures RestoreRefs(names, a + b) == RestoreRefs(names, a) + RestoreRefs(names, b)
  {
    hide RestoreRefs, RefName;
    var r := Ref(name);
    RefHalves(a, b, r);
    var tail, rest := r[|a|..], b[|r| - |a|..];
    assert name !in names;
    RestoredRef(names, name, rest);
    Assoc(a, tail, rest);
    forall i | 0 <= i < |tail| ensures tail[i] != '$' {
      OneDollar(name, |a| + i);
    }
    SkipUndollared(names, tail, rest);
    HalfRefStays(names, a, name);
    Assoc(a, tail, RestoreRefs(names, rest));
  }

  lemma RefHalves(a: string, b: string, r: string)
    requires a != "" && r <= a + b && |r| > |a|
    ensures r == a + r[|a|..] && b == r[|a|..] + b[|r| - |a|..] && a + b == r + b[|r| - |a|..]
    ensures Straddles(r, a, b, 0)
  {
    assert r == (a + b)[..|r|];
    assert (a + b)[0..|r|] == r;
  }

  lemma HalfRefStays(names: map<string, string>, a: string, name: string)
    requires a != "" && IsIdent(name) && |a| < |Ref(name)| && a == Ref(name)[..|a|]
    ensures RestoreRefs(names, a) == a
  {
    hide RestoreRefs, RefName;
    RefParts(name);
    forall i | 1 <= i < |a| ensures a[i] != '$' {
      OneDollar(name, i);
    }
    HalfRefReadsAsNone(a, name);
    Cons(a);
    RestoredChar(names, a[0], a[1..]);
    NoDollarNoRef(names, a[1..]);
  }

  lemma HalfRefReadsAsNone(a: string, name: string)
    requires a != "" && IsIdent(name) && |a| < |Ref(name)| && a == Ref(name)[..|a|]
    ensures RefName(a) == ""
  {
    hide RefName, Ref;
    var other := RefName(a);
    if other != "" {
      RefNameIs(a, other);
      TakeDrop(Ref(name), |a|);
      PrefixOfLonger(Ref(other), a, Ref(name)[|a|..]);
      RefNameIs(Ref(name), other);
      RefNameIs(Ref(name), name);
    }
  }

  /** Names whose references are not in a text play no part in reading it. */
  lemma {:induction false} FewerNames(older: map<string, string>, names: map<string, string>, s: string)
    requires forall name :: name in older ==> name in names && names[name] == older[name]
    requires forall name :: name in names && name !in older && IsIdent(name) ==> !Occurs(Ref(name), s)
    ensures RestoreRefs(older, s) == RestoreRefs(names, s)
    decreases |s|
  {
    hide RefName, Ref, Occurs, IsIdent;
    if s != "" {
      var name := RefName(s);
      if name == "" {
        FewerStill(older, names, s, 1);
        FewerNames(older, names, s[1..]);
      } else {
        RefNameIs(s, name);
        RefOccurs(name, s);
        FewerStill(older, names, s, |Ref(name)|);
        FewerNames(older, names, s[|Ref(name)|..]);
      }
    }
  }

  lemma RefOccurs(name: string, s: string)
    requires Ref(name) <= s
    ensures Occurs(Ref(name), s)
  {
    hide Ref;
    AtFront(Ref(name), s);
  }

  lemma FewerStill(older: map<string, string>, names: map<string, string>, s: string, n: nat)
    requires n <= |s| && forall name :: name in names && name !in older && IsIdent(name) ==> !Occurs(Ref(name), s)
    ensures forall name :: name in names && name !in older && IsIdent(name) ==> !Occurs(Ref(name), s[n..])
  {
    hide Ref, Occurs, IsIdent;
    forall name | name in names && name !in older && IsIdent(name) ensures !Occurs(Ref(name), s[n..]) {
      if Occurs(Ref(name), s[n..]) {
        OccursInDrop(Ref(name), s, n);
      }
    }
  }

  // References in the meaning of a text are in the text.

  /** A word's beginning at the end of the text is spelled by plain characters. */
  lemma {:induction false} EndIsSpelled(cells: seq<Cell>, w: string, q: nat)
    requires Clear(cells, w) && q < |w| && |Text(cells)| >= q && Text(cells)[|Text(cells)| - q..] == w[..q]
    ensures q <= |cells| && Spelled(cells[|cells| - q..], w[..q])
    decreases q
  {
    hide Clear, Unlike, Text;
    if q > 0 {
      EmptyShowsNothing(cells);
      var n := |cells| - 1;
      TextSnoc(cells);
      ClearInit(cells, w);
      var shown, before := Shown(cells[n]), Text(cells[..n]);
      if cells[n].Ch? {
        LastOfEnd(before, cells[n].c, w, q);
        EndIsSpelled(cells[..n], w, q - 1);
        SpelledSnoc(cells, w, q);
      } else {
        NotAtEnd(w, q, shown, before);
      }
    }
  }

  lemma EmptyShowsNothing(cells: seq<Cell>)
    ensures Text(cells) != "" ==> cells != []
  {
  }

  lemma TextSnoc(cells: seq<Cell>)
    requires cells != []
    ensures Text(cells) == Text(cells[..|cells| - 1]) + Shown(cells[|cells| - 1])
  {
    var n := |cells| - 1;
    assert cells == cells[..n] + [cells[n]];
    TextConcat(cells[..n], [cells[n]]);
  }

  lemma ClearInit(cells: seq<Cell>, w: string)
    requires Clear(cells, w) && cells != []
    ensures Clear(cells[..|cells| - 1], w)
    ensures cells[|cells| - 1].Tok? ==> Unlike(w, cells[|cells| - 1].key)
  {
    hide Unlike;
  }

  lemma LastOfEnd(before: string, c: char, w: string, q: nat)
    requires 0 < q <= |w| && |before| + 1 >= q && (before + [c])[|before| + 1 - q..] == w[..q]
    ensures w[q - 1] == c && |before| >= q - 1 && before[|before| - (q - 1)..] == w[..q - 1]
  {
    var s := before + [c];
    var k := |before| + 1 - q;
    assert s[k..][q - 1] == s[|before|];
    assert s[k..][..q - 1] == before[k..];
    assert w[..q][..q - 1] == w[..q - 1];
  }

  lemma SpelledSnoc(cells: seq<Cell>, w: string, q: nat)
    requires 0 < q <= |w| && q <= |cells| && cells[|cells| - 1] == Ch(w[q - 1])
    requires Spelled(cells[..|cells| - 1][|cells| - 1 - (q - 1)..], w[..q - 1])
    ensures Spelled(cells[|cells| - q..], w[..q])
  {
    var n := |cells| - 1;
    var end := cells[|cells| - q..];
    forall i | 0 <= i < q ensures end[i] == Ch(w[..q][i]) {
      if i < q - 1 {
        assert cells[..n][n - (q - 1)..][i] == Ch(w[..q - 1][i]);
      }
    }
  }

  lemma NotAtEnd(w: string, q: nat, v: string, before: string)
    requires Unlike(w, v) && 0 < q < |w| && |before + v| >= q
    ensures (before + v)[|before + v| - q..] != w[..q]
  {
    var s := before + v;
    if q <= |v| {
      assert s[|s| - q..] == v[|v| - q..];
    } else if s[|s| - q..] == w[..q] {
      EndHolds(before, v, w, q);
    }
  }

  lemma EndHolds(before: string, v: string, w: string, q: nat)
    requires |v| < q <= |w| && q <= |before + v| && (before + v)[|before + v| - q..] == w[..q]
    ensures Occurs(v, w)
  {
    var s := before + v;
    assert w[q - |v|..q] == s[|s| - q..][q - |v|..] == v;
    assert At(v, w, q - |v|);
  }

  lemma {:induction false} ValueClear(cells: seq<Cell>, values: map<string, string>, w: string)
    requires forall c :: c in cells && c.Tok? ==> Unlike(w, Meant(c, values))
    ensures Clear(ValueCells(cells, values), w)
  {
    hide Unlike, Meant;
    ValueTokens(cells, values);
  }

  lemma {:induction false} ValueCellsAt(cells: seq<Cell>, values: map<string, string>)
    ensures |ValueCells(cells, values)| == |cells|
    ensures forall i :: 0 <= i < |cells| ==> (cells[i].Ch? <==> ValueCells(cells, values)[i].Ch?)
                                             && (cells[i].Ch? ==> ValueCells(cells, values)[i] == cells[i])
  {
    if cells != [] {
      ValueCellsAt(cells[1..], values);
    }
  }

  lemma SpelledAlso(cells: seq<Cell>, vs: seq<Cell>, n: nat, w: string)
    requires |vs| == |cells| && n <= |cells| && Spelled(vs[n..], w)
    requires forall i :: 0 <= i < |cells| ==> (cells[i].Ch? <==> vs[i].Ch?) && (cells[i].Ch? ==> vs[i] == cells[i])
    ensures Spelled(cells[n..], w)
  {
    forall i | 0 <= i < |w| ensures cells[n..][i] == Ch(w[i]) {
      assert vs[n..][i] == Ch(w[i]);
    }
  }

  /** A word unlike all values that goes across in the meaning goes across in the text. */
  lemma AcrossInText(a: seq<Cell>, b: seq<Cell>, values: map<string, string>, w: string, p: nat)
    requires forall c :: (c in a || c in b) && c.Tok? ==> Unlike(w, Meant(c, values))
    requires Straddles(w, Expand(a, values), Expand(b, values), p)
    ensures p <= |Expand(a, values)| && |Expand(a, values)| - p <= |Text(a)|
    ensures Straddles(w, Text(a), Text(b), |Text(a)| - (|Expand(a, values)| - p))
  {
    hide Unlike, Meant, Text, Expand, Clear, Spelled, ValueCells, Straddles;
    var x, y := Expand(a, values), Expand(b, values);
    var q := |x| - p;
    HalvesOf(w, x, y, p);
    ValueClear(a, values, w);
    ValueClear(b, values, w);
    ValueCellsShow(a, values);
    ValueCellsShow(b, values);
    EndIsSpelled(ValueCells(a, values), w, q);
    ValueCellsAt(a, values);
    SpelledAlso(a, ValueCells(a, values), |a| - q, w[..q]);
    FrontIsSpelled(ValueCells(b, values), w, q);
    SpellTheSame(b, values, w[q..]);
    SpelledShows(b, w[q..], values);
    EndShows(a, w[..q]);
    WholeAcross(Text(a), Text(b), w, q);
  }

  lemma HalvesOf(w: string, x: string, y: string, p: nat)
    requires Straddles(w, x, y, p)
    ensures var q := |x| - p; 0 < q < |w| && q <= |x| && x[|x| - q..] == w[..q] && w[q..] <= y
  {
    var q := |x| - p;
    assert (x + y)[p..p + |w|][..q] == x[p..];
    assert (x + y)[p..p + |w|][q..] == y[..|w| - q];
  }

  lemma EndShows(cells: seq<Cell>, w: string)
    requires |w| <= |cells| && Spelled(cells[|cells| - |w|..], w)
    ensures |w| <= |Text(cells)| && Text(cells)[|Text(cells)| - |w|..] == w
  {
    hide Text, Spelled;
    var n := |cells| - |w|;
    SpelledShows(cells[n..], w, map[]);
    DropDrop(cells, n, |w|);
    TakeDrop(cells, n);
    TextConcat(cells[..n], cells[n..]);
    NoText(map[]);
    assert cells[n..][|w|..] == [];
    ConcatParts(Text(cells[..n]), w);
  }

  lemma WholeAcross(a: string, b: string, w: string, q: nat)
    requires 0 < q < |w| && q <= |a| && a[|a| - q..] == w[..q] && w[q..] <= b
    ensures Straddles(w, a, b, |a| - q)
  {
    var p := |a| - q;
    TakeDrop(w, q);
    assert b[..|w| - q] == w[q..];
    assert (a + b)[p..p + |w|] == a[p..] + b[..|w| - q];
  }

  /** The values of tokens have nothing in common with references. */
  ghost predicate RefsApart(tokens: seq<string>, values: map<string, string>, names: map<string, string>) {
    forall name, t :: name in names && t in tokens && t in values ==> Unlike(Ref(name), values[t])
  }

  lemma CellsApart(tokens: seq<string>, values: map<string, string>, names: map<string, string>, s: string, name: string)
    requires RefsApart(tokens, values, names) && (forall t :: t in tokens ==> t in values) && name in names
    ensures forall c :: c in Parse(tokens, s) && c.Tok? ==> Unlike(Ref(name), Meant(c, values))
  {
    hide Unlike, Ref, Parse;
    ParseShows(tokens, s);
    forall c | c in Parse(tokens, s) && c.Tok? ensures Unlike(Ref(name), Meant(c, values)) {
      var i :| 0 <= i < |Parse(tokens, s)| && Parse(tokens, s)[i] == c;
    }
  }

  lemma MeaningHasNoRefAcross(tokens: seq<string>, values: map<string, string>, names: map<string, string>, a: string, b: string)
    requires RefsApart(tokens, values, names) && forall t :: t in tokens ==> t in values
    requires forall name, p: nat :: name in names ==> !Straddles(Ref(name), a, b, p)
    ensures NoRefAcross(names, Meaning(tokens, values, a), Meaning(tokens, values, b))
  {
    hide Straddles, Ref, IsIdent, Parse, RefsApart, Expand, Unlike, Meant;
    var x, y := Meaning(tokens, values, a), Meaning(tokens, values, b);
    forall name, p: nat | name in names && IsIdent(name) ensures !Straddles(Ref(name), x, y, p) {
      if Straddles(Ref(name), x, y, p) {
        CellsApart(tokens, values, names, a, name);
        CellsApart(tokens, values, names, b, name);
        ParseShows(tokens, a);
        ParseShows(tokens, b);
        AcrossInText(Parse(tokens, a), Parse(tokens, b), values, Ref(name), p);
      }
    }
  }

  lemma RefInMeaning(tokens: seq<string>, values: map<string, string>, names: map<string, string>, s: string, name: string)
    requires RefsApart(tokens, values, names) && (forall t :: t in tokens ==> t in values) && name in names
    ensures Occurs(Ref(name), Meaning(tokens, values, s)) ==> Occurs(Ref(name), s)
  {
    hide Ref, Parse, RefsApart, Expand, Unlike, Meant, NoneSpelled, Occurs, Text;
    CellsApart(tokens, values, names, s, name);
    ParseShows(tokens, s);
    var cells := Parse(tokens, s);
    SpelledIffOccurs(cells, Ref(name), values);
    if !NoneSpelled(cells, Ref(name)) {
      SpelledInText(cells, Ref(name));
    }
  }

  lemma SpelledInText(cells: seq<Cell>, w: string)
    requires !NoneSpelled(cells, w)
    ensures Occurs(w, Text(cells))
  {
    hide Text, Spelled;
    var i :| 0 <= i <= |cells| && Spelled(cells[i..], w);
    SpelledShows(cells[i..], w, map[]);
    SpelledNonEmpty(cells[i..], w);
    TakeDrop(cells, i);
    TextConcat(cells[..i], cells[i..]);
    var before, after := Text(cells[..i]), Text(cells[i..][|w|..]);
    Assoc(before, w, after);
    assert At(w, w, 0);
    OccursInPart(w, before, w, after);
  }

  // A stream whose tokens and registered names grow as it comes in.

  ghost predicate NamesGrow(older: KnownSet, ks: KnownSet) {
    Filed(older.byLen, older.names) && forall name :: name in older.names ==> name in ks.names && ks.names[name] == older.names[name]
  }

  /** Each chunk comes with the tokens and the registered secrets of its time, which stay to the end;
      neither a token nor a reference is in the stream before it is known, and none can be cut. */
  ghost predicate InTime(chunks: seq<string>, all: seq<seq<string>>, sets: seq<seq<string>>, kss: seq<KnownSet>, tokens: seq<string>, ks: KnownSet) {
    && |chunks| == |all| == |sets| == |kss|
    && (forall j :: 0 <= j < |sets| ==> all[j] == sets[j] + RefTokens(kss[j].byLen))
    && (forall j, t :: 0 <= j < |sets| && t in sets[j] ==> t in tokens)
    && (forall j :: 0 <= j < |kss| ==> NamesGrow(kss[j], ks))
    && Filed(ks.byLen, ks.names)
    && OnTime(chunks, sets, tokens) && OnTime(chunks, RefSets(kss), RefTokens(ks.byLen))
    && Growing(all, tokens + RefTokens(ks.byLen))
  }

  /** What has been passed on, each emission restored with what its time knew. */
  ghost function StreamedBoth(chunks: seq<string>, all: seq<seq<string>>, sets: seq<seq<string>>, kss: seq<KnownSet>, values: map<string, string>): string
    requires |chunks| == |all| == |sets| == |kss|
    requires forall j, t :: 0 <= j < |sets| && t in sets[j] ==> t in values
  {
    if chunks == [] then ""
    else
      var k := |chunks| - 1;
      assert sets[k] == sets[|sets| - 1];
      StreamedBoth(chunks[..k], all[..k], sets[..k], kss[..k], values)
      + RestoreRefs(kss[k].names, RestoreWith(sets[k], values, Sent(HeldBack(chunks[..k], all[..k]), chunks[k], all[k])))
  }

  lemma KnownInMore(chunks: seq<string>, sets: seq<seq<string>>, all: seq<seq<string>>, t: string, p: nat)
    requires |sets| == |all| && (forall j :: 0 <= j < |sets| && t in sets[j] ==> t in all[j]) && KnownInTime(chunks, sets, t, p)
    ensures KnownInTime(chunks, all, t, p)
  {
    hide Concat;
    var n: nat :| n <= |chunks| && p >= |Concat(chunks[..n])| && KnownFrom(sets, t, n);
    assert KnownFrom(all, t, n);
  }

  lemma RefMember(ss: seq<Secret>, names: map<string, string>, name: string)
    requires Filed(ss, names)
    ensures Ref(name) in RefTokens(ss) <==> name in names
  {
    hide Ref, Usable;
    if Ref(name) in RefTokens(ss) {
      var i :| 0 <= i < |ss| && Ref(ss[i].name) == Ref(name);
      RefInjective(ss[i].name, name);
      assert ss[i] in ss;
    }
    if name in names {
      assert Secret(name, names[name]) in ss;
      var i :| 0 <= i < |ss| && ss[i] == Secret(name, names[name]);
      assert RefTokens(ss)[i] == Ref(name);
    }
  }

  /** All candidates come in time. */
  lemma AllOnTime(chunks: seq<string>, all: seq<seq<string>>, sets: seq<seq<string>>, kss: seq<KnownSet>, tokens: seq<string>, ks: KnownSet)
    requires InTime(chunks, all, sets, kss, tokens, ks)
    ensures OnTime(chunks, all, tokens + RefTokens(ks.byLen))
  {
    hide KnownInTime, Growing, NamesGrow, Filed, Ref, Concat;
    forall t, p: nat | t in tokens + RefTokens(ks.byLen) && At(t, Concat(chunks), p) ensures KnownInTime(chunks, all, t, p) {
      if t in tokens {
        KnownInMore(chunks, sets, all, t, p);
      } else {
        KnownInMore(chunks, RefSets(kss), all, t, p);
      }
    }
  }

  lemma {:induction false} InTimeSoFar(chunks: seq<string>, all: seq<seq<string>>, sets: seq<seq<string>>, kss: seq<KnownSet>, tokens: seq<string>, ks: KnownSet, k: nat)
    requires InTime(chunks, all, sets, kss, tokens, ks) && k < |chunks| && "" !in tokens
    ensures InTime(chunks[..k], all[..k], sets[..k], kss[..k], tokens, ks)
  {
    hide OnTime, Growing, NamesGrow, Filed, Ref;
    OnTimeSoFar(chunks, sets, tokens, k);
    RefsNotEmpty(ks.byLen);
    OnTimeSoFar(chunks, RefSets(kss), RefTokens(ks.byLen), k);
    assert RefSets(kss)[..k] == RefSets(kss[..k]);
    GrowingSoFar(all, tokens + RefTokens(ks.byLen), k);
  }

  lemma RefsNotEmpty(ss: seq<Secret>)
    ensures "" !in RefTokens(ss)
  {
    hide Ref;
  }

  lemma NothingAcrossEither(a: seq<string>, b: seq<string>, x: string, y: string)
    requires NothingAcross(a + b, x, y)
    ensures NothingAcross(a, x, y) && NothingAcross(b, x, y)
  {
    hide Straddles;
  }

  lemma NoNameAcross(ks: KnownSet, x: string, y: string)
    requires Filed(ks.byLen, ks.names) && NothingAcross(RefTokens(ks.byLen), x, y)
    ensures forall name, p: nat :: name in ks.names ==> !Straddles(Ref(name), x, y, p)
  {
    hide Straddles, Ref, Filed;
    forall name, p: nat | name in ks.names ensures !Straddles(Ref(name), x, y, p) {
      RefMember(ks.byLen, ks.names, name);
    }
  }

  /** Where no candidate goes across, the two parts are restored apart, through both tiers. */
  lemma BothApart(tokens: seq<string>, values: map<string, string>, ks: KnownSet, a: string, b: string)
    requires (forall t :: t in tokens ==> t in values) && Filed(ks.byLen, ks.names) && RefsApart(tokens, values, ks.names)
    requires NothingAcross(tokens + RefTokens(ks.byLen), a, b)
    ensures Meaning(tokens, values, a + b) == Meaning(tokens, values, a) + Meaning(tokens, values, b)
    ensures RestoreRefs(ks.names, Meaning(tokens, values, a + b))
         == RestoreRefs(ks.names, Meaning(tokens, values, a)) + RestoreRefs(ks.names, Meaning(tokens, values, b))
    ensures Separated(tokens, Meaning(tokens, values, a + b)) ==>
              Separated(tokens, Meaning(tokens, values, a)) && Separated(tokens, Meaning(tokens, values, b))
  {
    hide NothingAcross, Filed, RefsApart, Meaning, Separated, NoRefAcross, RestoreRefs, Straddles, Ref;
    NothingAcrossEither(tokens, RefTokens(ks.byLen), a, b);
    MeaningConcat(tokens, values, a, b);
    NoNameAcross(ks, a, b);
    MeaningHasNoRefAcross(tokens, values, ks.names, a, b);
    RefsConcat(ks.names, Meaning(tokens, values, a), Meaning(tokens, values, b));
  }

  /** One emission, restored with what its time knew, comes out as with all that is known at the end. */
  lemma EmissionInTime(chunks: seq<string>, all: seq<seq<string>>, sets: seq<seq<string>>, kss: seq<KnownSet>, tokens: seq<string>, ks: KnownSet,
                       values: map<string, string>, before: string, sent: string)
    requires InTime(chunks, all, sets, kss, tokens, ks) && chunks != [] && before + sent <= Concat(chunks)
    requires (forall t :: t in tokens ==> t in values && t != "") && RefsApart(tokens, values, ks.names)
    requires Separated(tokens, Meaning(tokens, values, sent))
    ensures var k := |chunks| - 1;
            && (forall t :: t in sets[k] ==> t in values)
            && RestoreRefs(kss[k].names, RestoreWith(sets[k], values, sent)) == RestoreRefs(ks.names, Meaning(tokens, values, sent))
  {
    hide OnTime, Growing, Filed, RefsApart, Meaning, Separated, RestoreRefs, RestoreWith, Ref, Occurs, IsIdent;
    var k := |chunks| - 1;
    forall t | t in tokens && t !in sets[k] ensures !Occurs(t, sent) {
      SentInTime(chunks, sets, tokens, k, before, sent, t);
    }
    RestoredInTime(sets[k], tokens, values, sent);
    forall name | name in ks.names && name !in kss[k].names && IsIdent(name) ensures !Occurs(Ref(name), Meaning(tokens, values, sent)) {
      RefMember(ks.byLen, ks.names, name);
      RefMember(kss[k].byLen, kss[k].names, name);
      SentInTime(chunks, RefSets(kss), RefTokens(ks.byLen), k, before, sent, Ref(name));
      RefInMeaning(tokens, values, ks.names, sent, name);
    }
    FewerNames(kss[k].names, ks.names, Meaning(tokens, values, sent));
  }

  lemma SetsInValues(chunks: seq<string>, all: seq<seq<string>>, sets: seq<seq<string>>, kss: seq<KnownSet>, tokens: seq<string>, ks: KnownSet, values: map<string, string>)
    requires InTime(chunks, all, sets, kss, tokens, ks) && forall t :: t in tokens ==> t in values
    ensures |chunks| == |all| == |sets| == |kss| && forall j, t :: 0 <= j < |sets| && t in sets[j] ==> t in values
    ensures Growing(all, tokens + RefTokens(ks.byLen)) && Filed(ks.byLen, ks.names)
  {
    hide OnTime, Growing, Filed, NamesGrow;
  }

  lemma NothingYet(all: seq<seq<string>>, tokens: seq<string>, values: map<string, string>, names: map<string, string>)
    requires all == []
    ensures PassedOn([], all) == "" && RestoreRefs(names, Meaning(tokens, values, "")) == ""
  {
    NothingPassed(all, tokens, values);
  }

  /** What has been passed on is what the text so far stands for. */
  lemma {:induction false} StreamedIsBoth(chunks: seq<string>, all: seq<seq<string>>, sets: seq<seq<string>>, kss: seq<KnownSet>, tokens: seq<string>, ks: KnownSet, values: map<string, string>)
    requires InTime(chunks, all, sets, kss, tokens, ks)
    requires (forall t :: t in tokens ==> t in values && t != "") && RefsApart(tokens, values, ks.names)
    requires Separated(tokens, Meaning(tokens, values, PassedOn(chunks, all)))
    ensures forall j, t :: 0 <= j < |sets| && t in sets[j] ==> t in values
    ensures StreamedBoth(chunks, all, sets, kss, values) == RestoreRefs(ks.names, Meaning(tokens, values, PassedOn(chunks, all)))
    decreases |chunks|
  {
    hide InTime, OnTime, Growing, Filed, RefsApart, Separated, Meaning, RestoreRefs, RestoreWith, Sent, Held, HeldBack, PassedOn,
         KnownInTime, Concat, NothingAcross;
    SetsInValues(chunks, all, sets, kss, tokens, ks, values);
    if chunks == [] {
      NothingYet(all, tokens, values, ks.names);
    } else {
      var k, candidates := |chunks| - 1, tokens + RefTokens(ks.byLen);
      var before, tail := PassedOn(chunks[..k], all[..k]), HeldBack(chunks[..k], all[..k]);
      var sent := Sent(tail, chunks[k], all[k]);
      LastPiece(chunks, all);
      SentThenHeld(tail, chunks[k], all[k]);
      InTimeSoFar(chunks, all, sets, kss, tokens, ks, k);
      AllOnTime(chunks, all, sets, kss, tokens, ks);
      GrowingSoFar(all, candidates, k);
      OnTimeAcross(chunks, all, candidates, k);
      ConcatLast(chunks);
      PassedHasNothingAcross(chunks[..k], all[..k], chunks[k], Concat(chunks), candidates, sent);
      BothApart(tokens, values, ks, before, sent);
      StreamedIsBoth(chunks[..k], all[..k], sets[..k], kss[..k], tokens, ks, values);
      NothingIsLostGrowing(chunks, all);
      EmissionInTime(chunks, all, sets, kss, tokens, ks, values, before, sent);
    }
  }

  /** Streaming through both tiers restores what restoring the whole text with the last table and the
      last registered secrets does, however the text is cut into chunks. */
  lemma BothTiersStreamAgrees(chunks: seq<string>, all: seq<seq<string>>, sets: seq<seq<string>>, kss: seq<KnownSet>, tokens: seq<string>, ks: KnownSet, values: map<string, string>)
    requires InTime(chunks, all, sets, kss, tokens, ks)
    requires (forall t :: t in tokens ==> t in values && t != "") && RefsApart(tokens, values, ks.names)
    requires Separated(tokens, Meaning(tokens, values, Concat(chunks)))
    ensures forall j, t :: 0 <= j < |sets| && t in sets[j] ==> t in values
    ensures StreamedBoth(chunks, all, sets, kss, values) + RestoreRefs(ks.names, RestoreWith(tokens, values, HeldBack(chunks, all)))
         == RestoreRefs(ks.names, RestoreWith(tokens, values, Concat(chunks)))
  {
    hide InTime, OnTime, Growing, Filed, RefsApart, Separated, Meaning, RestoreRefs, RestoreWith, HeldBack, PassedOn,
         KnownInTime, Concat, NothingAcross, StreamedBoth;
    SetsInValues(chunks, all, sets, kss, tokens, ks, values);
    var candidates := tokens + RefTokens(ks.byLen);
    var sent, tail := PassedOn(chunks, all), HeldBack(chunks, all);
    NothingIsLostGrowing(chunks, all);
    AllOnTime(chunks, all, sets, kss, tokens, ks);
    assert tail + "" == tail && Concat(chunks) + "" == Concat(chunks);
    OnTimeAcross(chunks, all, candidates, |chunks|);
    TakeAll(chunks);
    TakeAll(all);
    PassedHasNothingAcross(chunks, all, "", Concat(chunks), candidates, tail);
    BothApart(tokens, values, ks, sent, tail);
    StreamedIsBoth(chunks, all, sets, kss, tokens, ks, values);
    RestoreIsMeaning(tokens, values, tail);
    RestoreIsMeaning(tokens, values, Concat(chunks));
  }

  // When no candidate can be cut.

  /** References to identifiers and tokens without marks: none ends as another begins. */
  lemma TiersAreBorderFree(tokens: seq<string>, ss: seq<Secret>)
    requires BorderFree(tokens) && (forall t :: t in tokens ==> Unmarked(t)) && Identifiers(ss)
    ensures BorderFree(tokens + RefTokens(ss))
  {
    hide IsIdent;
    var all := tokens + RefTokens(ss);
    forall a, b, n | a in all && b in all && 0 < n < |a| && n < |b| ensures a[|a| - n..] != b[..n] {
      if a in tokens && b in tokens {
      } else if b in tokens {
        RefBorder(ss, a, n);
        assert a[|a| - n..][n - 1] == '}' && b[..n][n - 1] == b[n - 1];
      } else {
        RefBorder(ss, b, n);
        NoDollarBehind(tokens, ss, a, n);
        assert a[|a| - n..][0] == a[|a| - n] && b[..n][0] == '$';
      }
    }
  }

  lemma RefBorder(ss: seq<Secret>, r: string, n: nat)
    requires r in RefTokens(ss)
    ensures |r| >= 3 && r[0] == '$' && r[|r| - 1] == '}'
  {
    var i :| 0 <= i < |ss| && r == Ref(ss[i].name);
    RefParts(ss[i].name);
  }

  lemma NoDollarBehind(tokens: seq<string>, ss: seq<Secret>, a: string, n: nat)
    requires a in tokens + RefTokens(ss) && 0 < n < |a| && Identifiers(ss) && (forall t :: t in tokens ==> Unmarked(t))
    ensures a[|a| - n] != '$'
  {
    hide IsIdent;
    if a !in tokens {
      var i :| 0 <= i < |ss| && a == Ref(ss[i].name);
      assert ss[i] in ss;
      OneDollar(ss[i].name, |a| - n);
    }
  }

  /** So such candidates are never cut, at no chunk. */
  lemma TiersAreNeverCut(tokens: seq<string>, ss: seq<Secret>)
    requires BorderFree(tokens) && (forall t :: t in tokens ==> Unmarked(t)) && Identifiers(ss)
    ensures !CanBeCut(tokens + RefTokens(ss))
  {
    TiersAreBorderFree(tokens, ss);
    BorderFreeIsNeverCut(tokens + RefTokens(ss));
  }

  lemma NothingStreamed(chunks: seq<string>, all: seq<seq<string>>, sets: seq<seq<string>>, kss: seq<KnownSet>, values: map<string, string>)
    requires |chunks| == |all| == |sets| == |kss| && forall j, t :: 0 <= j < |sets| && t in sets[j] ==> t in values
    ensures HeldBack(chunks[..0], all[..0]) == "" && StreamedBoth(chunks[..0], all[..0], sets[..0], kss[..0], values) == ""
  {
  }

  lemma OneMoreStreamed(chunks: seq<string>, all: seq<seq<string>>, sets: seq<seq<string>>, kss: seq<KnownSet>, values: map<string, string>, i: nat)
    requires |chunks| == |all| == |sets| == |kss| && i < |chunks| && forall j, t :: 0 <= j < |sets| && t in sets[j] ==> t in values
    ensures var tail := HeldBack(chunks[..i], all[..i]);
            && HeldBack(chunks[..i + 1], all[..i + 1]) == Held(tail, chunks[i], all[i])
            && StreamedBoth(chunks[..i + 1], all[..i + 1], sets[..i + 1], kss[..i + 1], values)
               == StreamedBoth(chunks[..i], all[..i], sets[..i], kss[..i], values)
                  + RestoreRefs(kss[i].names, RestoreWith(sets[i], values, Sent(tail, chunks[i], all[i])))
  {
    hide RestoreWith, RestoreRefs, Sent, Held;
    assert chunks[..i + 1][..i] == chunks[..i] && all[..i + 1][..i] == all[..i];
    assert sets[..i + 1][..i] == sets[..i] && kss[..i + 1][..i] == kss[..i];
  }

  /** A whole stream through one restorer, with the tokens and the registered secrets of each chunk's time. */
  method RestoreBothStreams(chunks: seq<string>, sets: seq<seq<string>>, kss: seq<KnownSet>, tokens: seq<string>, ks: KnownSet, values: map<string, string>)
    returns (out: string)
    requires |chunks| == |sets| == |kss|
    requires (forall j, t :: 0 <= j < |sets| && t in sets[j] ==> t in values) && forall t :: t in tokens ==> t in values
    ensures var all := Candidates(sets, kss);
            out == StreamedBoth(chunks, all, sets, kss, values) + RestoreRefs(ks.names, RestoreWith(tokens, values, HeldBack(chunks, all)))
  {
    hide RestoreWith, RestoreRefs, Sent, Held, HeldBack, StreamedBoth, Ref;
    var all := Candidates(sets, kss);
    NothingStreamed(chunks, all, sets, kss, values);
    var restorer := new StreamRestorer();
    out := "";
    for i := 0 to |chunks|
      invariant restorer.tail == HeldBack(chunks[..i], all[..i])
      invariant out == StreamedBoth(chunks[..i], all[..i], sets[..i], kss[..i], values)
    {
      OneMoreStreamed(chunks, all, sets, kss, values, i);
      EmptyText(sets[i], values);
      NothingRestored(kss[i].names);
      var known, names := sets[i], kss[i].names;
      var restored := restorer.Feed(chunks[i], all[i],
                                    (s: string) requires forall t :: t in known ==> t in values => RestoreRefs(names, RestoreWith(known, values, s)));
      out := out + restored;
    }
    TakeAll(chunks);
    TakeAll(all);
    TakeAll(sets);
    TakeAll(kss);
    EmptyText(tokens, values);
    NothingRestored(ks.names);
    var last := restorer.Flush((s: string) requires forall t :: t in tokens ==> t in values => RestoreRefs(ks.names, RestoreWith(tokens, values, s)));
    out := out + last;
  }
}
