/** What one pass over a text's detected secrets replaces, and by what: stated over the spans, the values
    in them and the table as each is reached. */
module SanitizeLaws {
  import opened TokenFormat
  import opened TokenTable
  import opened Detection
  import opened Replacing
  import opened Sequences
  import opened SecretTranslation

  /** A candidate holds a reference exactly if a dollar sign and a brace stand side by side in it. */
  lemma {:induction false} HasReferenceIff(s: string)
    ensures HasReference(s) <==> Occurs("${", s)
  {
    if |s| >= 2 {
      HasReferenceIff(s[1..]);
      AtFront("${", s);
      if s[..2] == "${" {
        assert At("${", s, 0);
      }
      if Occurs("${", s[1..]) {
        var p: nat :| At("${", s[1..], p);
        AtNext("${", s, p);
      }
      if Occurs("${", s) {
        var p: nat :| At("${", s, p);
        if p > 0 {
          AtNext("${", s, p - 1);
        }
      }
    }
  }

  /** A value stays as it is when the table gives it out as a token, or when it holds a reference. */
  ghost predicate StaysAsIs(t: Table, value: string) {
    value in t.byToken || Occurs("${", value)
  }

  /** The table once a value was asked for: one more use of a known value, else a new token filed both
      ways under the next number. */
  ghost predicate AskedFor(t: Table, value: string, shape: Shape, mode: Mode, t': Table) {
    && t'.restored == t.restored
    && if value in t.byValue then
         var e := t.byValue[value];
         && t'.byValue == t.byValue[value := Entry(e.token, e.detector, e.hits + 1)]
         && t'.byToken == t.byToken && t'.minted == t.minted && t'.longest == t.longest
       else
         var token := Synthetic(mode, shape, t.minted + 1);
         && t'.byValue == t.byValue[value := Entry(token, shape.detector, 1)] && t'.byToken == t.byToken[token := value]
         && t'.minted == t.minted + 1 && t'.longest == (if |token| > t.longest then |token| else t.longest)
  }

  /** What one span does to the table. */
  ghost predicate Turned(t: Table, value: string, shape: Shape, mode: Mode, t': Table) {
    if StaysAsIs(t, value) then t' == t else AskedFor(t, value, shape, mode, t')
  }

  /** What one span is written as, by the table that the pass ends with. */
  ghost predicate WrittenAs(t: Table, value: string, end: Table, rep: string) {
    if StaysAsIs(t, value) then rep == value else value in end.byValue && rep == end.byValue[value].token
  }

  ghost function Value(text: string, m: Match): string
    requires InBounds(m, text)
  {
    text[m.start..m.end]
  }

  /** The text up to a place, with each span written otherwise. */
  ghost function Spliced(text: string, ms: seq<Match>, reps: seq<string>, upto: int): string
    requires |ms| == |reps| && 0 <= upto <= |text| && Spans(ms, text) && (ms != [] ==> ms[|ms| - 1].end <= upto)
  {
    if ms == [] then text[..upto]
    else
      SpansPrefix(ms, text);
      var n := |ms| - 1;
      Spliced(text, ms[..n], reps[..n], ms[n].start) + reps[n] + text[ms[n].end..upto]
  }

  /** The tables from span to span, and what each span is written as in the end. */
  ghost predicate PassesThrough(text: string, ms: seq<Match>, mode: Mode, tables: seq<Table>, end: Table, reps: seq<string>)
    requires Spans(ms, text)
  {
    && |tables| == |ms| + 1 && |reps| == |ms|
    && (forall i :: 0 <= i < |ms| ==> Turned(tables[i], Value(text, ms[i]), ms[i].shape, mode, tables[i + 1]))
    && (forall i :: 0 <= i < |ms| ==> WrittenAs(tables[i], Value(text, ms[i]), end, reps[i]))
  }

  /** The spans that are replaced. */
  ghost function Replaced(text: string, ms: seq<Match>, tables: seq<Table>): set<int>
    requires Spans(ms, text) && |ms| <= |tables|
  {
    set i | 0 <= i < |ms| && !StaysAsIs(tables[i], Value(text, ms[i]))
  }

  /** Every value keeps the token it has. */
  ghost predicate KeepsValues(t: Table, u: Table) {
    forall v :: v in t.byValue ==> v in u.byValue && u.byValue[v].token == t.byValue[v].token
  }

  lemma LookedIsAsked(t: Table, value: string, shape: Shape, mode: Mode)
    ensures var u := Looked(t, value, shape.detector, Mint(mode, shape));
            && AskedFor(t, value, shape, mode, u) && KeepsValues(t, u)
            && value in u.byValue && u.byValue[value].token == TokenOf(t, value, Mint(mode, shape))
  {
    hide Synthetic;
  }

  lemma MoreReplaced(text: string, ms: seq<Match>, tables: seq<Table>, last: Table)
    requires ms != [] && Spans(ms, text) && |tables| == |ms|
    ensures Spans(ms[..|ms| - 1], text)
    ensures |Replaced(text, ms, tables + [last])|
         == |Replaced(text, ms[..|ms| - 1], tables)| + if StaysAsIs(tables[|ms| - 1], Value(text, ms[|ms| - 1])) then 0 else 1
  {
    hide StaysAsIs, Disjoint;
    SpansPrefix(ms, text);
    var n := |ms| - 1;
    var before, all := Replaced(text, ms[..n], tables), Replaced(text, ms, tables + [last]);
    if StaysAsIs(tables[n], Value(text, ms[n])) {
      assert all == before;
    } else {
      assert all == before + {n};
    }
  }

  lemma OneMoreSpan(text: string, ms: seq<Match>, mode: Mode, tables: seq<Table>, end: Table, reps: seq<string>, next: Table, rep: string)
    requires ms != [] && Spans(ms, text) && Spans(ms[..|ms| - 1], text)
    requires PassesThrough(text, ms[..|ms| - 1], mode, tables, end, reps)
    requires Turned(tables[|ms| - 1], Value(text, ms[|ms| - 1]), ms[|ms| - 1].shape, mode, next)
    requires WrittenAs(tables[|ms| - 1], Value(text, ms[|ms| - 1]), end, rep)
    ensures PassesThrough(text, ms, mode, tables + [next], end, reps + [rep])
  {
    hide Turned, WrittenAs, Disjoint;
    var n := |ms| - 1;
    forall i | 0 <= i < |ms|
      ensures Turned((tables + [next])[i], Value(text, ms[i]), ms[i].shape, mode, (tables + [next])[i + 1])
           && WrittenAs((tables + [next])[i], Value(text, ms[i]), end, (reps + [rep])[i])
    {
      if i < n {
        assert ms[..n][i] == ms[i];
      }
    }
  }

  lemma SplicedSnoc(text: string, ms: seq<Match>, reps: seq<string>, rep: string, upto: int)
    requires ms != [] && |reps| == |ms| - 1 && Spans(ms, text) && ms[|ms| - 1].end <= upto <= |text|
    ensures Spans(ms[..|ms| - 1], text) && (|ms| > 1 ==> ms[|ms| - 2].end <= ms[|ms| - 1].start) && 0 <= ms[|ms| - 1].start <= |text|
    ensures Spliced(text, ms, reps + [rep], upto)
         == Spliced(text, ms[..|ms| - 1], reps, ms[|ms| - 1].start) + rep + text[ms[|ms| - 1].end..upto]
  {
    SpansPrefix(ms, text);
    assert (reps + [rep])[..|ms| - 1] == reps;
  }

  lemma Unreplaced(built: string, text: string, last: nat, start: nat, end: nat, upto: nat)
    requires last <= start <= end <= upto <= |text|
    ensures built + text[last..start] + text[start..end] + text[end..upto] == built + text[last..upto]
  {
  }

  lemma {:induction false} PassIs(text: string, ms: seq<Match>, mode: Mode, t: Table, end: Table, upto: int)
    returns (tables: seq<Table>, reps: seq<string>)
    requires Spans(ms, text) && 0 <= upto <= |text| && (ms != [] ==> ms[|ms| - 1].end <= upto)
    requires KeepsValues(Rewritten(text, ms, mode, t).table, end)
    ensures PassesThrough(text, ms, mode, tables, end, reps) && tables[0] == t
    ensures var p := Rewritten(text, ms, mode, t);
            && tables[|ms|] == p.table && p.n == |Replaced(text, ms, tables)| && p.last <= upto
            && Spliced(text, ms, reps, upto) == p.built + text[p.last..upto]
  {
    hide Disjoint, Looked, TokenOf, KeepsValues, HasReference, Occurs, AskedFor, PassesThrough, Replaced;
    var p := Rewritten(text, ms, mode, t);
    if ms == [] {
      tables, reps := [t], [];
      NothingPassed(text, mode, t, end);
      return;
    }
    SpansPrefix(ms, text);
    var n := |ms| - 1;
    var init, m := ms[..n], ms[n];
    var before, value := Rewritten(text, init, mode, t), Value(text, m);
    HasReferenceIff(value);
    LookedIsAsked(before.table, value, m.shape, mode);
    KeepsValuesOn(before.table, p.table, end, value);
    tables, reps := PassIs(text, init, mode, t, end, m.start);
    var rep := if StaysAsIs(before.table, value) then value else TokenOf(before.table, value, Mint(mode, m.shape));
    PassedLengths(text, init, mode, tables, end, reps);
    OneMoreSpan(text, ms, mode, tables, end, reps, p.table, rep);
    MoreReplaced(text, ms, tables, p.table);
    SplicedSnoc(text, ms, reps, rep, upto);
    if StaysAsIs(before.table, value) {
      Unreplaced(before.built, text, before.last, m.start, m.end, upto);
    }
    tables, reps := tables + [p.table], reps + [rep];
  }

  lemma PassedLengths(text: string, ms: seq<Match>, mode: Mode, tables: seq<Table>, end: Table, reps: seq<string>)
    requires Spans(ms, text) && PassesThrough(text, ms, mode, tables, end, reps)
    ensures |tables| == |ms| + 1 && |reps| == |ms|
  {
  }

  lemma NothingPassed(text: string, mode: Mode, t: Table, end: Table)
    ensures Spans([], text) && PassesThrough(text, [], mode, [t], end, []) && Replaced(text, [], [t]) == {}
  {
  }

  /** A table between two others, which is either of the first two, keeps what it must. */
  lemma KeepsValuesOn(t: Table, u: Table, end: Table, value: string)
    requires KeepsValues(t, u) || t == u
    requires KeepsValues(u, end)
    ensures KeepsValues(t, end) && (value in u.byValue ==> value in end.byValue && end.byValue[value].token == u.byValue[value].token)
  {
  }

  /** Whatever the spans: exactly those are replaced whose value is no token of the table as it stands when
      they are reached and holds no reference, each by the token that the table ends up with for its value;
      all else of the text stays; and the replacements are counted. */
  lemma ReplacesExactly(text: string, ms: seq<Match>, mode: Mode, t: Table) returns (tables: seq<Table>, reps: seq<string>)
    requires Spans(ms, text)
    ensures |tables| == |ms| + 1 && tables[0] == t && tables[|ms|] == Rewritten(text, ms, mode, t).table
    ensures PassesThrough(text, ms, mode, tables, tables[|ms|], reps)
    ensures (ms != [] ==> ms[|ms| - 1].end <= |text|) && Sanitized(text, ms, mode, t) == Spliced(text, ms, reps, |text|)
    ensures Rewritten(text, ms, mode, t).n == |Replaced(text, ms, tables)|
  {
    hide Rewritten, Spliced, Disjoint, Replaced, Turned, WrittenAs;
    var p := Rewritten(text, ms, mode, t);
    KeepsItsValues(p.table);
    tables, reps := PassIs(text, ms, mode, t, p.table, |text|);
    TakeAll(text);
  }

  lemma KeepsItsValues(t: Table)
    ensures KeepsValues(t, t)
  {
  }
}
