/** Sanitizing and restoring with both tiers: registered secrets and references first, detected secrets
    and tokens second; back in the other order. */
module TwoTiers {
  import opened Basics
  import opened TokenFormat
  import opened TokenOrder
  import opened TokenTable
  import opened TokenCells
  import opened TokenParse
  import opened Detection
  import opened Replacing
  import opened Sequences
  import opened SecretTranslation
  import opened SanitizeTwice
  import opened KnownSecrets

  ghost predicate Snapshot(known: Option<KnownSet>) {
    known.Some? ==> WellFormed(known.value)
  }

  lemma SnapshotFacts(known: Option<KnownSet>)
    requires Snapshot(known)
    ensures known.Some? ==> NoEmptyValue(known.value.byLen)
  {
    if known.Some? {
      FiledFacts(known.value.byLen, known.value.names);
    }
  }

  /** The text once registered values are gone, and how many there were. */
  ghost function AfterKnown(text: string, known: Option<KnownSet>): string
    requires Snapshot(known)
  {
    SnapshotFacts(known);
    if known.None? then text else KnownPass(known.value.byLen, text)
  }

  ghost function CountKnown(text: string, known: Option<KnownSet>): nat
    requires Snapshot(known)
  {
    SnapshotFacts(known);
    if known.None? then 0 else KnownCount(known.value.byLen, text)
  }

  lemma EmptyHasNone(known: Option<KnownSet>)
    requires Snapshot(known)
    ensures AfterKnown("", known) == "" && CountKnown("", known) == 0
  {
    SnapshotFacts(known);
    if known.Some? {
      NothingInEmpty(known.value.byLen);
    }
  }

  lemma {:induction false} NothingInEmpty(ss: seq<Secret>)
    requires NoEmptyValue(ss)
    ensures KnownPass(ss, "") == "" && KnownCount(ss, "") == 0
  {
    hide Ref;
    if ss != [] {
      assert ss[0] in ss;
      NothingInEmpty(ss[1..]);
    }
  }

  /** Both passes. Without detectors, a table or a generator there is only the first. */
  method Sanitize(text: string, known: Option<KnownSet>, detectors: Option<seq<Detector>>, table: MappingTable?, mode: Option<Mode>)
    returns (out: string, n: nat, ghost ms: seq<Match>)
    requires Snapshot(known) && (table != null ==> table.Valid() && TwoWay(table.View()))
    modifies table, if table == null then {} else table.valueToRec.Values
    ensures table != null ==> table.Valid() && TwoWay(table.View()) && Keeps(old(table.View()), table.View())
    ensures detectors.None? || table == null || mode.None? ==>
              out == AfterKnown(text, known) && n == CountKnown(text, known) && (table != null ==> table.View() == old(table.View()))
    ensures detectors.Some? && table != null && mode.Some? ==>
              var plain := AfterKnown(text, known);
              && Result(detectors.value, plain, ms) && Spans(ms, plain)
              && var p := Rewritten(plain, ms, mode.value, old(table.View()));
                 table.View() == p.table && out == Sanitized(plain, ms, mode.value, old(table.View()))
                 && n == CountKnown(text, known) + p.n
  {
    hide MappingTable.View, MappingTable.Valid, TwoWay, Keeps, Separated, Rewritten, Sanitized, RestoreWith, Result, Spans, KnownPass, KnownCount;
    SnapshotFacts(known);
    ms := [];
    if table != null {
      KeepsItself(table.View());
    }
    if text == "" {
      EmptyHasNone(known);
      if detectors.Some? && table != null && mode.Some? {
        EmptyIsKept(detectors.value, mode.value, table.View());
      }
      return text, 0, ms;
    }
    out, n := text, 0;
    if known.Some? {
      out, n := ReplaceKnown(known.value.byLen, text);
    }
    if detectors.None? || table == null || mode.None? {
      return out, n, ms;
    }
    var replaced;
    out, replaced, ms := SanitizeDetected(out, detectors.value, table, mode.value);
    n := n + replaced;
  }

  lemma EmptyIsKept(detectors: seq<Detector>, mode: Mode, t: Table)
    ensures Result(detectors, "", []) && Spans([], "")
    ensures Sanitized("", [], mode, t) == "" && Rewritten("", [], mode, t) == Progress("", 0, t, 0)
  {
    NothingInNothing(detectors);
  }

  // Restoring.

  ghost function RefsBack(known: Option<KnownSet>, text: string): string {
    if known.None? then text else RestoreRefs(known.value.names, text)
  }

  ghost function RefsCounted(known: Option<KnownSet>, text: string): nat {
    if known.None? then 0 else CountRefs(known.value.names, text)
  }

  lemma {:induction false} NothingRegistered(names: map<string, string>, s: string)
    requires names == map[]
    ensures RestoreRefs(names, s) == s && CountRefs(names, s) == 0
    decreases |s|
  {
    hide RefName, Ref;
    if s != "" {
      var name := RefName(s);
      if name == "" {
        NothingRegistered(names, s[1..]);
        Cons(s);
      } else {
        RefNameIs(s, name);
        NothingRegistered(names, s[|Ref(name)|..]);
        TakeDrop(s, |Ref(name)|);
      }
    }
  }

  lemma {:induction false} NothingOpened(names: map<string, string>, s: string)
    requires Count(s, "${") == 0
    ensures RestoreRefs(names, s) == s && CountRefs(names, s) == 0
  {
    hide Ref;
    if s != "" {
      assert |s| == 1 ==> s[1..] == "";
      assert Count("", "${") == 0;
      NothingOpened(names, s[1..]);
      Cons(s);
    }
  }

  /** Tokens first, longest first, then references. */
  method Restore(text: string, known: Option<KnownSet>, table: MappingTable?) returns (out: string, n: nat)
    modifies table
    ensures table == null ==> out == RefsBack(known, text) && n == RefsCounted(known, text)
    ensures table != null ==>
              && (forall tokens | Orders(tokens, old(table.View()).byToken.Keys) ::
                    var mid := RestoreWith(tokens, old(table.View()).byToken, text);
                    out == RefsBack(known, mid)
                    && n == RestoreCount(tokens, old(table.View()).byToken, text) + RefsCounted(known, mid))
              && table.View().byToken == old(table.View()).byToken && table.View().byValue == old(table.View()).byValue
  {
    hide RestoreRefs, CountRefs, RestoreWith, RestoreCount, Orders;
    if text == "" {
      if known.Some? {
        NothingOpened(known.value.names, "");
      }
      if table != null {
        NothingToRestore(table.View().byToken, "");
      }
      return text, 0;
    }
    out, n := text, 0;
    if table != null {
      out, n := table.RestoreAll(text);
    }
    if known.Some? {
      if |known.value.names| > 0 && Count(out, "${") > 0 {
        n := n + CountRefs(known.value.names, out);
        out := RestoreRefs(known.value.names, out);
      } else if |known.value.names| == 0 {
        NothingRegistered(known.value.names, out);
      } else {
        NothingOpened(known.value.names, out);
      }
    }
  }

  // The two tiers together.

  /** Restoring undoes sanitizing through both tiers exactly for texts without a registered reference,
      as long as tokens can be told apart in what the first pass leaves; and then as many are counted on the
      way back as on the way out. */
  lemma BothTiersRoundTripIff(ks: KnownSet, text: string, ms: seq<Match>, mode: Mode, t: Table, later: Table, tokens: seq<string>)
    requires WellFormed(ks) && Identifiers(ks.byLen) && KnownApart(ks.byLen)
    requires TwoWay(t) && Spans(ms, AfterKnown(text, Some(ks)))
    requires Keeps(Rewritten(AfterKnown(text, Some(ks)), ms, mode, t).table, later) && TwoWay(later)
    requires forall k :: k in tokens <==> k in later.byToken
    requires Separated(tokens, AfterKnown(text, Some(ks)))
    ensures RefsBack(Some(ks), RestoreWith(tokens, later.byToken, Sanitized(AfterKnown(text, Some(ks)), ms, mode, t))) == text
            <==> NoRefIn(ks.byLen, text)
    ensures NoRefIn(ks.byLen, text) ==>
              var plain := AfterKnown(text, Some(ks));
              var out := Sanitized(plain, ms, mode, t);
              RestoreCount(tokens, later.byToken, out) + RefsCounted(Some(ks), RestoreWith(tokens, later.byToken, out))
              == CountKnown(text, Some(ks)) + Rewritten(plain, ms, mode, t).n
  {
    hide KnownApart, Identifiers, Filed, TwoWay, Keeps, Separated, Rewritten, Sanitized, RestoreWith, Spans, KnownPass, RestoreRefs, NoRefIn,
         RestoreCount, CountRefs, KnownCount;
    var plain := AfterKnown(text, Some(ks));
    RestoreUndoesSanitize(plain, ms, mode, t, later, tokens);
    KnownRoundTripIff(ks.byLen, ks.names, text);
  }

  /** Tokens that have nothing in common with a value do not bring it back. */
  lemma NotThroughTokens(plain: string, ms: seq<Match>, mode: Mode, t: Table, v: string)
    requires Spans(ms, plain) && TwoWay(t) && v != "" && !Occurs(v, plain)
    requires forall k :: k in Rewritten(plain, ms, mode, t).table.byToken ==> Unlike(v, k)
    ensures !Occurs(v, Sanitized(plain, ms, mode, t))
  {
    hide Occurs, Unlike, Rewritten, Cells, Keeps, TwoWay, NoneSpelled, At, Text, Expand, Spans;
    var p, cells := Rewritten(plain, ms, mode, t), Cells(plain, ms, mode, t);
    KeepsItself(p.table);
    CellsAgree(plain, ms, mode, t, p.table);
    var rest := plain[p.last..];
    ThenPlain(cells, rest, p.table.byToken);
    var all := cells + Plain(rest);
    forall c | c in all && c.Tok? ensures Unlike(v, c.key) {
      assert c in cells || c in Plain(rest);
    }
    TakeDrop(plain, p.last);
    NotAnywhere(all, v, p.table.byToken);
  }

  lemma NotAnywhere(cells: seq<Cell>, v: string, values: map<string, string>)
    requires v != "" && !Occurs(v, Expand(cells, values)) && forall c :: c in cells && c.Tok? ==> Unlike(v, c.key)
    ensures !Occurs(v, Text(cells))
  {
    hide Unlike, NoneSpelled, At, Text, Expand;
    if Occurs(v, Text(cells)) {
      var p: nat :| At(v, Text(cells), p);
      OccursSpelled(cells, v, p);
      SpelledOccurs(cells, v, values);
    }
  }

  /** Tokens apart from every registered value. */
  ghost predicate TokensApart(ss: seq<Secret>, t: Table) {
    forall s, k :: s in ss && k in t.byToken ==> Unlike(s.value, k)
  }

  /** No registered value leaves, whatever the detectors find and the tokens they get. */
  lemma NoKnownSecretLeaves(ks: KnownSet, text: string, ms: seq<Match>, mode: Mode, t: Table, s: Secret)
    requires WellFormed(ks) && KnownApart(ks.byLen) && s in ks.byLen
    requires TwoWay(t) && Spans(ms, AfterKnown(text, Some(ks)))
    requires TokensApart(ks.byLen, Rewritten(AfterKnown(text, Some(ks)), ms, mode, t).table)
    ensures !Occurs(s.value, Sanitized(AfterKnown(text, Some(ks)), ms, mode, t))
  {
    hide KnownApart, TwoWay, Rewritten, Sanitized, Spans, KnownPass, Occurs, Unlike, RefValues;
    FiledFacts(ks.byLen, ks.names);
    NoValueIsLeft(ks.byLen, text, RefValues(ks.names), s);
    NotThroughTokens(AfterKnown(text, Some(ks)), ms, mode, t, s.value);
  }

  /** Sanitizing twice is sanitizing once, through both tiers: registered values apart from references
      and tokens, detectors that find whole words, tokens that are words. */
  lemma SanitizingIsIdempotent(ks: KnownSet, detectors: seq<Detector>, word: char -> bool, shapes: seq<Shape>,
                               text: string, ms: seq<Match>, again: seq<Match>, mode: Mode, t: Table)
    requires WellFormed(ks) && KnownApart(ks.byLen)
    requires FindWords(detectors, word, shapes) && (forall i :: 0 <= i < |shapes| ==> WordShape(word, shapes[i]))
    requires TwoWay(t) && TokensAreWords(word, t) && Result(detectors, AfterKnown(text, Some(ks)), ms)
    ensures Spans(ms, AfterKnown(text, Some(ks)))
    ensures var out := Sanitized(AfterKnown(text, Some(ks)), ms, mode, t);
            var t1 := Rewritten(AfterKnown(text, Some(ks)), ms, mode, t).table;
            TokensApart(ks.byLen, t1) && Result(detectors, out, again) ==>
              && AfterKnown(out, Some(ks)) == out && CountKnown(out, Some(ks)) == 0
              && Spans(again, out) && Sanitized(out, again, mode, t1) == out && Rewritten(out, again, mode, t1).table == t1
  {
    hide KnownApart, Filed, TwoWay, Rewritten, Sanitized, Spans, KnownPass, KnownCount, Occurs, Unlike, FindWords, WordShape, TokensAreWords, Result, TokensApart;
    var plain := AfterKnown(text, Some(ks));
    WholeWordsAreIdempotent(detectors, word, shapes, plain, ms, again, mode, t);
    var out, t1 := Sanitized(plain, ms, mode, t), Rewritten(plain, ms, mode, t).table;
    if TokensApart(ks.byLen, t1) && Result(detectors, out, again) {
      FiledFacts(ks.byLen, ks.names);
      forall s | s in ks.byLen ensures !Occurs(s.value, out) {
        NoKnownSecretLeaves(ks, text, ms, mode, t, s);
      }
      NothingLeftToReplace(ks.byLen, out);
    }
  }
}
