/** Running every detector over a text and settling the overlaps between what they find. */
module Detection {
  import opened Basics
  import opened TokenFormat

  /** A detected span, with what a token will keep of it. */
  datatype Match = Match(start: int, end: int, shape: Shape, confidence: real)

  /** A detector: what it finds, and which candidate values it lets through. */
  datatype Detector = Detector(find: string -> seq<Match>, validate: string -> bool)

  /** A match with its detector's place in the registry. */
  datatype Ranked = Ranked(m: Match, order: nat)

  predicate InBounds(m: Match, text: string) {
    0 <= m.start < m.end <= |text|
  }

  /** The detector at a place in the registry reports this match and lets its value through. */
  predicate Reported(detectors: seq<Detector>, text: string, r: Ranked) {
    && r.order < |detectors| && r.m in detectors[r.order].find(text) && InBounds(r.m, text)
    && detectors[r.order].validate(text[r.m.start..r.m.end])
  }

  /** Leftmost first, then longest, then most confident, then earliest in the registry. */
  predicate Less(a: Ranked, b: Ranked) {
    if a.m.start != b.m.start then a.m.start < b.m.start
    else if a.m.end != b.m.end then a.m.end > b.m.end
    else if a.m.confidence != b.m.confidence then a.m.confidence > b.m.confidence
    else a.order < b.order
  }

  lemma LessIsStrict()
    ensures StrictOrder(Less)
  {
  }

  /** A match covers a candidate's beginning and goes before it. */
  predicate Beats(a: Ranked, b: Ranked) {
    a.m.start <= b.m.start < a.m.end && !Less(b, a)
  }

  /** In order and without overlap. */
  ghost predicate Disjoint(ms: seq<Match>) {
    forall i, j :: 0 <= i < j < |ms| ==> ms[i].end <= ms[j].start
  }

  method Collect(detectors: seq<Detector>, text: string) returns (all: seq<Ranked>)
    ensures forall r :: r in all <==> Reported(detectors, text, r)
  {
    all := [];
    for i := 0 to |detectors|
      invariant forall r :: r in all <==> Reported(detectors, text, r) && r.order < i
    {
      var found := detectors[i].find(text);
      for j := 0 to |found|
        invariant forall r :: r in all <==> Reported(detectors, text, r) && (r.order < i || (r.order == i && r.m in found[..j]))
      {
        if !InBounds(found[j], text) || !detectors[i].validate(text[found[j].start..found[j].end]) {
          continue;
        }
        all := all + [Ranked(found[j], i)];
      }
    }
  }

  /** The sorted matches from left to right, each taken unless the last one taken covers its start. */
  method Sweep(all: seq<Ranked>) returns (out: seq<Ranked>)
    requires Sorted(all, Less) && forall r :: r in all ==> 0 <= r.m.start < r.m.end
    ensures forall i, j :: 0 <= i < j < |out| ==> out[i].m.end <= out[j].m.start
    ensures forall r :: r in out ==> r in all
    ensures forall k :: 0 <= k < |all| ==> Beaten(all[k], out)
  {
    hide Less, Beats, Beaten;
    out := [];
    var lastEnd := -1;
    for n := 0 to |all|
      invariant forall r :: r in out ==> r in all[..n]
      invariant forall i, j :: 0 <= i < j < |out| ==> out[i].m.end <= out[j].m.start
      invariant lastEnd == if out == [] then -1 else out[|out| - 1].m.end
      invariant forall i :: 0 <= i < |out| ==> out[i].m.end <= lastEnd
      invariant forall k :: 0 <= k < n ==> Beaten(all[k], out)
    {
      assert all[n] in all;
      if all[n].m.start < lastEnd {
        CoveredIsBeaten(all, n, out);
        continue;
      }
      BeatsItself(all[n]);
      StillBeaten(all[..n], out, all[n]);
      out := out + [all[n]];
      lastEnd := all[n].m.end;
    }
  }

  ghost predicate Beaten(r: Ranked, out: seq<Ranked>) {
    exists i :: 0 <= i < |out| && Beats(out[i], r)
  }

  lemma BeatsItself(r: Ranked)
    requires r.m.start < r.m.end
    ensures Beats(r, r)
  {
  }

  lemma StillBeaten(s: seq<Ranked>, out: seq<Ranked>, x: Ranked)
    requires forall k :: 0 <= k < |s| ==> Beaten(s[k], out)
    requires Beats(x, x)
    ensures forall k :: 0 <= k < |s| ==> Beaten(s[k], out + [x])
    ensures Beaten(x, out + [x])
  {
    forall k | 0 <= k < |s| ensures Beaten(s[k], out + [x]) {
      var i :| 0 <= i < |out| && Beats(out[i], s[k]);
      assert (out + [x])[i] == out[i];
    }
    assert (out + [x])[|out|] == x;
  }

  lemma CoveredIsBeaten(all: seq<Ranked>, n: nat, out: seq<Ranked>)
    requires Sorted(all, Less) && n < |all| && out != [] && out[|out| - 1] in all[..n]
    requires all[n].m.start < out[|out| - 1].m.end
    ensures Beaten(all[n], out)
  {
    var i :| 0 <= i < n && all[i] == out[|out| - 1];
    assert Beats(out[|out| - 1], all[n]);
  }

  /** Some detector reports the match. */
  ghost predicate Found(detectors: seq<Detector>, text: string, m: Match) {
    exists r :: Reported(detectors, text, r) && r.m == m
  }

  /** Every match kept was reported. */
  ghost predicate Sound(detectors: seq<Detector>, text: string, out: seq<Match>) {
    forall n :: 0 <= n < |out| ==> Found(detectors, text, out[n])
  }

  ghost predicate Outdone(detectors: seq<Detector>, text: string, out: seq<Match>, r: Ranked) {
    exists w: Ranked :: w.m in out && Reported(detectors, text, w) && Beats(w, r)
  }

  /** Every reported match is kept, or beaten by a reported match that is. */
  ghost predicate Complete(detectors: seq<Detector>, text: string, out: seq<Match>) {
    forall r {:trigger Outdone(detectors, text, out, r)} :: Reported(detectors, text, r) ==> Outdone(detectors, text, out, r)
  }

  function Matches(rs: seq<Ranked>): (ms: seq<Match>)
    ensures |ms| == |rs| && forall i :: 0 <= i < |rs| ==> ms[i] == rs[i].m
  {
    seq(|rs|, i requires 0 <= i < |rs| => rs[i].m)
  }

  lemma KeptIsSound(detectors: seq<Detector>, text: string, won: seq<Ranked>)
    requires forall r :: r in won ==> Reported(detectors, text, r)
    ensures Sound(detectors, text, Matches(won))
  {
    forall n | 0 <= n < |won| ensures Found(detectors, text, Matches(won)[n]) {
      assert won[n] in won;
    }
  }

  lemma KeptIsComplete(detectors: seq<Detector>, text: string, all: seq<Ranked>, won: seq<Ranked>)
    requires forall r :: Reported(detectors, text, r) ==> r in all
    requires forall r :: r in won ==> Reported(detectors, text, r)
    requires forall k :: 0 <= k < |all| ==> Beaten(all[k], won)
    ensures Complete(detectors, text, Matches(won))
  {
    hide Reported, Beats;
    forall r | Reported(detectors, text, r) ensures Outdone(detectors, text, Matches(won), r) {
      var k :| 0 <= k < |all| && all[k] == r;
      var i :| 0 <= i < |won| && Beats(won[i], all[k]);
      assert Matches(won)[i] == won[i].m && won[i] in won;
    }
  }

  method DetectAll(detectors: seq<Detector>, text: string) returns (out: seq<Match>)
    ensures Result(detectors, text, out)
  {
    hide Sound, Complete, Beaten;
    if text == "" {
      NothingInNothing(detectors);
      return [];
    }
    var all := Collect(detectors, text);
    LessIsStrict();
    SortSorts(all, Less);
    var sorted := Sort(all, Less);
    var won := Sweep(sorted);
    KeptIsSound(detectors, text, won);
    KeptIsComplete(detectors, text, sorted, won);
    out := Matches(won);
  }

  lemma NothingInNothing(detectors: seq<Detector>)
    ensures Sound(detectors, "", []) && Complete(detectors, "", [])
  {
  }

  lemma SoundInBounds(detectors: seq<Detector>, text: string, out: seq<Match>)
    requires Sound(detectors, text, out)
    ensures forall n :: 0 <= n < |out| ==> InBounds(out[n], text)
  {
  }

  // The three properties leave no choice of spans.

  ghost predicate SameSpan(a: Match, b: Match) {
    a.start == b.start && a.end == b.end && a.confidence == b.confidence
  }

  ghost predicate Result(detectors: seq<Detector>, text: string, out: seq<Match>) {
    Disjoint(out) && Sound(detectors, text, out) && Complete(detectors, text, out)
  }

  /** With the first n spans agreed, the next one's beginning is covered from the n-th on. */
  lemma NextIsCovered(detectors: seq<Detector>, text: string, out: seq<Match>, other: seq<Match>, n: nat, r: Ranked)
    returns (w: Ranked, j: nat)
    requires Result(detectors, text, out) && Reported(detectors, text, r)
    requires n <= |other| && n <= |out| && Disjoint(other)
    requires forall k :: 0 <= k < n ==> SameSpan(out[k], other[k]) && other[k].end <= r.m.start
    ensures n <= j < |out| && out[j] == w.m && Reported(detectors, text, w) && Beats(w, r)
  {
    hide Reported, Disjoint, Sound;
    assert Outdone(detectors, text, out, r);
    w :| w.m in out && Reported(detectors, text, w) && Beats(w, r);
    j :| 0 <= j < |out| && out[j] == w.m;
  }

  lemma NextAgrees(detectors: seq<Detector>, text: string, a: seq<Match>, b: seq<Match>, n: nat)
    requires Result(detectors, text, a) && Result(detectors, text, b)
    requires n < |a| && n <= |b| && forall k :: 0 <= k < n ==> SameSpan(a[k], b[k])
    ensures n < |b| && SameSpan(a[n], b[n])
  {
    hide Reported, Complete, Outdone;
    assert Found(detectors, text, a[n]);
    var r :| Reported(detectors, text, r) && r.m == a[n];
    var w, j := NextIsCovered(detectors, text, b, a, n, r);
    assert forall k :: 0 <= k < n ==> b[k].end <= w.m.start;
    var w', j' := NextIsCovered(detectors, text, a, b, n, w);
    SoundInBounds(detectors, text, a);
    SoundInBounds(detectors, text, b);
    assert j' == n;
    assert SameSpan(a[n], b[j]);
    assert Found(detectors, text, b[n]);
    var r' :| Reported(detectors, text, r') && r'.m == b[n];
    assert forall k :: 0 <= k < n ==> b[k].end <= b[n].start;
    var w'', j'' := NextIsCovered(detectors, text, a, b, n, r');
  }

  /** Any two results agree, span by span. */
  lemma {:induction false} ResultIsDetermined(detectors: seq<Detector>, text: string, a: seq<Match>, b: seq<Match>, n: nat)
    requires Result(detectors, text, a) && Result(detectors, text, b)
    requires n <= |a| && n <= |b| && forall k :: 0 <= k < n ==> SameSpan(a[k], b[k])
    ensures |a| == |b| && forall k :: 0 <= k < |a| ==> SameSpan(a[k], b[k])
    decreases |a| - n
  {
    hide Result, SameSpan;
    if n < |a| {
      NextAgrees(detectors, text, a, b, n);
      ResultIsDetermined(detectors, text, a, b, n + 1);
    } else if n < |b| {
      Mirrored(a, b);
      NextAgrees(detectors, text, b, a, n);
    }
  }

  lemma Mirrored(a: seq<Match>, b: seq<Match>)
    ensures forall k :: 0 <= k < |a| && k < |b| ==> (SameSpan(a[k], b[k]) <==> SameSpan(b[k], a[k]))
  {
  }

  // The same outright.

  /** A match of the detector at a place in the registry, whose value it lets through. */
  ghost predicate Candidate(detectors: seq<Detector>, text: string, m: Match, order: int) {
    && 0 <= order < |detectors| && m in detectors[order].find(text) && 0 <= m.start < m.end <= |text|
    && detectors[order].validate(text[m.start..m.end])
  }

  /** One covers the other's beginning, having begun before it, or else being longer, or else more
      confident, or else no later in the registry. */
  ghost predicate Wins(a: Match, i: int, b: Match, j: int) {
    && a.start <= b.start < a.end
    && (a.start < b.start || a.end > b.end
        || (a.end == b.end && (a.confidence > b.confidence || (a.confidence == b.confidence && i <= j))))
  }

  ghost predicate IsCandidate(detectors: seq<Detector>, text: string, m: Match) {
    exists i :: Candidate(detectors, text, m, i)
  }

  ghost predicate Lost(detectors: seq<Detector>, text: string, out: seq<Match>, m: Match, order: int) {
    exists k, i :: 0 <= k < |out| && Candidate(detectors, text, out[k], i) && Wins(out[k], i, m, order)
  }

  /** What is detected are candidates, apart and from left to right, and every candidate is among them or
      begins within one of them that wins over it. */
  lemma ResultMeans(detectors: seq<Detector>, text: string, out: seq<Match>)
    requires Result(detectors, text, out)
    ensures forall i, j :: 0 <= i < j < |out| ==> out[i].end <= out[j].start
    ensures forall k :: 0 <= k < |out| ==> IsCandidate(detectors, text, out[k])
    ensures forall m, order :: Candidate(detectors, text, m, order) ==> Lost(detectors, text, out, m, order)
  {
    hide Sound, Complete;
    forall k | 0 <= k < |out| ensures IsCandidate(detectors, text, out[k]) {
      KeptIsCandidate(detectors, text, out, k);
    }
    forall m, order | Candidate(detectors, text, m, order) ensures Lost(detectors, text, out, m, order) {
      CandidateLost(detectors, text, out, m, order);
    }
  }

  lemma KeptIsCandidate(detectors: seq<Detector>, text: string, out: seq<Match>, k: nat)
    requires Sound(detectors, text, out) && k < |out|
    ensures IsCandidate(detectors, text, out[k])
  {
    assert Found(detectors, text, out[k]);
    var r :| Reported(detectors, text, r) && r.m == out[k];
    assert Candidate(detectors, text, out[k], r.order);
  }

  lemma CandidateLost(detectors: seq<Detector>, text: string, out: seq<Match>, m: Match, order: int)
    requires Complete(detectors, text, out) && Candidate(detectors, text, m, order)
    ensures Lost(detectors, text, out, m, order)
  {
    var r := Ranked(m, order);
    assert Outdone(detectors, text, out, r);
    var w: Ranked :| w.m in out && Reported(detectors, text, w) && Beats(w, r);
    var k :| 0 <= k < |out| && out[k] == w.m;
    assert Candidate(detectors, text, out[k], w.order) && Wins(out[k], w.order, m, order);
  }
}
