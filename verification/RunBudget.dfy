/** The budget of a long run: automatic resumes leg by leg, then one closing leg, and why it ends. */
module RunBudget {
  import opened Basics
  import opened Transcript
  import opened RunLoop

  /** Nanoseconds in a millisecond. */
  const MS := 1_000_000
  const DEFAULT_ITERATIONS := 20
  const FINALIZER_RESUMES := 1
  const FINALIZER_DEADLINE := 300_000 * MS

  /** What a run is given: iterations and time and tokens in all, iterations per leg, and the
      closing leg's own share. Zero or less leaves a limit unset. */
  datatype Request = Request(autoContinue: bool, totalIterations: int, durationMs: int, stepInterval: int, maxTokens: int,
                             finalizerPrompt: string, finalizerIterations: int, finalizerDurationMs: int,
                             finalizerTokens: int, outputDir: string)

  datatype Budget = Budget(armed: bool, left: int, deadline: Option<int>, maxDuration: int, stepInterval: int,
                           maxTokens: int, tokensUsed: int, tokensTotal: int,
                           finalizerPrompt: string, finalizing: bool, finalizerIterations: int,
                           finalizerDuration: int, finalizerTokens: int, outputDir: string)

  const UNARMED := Budget(false, 0, None, 0, 0, 0, 0, 0, "", false, 0, 0, 0, "")

  /** The limits one leg is started with; zero leaves time or tokens unlimited. */
  datatype Caps = Caps(iterations: int, duration: int, tokens: int)

  /** What a finished leg reports. */
  datatype Report = Report(interrupted: bool, reason: Option<Reason>, tokens: int)

  /** What the actor does by itself when a leg is over. */
  datatype Next = Continue | Finalize | Rest

  function PerLeg(stepInterval: int, actorDefault: int): (n: int)
    ensures n > 0
  {
    if stepInterval > 0 then stepInterval else if actorDefault > 0 then actorDefault else DEFAULT_ITERATIONS
  }

  /** The resumes after a first leg that a number of iterations takes. */
  function ResumesFor(total: int, perLeg: int): (n: int)
    requires perLeg > 0
  {
    if (total + perLeg - 1) / perLeg - 1 < 0 then 0 else (total + perLeg - 1) / perLeg - 1
  }

  function AtLeast(low: int, n: int): int {
    if n < low then low else n
  }

  function Disarmed(b: Budget): Budget {
    UNARMED.(tokensTotal := b.tokensTotal)
  }

  function Armed(b: Budget, m: Request, actorDefault: int, now: int): Budget {
    if !m.autoContinue then Disarmed(b)
    else
      var perLeg := PerLeg(m.stepInterval, actorDefault);
      var duration := m.durationMs * MS;
      Budget(true, ResumesFor(AtLeast(perLeg, m.totalIterations), perLeg), if duration > 0 then Some(now + duration) else None,
             duration, perLeg, m.maxTokens, 0, 0, m.finalizerPrompt, false, m.finalizerIterations,
             m.finalizerDurationMs * MS, m.finalizerTokens, m.outputDir)
  }

  function FinalizerResumes(b: Budget, actorDefault: int): int {
    if b.finalizerIterations > 0 then ResumesFor(b.finalizerIterations, PerLeg(b.stepInterval, actorDefault))
    else FINALIZER_RESUMES
  }

  /** The budget the closing leg runs on. */
  function ForFinalizer(b: Budget, actorDefault: int, now: int): Budget {
    var duration := if b.finalizerDuration <= 0 then FINALIZER_DEADLINE else b.finalizerDuration;
    b.(armed := true, finalizing := true, left := FinalizerResumes(b, actorDefault), maxDuration := duration,
       deadline := Some(now + duration), maxTokens := b.finalizerTokens, tokensUsed := 0)
  }

  predicate AutoContinues(b: Budget, reason: Option<Reason>, now: int) {
    && b.armed && b.left > 0 && (reason == Some(MaxIterations) || reason == Some(MaxDuration))
    && (b.deadline.Some? ==> now < b.deadline.value)
  }

  predicate Finalizes(b: Budget, reason: Option<Reason>) {
    && b.armed && !b.finalizing && b.finalizerPrompt != ""
    && (reason == Some(MaxIterations) || reason == Some(MaxDuration) || reason == Some(TokenBudget))
  }

  function Spent(b: Budget, tokens: int): Budget {
    b.(tokensUsed := b.tokensUsed + tokens, tokensTotal := b.tokensTotal + tokens)
  }

  /** What follows a leg when no prompt is waiting, and the budget it leaves. */
  function After(b: Budget, r: Report, actorDefault: int, now: int): (Budget, Next) {
    Decided(Spent(b, r.tokens), r, actorDefault, now)
  }

  function Decided(s: Budget, r: Report, actorDefault: int, now: int): (Budget, Next) {
    if !r.interrupted then (Disarmed(s), Rest)
    else if AutoContinues(s, r.reason, now) then (s.(left := s.left - 1), Continue)
    else if Finalizes(s, r.reason) then (ForFinalizer(s, actorDefault, now), Finalize)
    else (if r.reason == Some(AwaitingInfo) || r.reason == None then s else Disarmed(s), Rest)
  }

  function LegCaps(b: Budget, actorDefault: int, now: int): Caps {
    Caps(if b.armed && b.stepInterval > 0 then b.stepInterval else PerLeg(0, actorDefault),
         if b.armed && b.deadline.Some? && b.deadline.value - now > 0 then b.deadline.value - now else 0,
         if b.armed && b.maxTokens > 0 && b.maxTokens - b.tokensUsed > 0 then b.maxTokens - b.tokensUsed else 0)
  }

  // Chains of legs with no prompt in between.

  /** A leg: when its caps were set, what it did, and when its end was handled. */
  datatype Leg = Leg(start: int, iterations: int, report: Report, end: int)

  /** The leg is one the loop could have run under these caps. */
  ghost predicate Fits(caps: Caps, leg: Leg) {
    && leg.start <= leg.end && 0 <= leg.iterations <= caps.iterations && leg.report.tokens >= 0
    && (leg.report.interrupted && leg.report.reason == Some(MaxIterations) ==> caps.tokens > 0 ==> leg.report.tokens < caps.tokens)
    && (leg.report.interrupted && leg.report.reason == Some(MaxDuration) ==> caps.duration > 0 && leg.end - leg.start >= caps.duration)
    && (leg.report.interrupted && leg.report.reason == Some(TokenBudget) ==> caps.tokens > 0 && leg.report.tokens >= caps.tokens)
  }

  /** What a run of the loop under the caps reports fits them, when its time passes no faster than
      the actor's. */
  lemma RunFits(caps: Caps, limit: int, provider: string, model: string, turns: seq<ConversationTurn>, env: nat -> Round,
                start: int, end: int)
    requires caps.iterations > 0 && start <= end
    requires forall n :: env(n).elapsed <= end - start
    ensures var s := Run(Config(caps.iterations, caps.duration, caps.tokens, limit, provider, model),
                         State(turns, 0, 0, 0, [], false, None, Executing, ""), env);
            Fits(caps, Leg(start, s.iteration, Report(s.interrupted, s.reason, s.tokensUsed), end))
  {
    RunStops(Config(caps.iterations, caps.duration, caps.tokens, limit, provider, model),
             State(turns, 0, 0, 0, [], false, None, Executing, ""), env);
  }

  /** The legs follow from one another with nobody prompting: each but the last is resumed or finalized. */
  ghost predicate Chain(b: Budget, legs: seq<Leg>, actorDefault: int)
    decreases |legs|
  {
    legs == []
    || (Fits(LegCaps(b, actorDefault, legs[0].start), legs[0])
        && (|legs| > 1 ==>
              var (next, step) := After(b, legs[0].report, actorDefault, legs[0].end);
              step != Rest && legs[1].start >= legs[0].end && Chain(next, legs[1..], actorDefault)))
  }

  ghost predicate Sane(b: Budget) {
    b.left >= 0 && (b.armed ==> b.stepInterval > 0)
  }

  /** The legs a budget can still lead to: this one, the resumes left, and the closing leg with its own. */
  function MostLegs(b: Budget, actorDefault: int): int {
    if !b.armed then 1
    else 1 + b.left + if !b.finalizing && b.finalizerPrompt != "" then 1 + FinalizerResumes(b, actorDefault) else 0
  }

  lemma AfterIsSane(b: Budget, r: Report, actorDefault: int, now: int)
    requires Sane(b)
    ensures Sane(After(b, r, actorDefault, now).0)
  {
  }

  /** Each leg that leads on brings the budget nearer its end. */
  lemma EachLegCounts(b: Budget, r: Report, actorDefault: int, now: int)
    requires Sane(b) && After(b, r, actorDefault, now).1 != Rest
    ensures var (next, step) := After(b, r, actorDefault, now);
            && Sane(next) && b.armed && next.armed && 1 <= MostLegs(next, actorDefault) < MostLegs(b, actorDefault)
            && next.stepInterval == b.stepInterval && next.finalizerPrompt == b.finalizerPrompt
            && (step == Continue ==> next.finalizing == b.finalizing && next.left == b.left - 1 && b.left > 0)
            && (step == Finalize ==> next.finalizing && !b.finalizing && next.left == FinalizerResumes(b, actorDefault))
            && FinalizerResumes(next, actorDefault) == FinalizerResumes(b, actorDefault)
  {
  }

  lemma {:induction false} LegsAreBounded(b: Budget, legs: seq<Leg>, actorDefault: int)
    requires Sane(b) && Chain(b, legs, actorDefault)
    ensures |legs| <= MostLegs(b, actorDefault)
    decreases |legs|
  {
    if |legs| > 1 {
      EachLegCounts(b, legs[0].report, actorDefault, legs[0].end);
      LegsAreBounded(After(b, legs[0].report, actorDefault, legs[0].end).0, legs[1..], actorDefault);
    }
  }

  /** The steps the actor takes by itself between the legs. */
  ghost function Steps(b: Budget, legs: seq<Leg>, actorDefault: int): seq<Next>
    decreases |legs|
  {
    if |legs| <= 1 then []
    else
      var (next, step) := After(b, legs[0].report, actorDefault, legs[0].end);
      [step] + Steps(next, legs[1..], actorDefault)
  }

  function Continues(n: nat): seq<Next> {
    seq(n, i => Continue)
  }

  /** First resumes within the allowance, then at most one closing leg, then its own resumes. */
  lemma {:induction false} StepsInOrder(b: Budget, legs: seq<Leg>, actorDefault: int) returns (i: nat, j: nat)
    requires Sane(b) && Chain(b, legs, actorDefault)
    ensures i <= b.left && j <= AtLeast(0, FinalizerResumes(b, actorDefault))
    ensures Steps(b, legs, actorDefault) == Continues(i)
            || (!b.finalizing && b.finalizerPrompt != ""
                && Steps(b, legs, actorDefault) == Continues(i) + [Finalize] + Continues(j))
    decreases |legs|
  {
    if |legs| <= 1 {
      i, j := 0, 0;
      assert Continues(0) == [];
    } else {
      var (next, step) := After(b, legs[0].report, actorDefault, legs[0].end);
      EachLegCounts(b, legs[0].report, actorDefault, legs[0].end);
      var m, n := StepsInOrder(next, legs[1..], actorDefault);
      if step == Continue {
        i, j := m + 1, n;
        assert [Continue] + Continues(m) == Continues(m + 1);
        assert [Continue] + (Continues(m) + [Finalize] + Continues(n)) == Continues(m + 1) + [Finalize] + Continues(n);
      } else {
        i, j := 0, m;
        assert Continues(0) + [Finalize] + Continues(m) == [Finalize] + Continues(m);
      }
    }
  }

  /** The iterations of the legs before the closing one. */
  ghost function MainIterations(b: Budget, legs: seq<Leg>, actorDefault: int): int
    decreases |legs|
  {
    if legs == [] || b.finalizing then 0
    else legs[0].iterations
         + if |legs| == 1 then 0
           else MainIterations(After(b, legs[0].report, actorDefault, legs[0].end).0, legs[1..], actorDefault)
  }

  lemma {:induction false} MainIterationsBounded(b: Budget, legs: seq<Leg>, actorDefault: int)
    requires Sane(b) && b.armed && Chain(b, legs, actorDefault)
    ensures MainIterations(b, legs, actorDefault) <= (b.left + 1) * b.stepInterval
    decreases |legs|
  {
    if legs != [] && !b.finalizing {
      assert legs[0].iterations <= b.stepInterval;
      if |legs| == 1 {
        assert b.stepInterval <= (b.left + 1) * b.stepInterval by { MultipleGrows(b.left, b.stepInterval); }
      } else {
        var (next, step) := After(b, legs[0].report, actorDefault, legs[0].end);
        EachLegCounts(b, legs[0].report, actorDefault, legs[0].end);
        MultipleGrows(b.left, b.stepInterval);
        MainIterationsBounded(next, legs[1..], actorDefault);
        assert step == Continue ==> (next.left + 1) * next.stepInterval == b.left * b.stepInterval;
      }
    } else {
      MultipleGrows(b.left, b.stepInterval);
    }
  }

  lemma MultipleGrows(n: int, p: int)
    requires n >= 0 && p > 0
    ensures 0 <= n * p && (n + 1) * p == n * p + p
  {
  }

  /** The resumes are as many as it takes to reach the total, and no more. */
  lemma ResumesReachTotal(total: int, perLeg: int)
    requires 0 < perLeg <= total
    ensures var n := ResumesFor(total, perLeg); n >= 0 && n * perLeg < total <= (n + 1) * perLeg < total + perLeg
  {
    var x := total + perLeg - 1;
    assert x == x / perLeg * perLeg + x % perLeg;
    var q := x / perLeg;
    QuotientPositive(x, perLeg);
    assert (q - 1) * perLeg == q * perLeg - perLeg;
  }

  lemma QuotientPositive(x: int, p: int)
    requires 0 < p <= x
    ensures x / p >= 1
  {
  }

  lemma ArmedIsSane(b: Budget, m: Request, actorDefault: int, now: int)
    requires m.autoContinue
    ensures var a := Armed(b, m, actorDefault, now); var perLeg := PerLeg(m.stepInterval, actorDefault);
            Sane(a) && a.armed && !a.finalizing && a.stepInterval == perLeg
            && a.left == ResumesFor(AtLeast(perLeg, m.totalIterations), perLeg)
  {
  }

  /** Some resumes, or some resumes, a closing leg and its own resumes. */
  ghost predicate Phases(steps: seq<Next>, i: nat, j: nat) {
    steps == Continues(i) || steps == Continues(i) + [Finalize] + Continues(j)
  }

  /** Armed while idle and left alone, a run makes at most ceil(total / perLeg) - 1 resumes, then at
      most one closing leg, then at most that leg's resumes; and its main legs use fewer than
      total + perLeg iterations. */
  lemma ArmedRunEnds(b: Budget, m: Request, actorDefault: int, now: int, legs: seq<Leg>)
    requires m.autoContinue && Chain(Armed(b, m, actorDefault, now), legs, actorDefault)
    ensures |legs| <= MostLegs(Armed(b, m, actorDefault, now), actorDefault)
    ensures MainIterations(Armed(b, m, actorDefault, now), legs, actorDefault)
          < AtLeast(PerLeg(m.stepInterval, actorDefault), m.totalIterations) + PerLeg(m.stepInterval, actorDefault)
    ensures exists i: nat, j: nat :: Phases(Steps(Armed(b, m, actorDefault, now), legs, actorDefault), i, j)
              && i * PerLeg(m.stepInterval, actorDefault) < AtLeast(PerLeg(m.stepInterval, actorDefault), m.totalIterations)
              && j <= AtLeast(0, FinalizerResumes(Armed(b, m, actorDefault, now), actorDefault))
  {
    var a := Armed(b, m, actorDefault, now);
    var perLeg := PerLeg(m.stepInterval, actorDefault);
    var total := AtLeast(perLeg, m.totalIterations);
    ArmedIsSane(b, m, actorDefault, now);
    hide *;
    AtLeastIs(perLeg, m.totalIterations);
    ResumesReachTotal(total, perLeg);
    var i, j := StepsInOrder(a, legs, actorDefault);
    LegsAreBounded(a, legs, actorDefault);
    MainIterationsBounded(a, legs, actorDefault);
    FewerMultiples(i, a.left, perLeg);
    PhasesAre(Steps(a, legs, actorDefault), i, j);
  }

  lemma PhasesAre(steps: seq<Next>, i: nat, j: nat)
    requires steps == Continues(i) || steps == Continues(i) + [Finalize] + Continues(j)
    ensures Phases(steps, i, j)
  {
  }

  lemma AtLeastIs(low: int, n: int)
    ensures AtLeast(low, n) >= low && AtLeast(low, n) >= n
  {
  }

  lemma FewerMultiples(i: nat, n: int, p: int)
    requires i <= n && p > 0
    ensures i * p <= n * p
  {
  }

  /** Every leg of a chain has tokens left to use if there is a token budget; the leg before it was
      over before the deadline; and its time is capped exactly if it starts before the deadline. */
  lemma {:induction false} ResumedLegsAreFunded(b: Budget, legs: seq<Leg>, actorDefault: int, k: nat)
    requires Sane(b) && Chain(b, legs, actorDefault) && k < |legs|
    requires b.armed && (b.maxTokens > 0 ==> b.tokensUsed < b.maxTokens)
    ensures var c := BudgetAt(b, legs, actorDefault, k);
            && (c.maxTokens > 0 ==> LegCaps(c, actorDefault, legs[k].start).tokens == c.maxTokens - c.tokensUsed > 0)
            && (k > 0 && c.deadline.Some? ==> legs[k - 1].end < c.deadline.value)
            && (LegCaps(c, actorDefault, legs[k].start).duration > 0 <==> c.deadline.Some? && legs[k].start < c.deadline.value)
    decreases k
  {
    if k > 0 {
      var (next, step) := After(b, legs[0].report, actorDefault, legs[0].end);
      EachLegCounts(b, legs[0].report, actorDefault, legs[0].end);
      ResumedIsFunded(b, legs[0], actorDefault);
      ResumedLegsAreFunded(next, legs[1..], actorDefault, k - 1);
    }
  }

  /** A leg that is resumed in time but starts after the deadline runs without any cap on its time: ten
      iterations in legs of five, a deadline at one millisecond, and a second leg that starts past it
      and takes as long as it likes. */
  lemma LateLegIsUncapped(long: nat)
    ensures var b := Armed(UNARMED, Request(true, 10, 1, 5, 0, "", 0, 0, 0, ""), 0, 0);
            var capped := Report(true, Some(MaxIterations), 0);
            var legs := [Leg(0, 5, capped, MS - 1), Leg(MS + 1, 5, capped, MS + 1 + long)];
            && b.deadline == Some(MS) && Chain(b, legs, 0) && After(b, capped, 0, MS - 1).1 == Continue
            && LegCaps(BudgetAt(b, legs, 0, 1), 0, legs[1].start).duration == 0
  {
    var b := Armed(UNARMED, Request(true, 10, 1, 5, 0, "", 0, 0, 0, ""), 0, 0);
    var capped := Report(true, Some(MaxIterations), 0);
    var legs := [Leg(0, 5, capped, MS - 1), Leg(MS + 1, 5, capped, MS + 1 + long)];
    assert b.left == 1;
    assert legs[1..] == [legs[1]];
    assert Chain(After(b, capped, 0, MS - 1).0, [legs[1]], 0);
  }

  /** The budget the k-th leg of a chain runs on. */
  ghost function BudgetAt(b: Budget, legs: seq<Leg>, actorDefault: int, k: nat): Budget
    requires k < |legs|
    decreases k
  {
    if k == 0 then b
    else BudgetAt(After(b, legs[0].report, actorDefault, legs[0].end).0, legs[1..], actorDefault, k - 1)
  }

  lemma ResumedIsFunded(b: Budget, leg: Leg, actorDefault: int)
    requires Sane(b) && b.armed && (b.maxTokens > 0 ==> b.tokensUsed < b.maxTokens)
    requires Fits(LegCaps(b, actorDefault, leg.start), leg) && After(b, leg.report, actorDefault, leg.end).1 != Rest
    ensures var (next, step) := After(b, leg.report, actorDefault, leg.end);
            && (next.maxTokens > 0 ==> next.tokensUsed < next.maxTokens)
            && (next.deadline.Some? ==> leg.end < next.deadline.value)
            && (leg.report.reason == Some(MaxDuration) ==> step == Finalize)
            && (leg.report.reason == Some(TokenBudget) ==> step == Finalize)
  {
  }

  /** Time and tokens are ceilings: a leg that stops on either is never resumed, only finalized. */
  lemma CeilingsAreNotResumed(b: Budget, leg: Leg, actorDefault: int)
    requires Fits(LegCaps(b, actorDefault, leg.start), leg) && leg.report.interrupted
    requires leg.report.reason == Some(MaxDuration) || leg.report.reason == Some(TokenBudget)
    ensures After(b, leg.report, actorDefault, leg.end).1 != Continue
  {
  }

  /** A question leaves the budget armed for the answer; every other rest disarms it. */
  lemma RestKeepsOnlyQuestions(b: Budget, r: Report, actorDefault: int, now: int)
    requires After(b, r, actorDefault, now).1 == Rest && (r.interrupted ==> r.reason.Some?)
    ensures After(b, r, actorDefault, now).0.armed <==> b.armed && r.interrupted && r.reason == Some(AwaitingInfo)
  {
  }
}
