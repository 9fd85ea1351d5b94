/** When a long run is resumed, when it gets its closing leg and when it rests, in terms of the
    budget's fields, the leg's report and the clock; and what each leaves of the budget. */
module BudgetLaws {
  import opened Basics
  import opened RunLoop
  import opened RunBudget

  // What follows a leg.

  ghost predicate OnCap(reason: Option<Reason>) {
    reason == Some(MaxIterations) || reason == Some(MaxDuration) || reason == Some(TokenBudget)
  }

  /** Resumes left, time left, and a leg that stopped on its iterations or its time. */
  ghost predicate IsResumed(b: Budget, r: Report, now: int) {
    && r.interrupted && b.armed && b.left > 0 && (r.reason == Some(MaxIterations) || r.reason == Some(MaxDuration))
    && (b.deadline == None || now < b.deadline.value)
  }

  /** Else, once, after any cap, if there is a prompt for it. */
  ghost predicate IsClosed(b: Budget, r: Report, now: int) {
    !IsResumed(b, r, now) && r.interrupted && b.armed && !b.finalizing && b.finalizerPrompt != "" && OnCap(r.reason)
  }

  /** A leg is resumed, closed or left at rest exactly so. */
  lemma StepIff(b: Budget, r: Report, actorDefault: int, now: int)
    ensures After(b, r, actorDefault, now).1 == Continue <==> IsResumed(b, r, now)
    ensures After(b, r, actorDefault, now).1 == Finalize <==> IsClosed(b, r, now)
    ensures After(b, r, actorDefault, now).1 == Rest <==> !IsResumed(b, r, now) && !IsClosed(b, r, now)
  {
  }

  // What becomes of the budget.

  /** The iterations of one leg: those set for the run, else the actor's own, else twenty. */
  ghost predicate LegOf(stepInterval: int, actorDefault: int, perLeg: int) {
    perLeg == if stepInterval > 0 then stepInterval else if actorDefault > 0 then actorDefault else 20
  }

  /** The fewest resumes after a first leg that reach a number of iterations. */
  ghost predicate FewestResumes(total: int, perLeg: int, n: int) {
    n >= 0 && total <= (n + 1) * perLeg && (n > 0 ==> n * perLeg < total)
  }

  lemma ResumesAreFewest(total: int, perLeg: int)
    requires perLeg > 0
    ensures FewestResumes(total, perLeg, ResumesFor(total, perLeg))
  {
    if total >= perLeg {
      ResumesReachTotal(total, perLeg);
    } else {
      var x := total + perLeg - 1;
      assert x == x / perLeg * perLeg + x % perLeg;
      var q := x / perLeg;
      AtMostOne(x, perLeg, q);
    }
  }

  lemma AtMostOne(x: int, p: int, q: int)
    requires p > 0 && x < 2 * p - 1 && q == x / p
    ensures q <= 1
  {
    assert x == q * p + x % p;
    if q >= 2 {
      Multiples(q, p);
    }
  }

  lemma Multiples(q: int, p: int)
    requires q >= 2 && p > 0
    ensures q * p >= 2 * p
  {
  }

  ghost predicate Counted(b: Budget, r: Report, c: Budget) {
    c.tokensTotal == b.tokensTotal + r.tokens
  }

  /** A resume costs one of those left and counts the tokens; nothing else changes. */
  ghost predicate Resumed(b: Budget, r: Report, c: Budget) {
    c == b.(left := b.left - 1, tokensUsed := b.tokensUsed + r.tokens, tokensTotal := b.tokensTotal + r.tokens)
  }

  /** The closing leg runs on its own share: fresh resumes, a fresh deadline, a fresh token budget. */
  ghost predicate ClosedOut(b: Budget, r: Report, actorDefault: int, now: int, c: Budget) {
    && c.armed && c.finalizing && Counted(b, r, c) && c.tokensUsed == 0 && c.maxTokens == b.finalizerTokens
    && (if b.finalizerIterations > 0 then exists perLeg :: LegOf(b.stepInterval, actorDefault, perLeg) && FewestResumes(b.finalizerIterations, perLeg, c.left)
        else c.left == 1)
    && c.maxDuration == (if b.finalizerDuration > 0 then b.finalizerDuration else 300_000_000_000)
    && c.deadline == Some(now + c.maxDuration)
    && c.stepInterval == b.stepInterval && c.finalizerPrompt == b.finalizerPrompt && c.finalizerIterations == b.finalizerIterations
    && c.finalizerDuration == b.finalizerDuration && c.finalizerTokens == b.finalizerTokens && c.outputDir == b.outputDir
  }

  /** Nothing of the run is left but the count of its tokens. */
  ghost predicate Cleared(total: int, c: Budget) {
    c == Budget(false, 0, None, 0, 0, 0, 0, total, "", false, 0, 0, 0, "")
  }

  /** Each step leaves the budget so. A question leaves it as it is, for the answer; every other rest clears it. */
  lemma BudgetAfter(b: Budget, r: Report, actorDefault: int, now: int)
    ensures var (c, step) := After(b, r, actorDefault, now);
            && (step == Continue ==> Resumed(b, r, c))
            && (step == Finalize ==> ClosedOut(b, r, actorDefault, now, c))
            && (step == Rest ==>
                  if r.interrupted && (r.reason == Some(AwaitingInfo) || r.reason == None)
                  then c == b.(tokensUsed := b.tokensUsed + r.tokens, tokensTotal := b.tokensTotal + r.tokens)
                  else Cleared(b.tokensTotal + r.tokens, c))
  {
    var perLeg := PerLeg(b.stepInterval, actorDefault);
    assert LegOf(b.stepInterval, actorDefault, perLeg);
    ResumesAreFewest(b.finalizerIterations, perLeg);
    hide ResumesFor, FewestResumes;
  }

  /** Arming sets every field from the request; not to continue clears it. */
  lemma ArmedSets(b: Budget, m: Request, actorDefault: int, now: int)
    ensures var c := Armed(b, m, actorDefault, now);
            if !m.autoContinue then Cleared(b.tokensTotal, c)
            else
              && c.armed && !c.finalizing && c.tokensUsed == c.tokensTotal == 0 && LegOf(m.stepInterval, actorDefault, c.stepInterval)
              && FewestResumes(if m.totalIterations > c.stepInterval then m.totalIterations else c.stepInterval, c.stepInterval, c.left)
              && c.maxDuration == m.durationMs * 1_000_000
              && c.deadline == (if m.durationMs > 0 then Some(now + m.durationMs * 1_000_000) else None)
              && c.maxTokens == m.maxTokens && c.finalizerPrompt == m.finalizerPrompt && c.finalizerIterations == m.finalizerIterations
              && c.finalizerDuration == m.finalizerDurationMs * 1_000_000 && c.finalizerTokens == m.finalizerTokens && c.outputDir == m.outputDir
  {
    if m.autoContinue {
      var perLeg := PerLeg(m.stepInterval, actorDefault);
      ResumesAreFewest(AtLeast(perLeg, m.totalIterations), perLeg);
      hide ResumesFor, FewestResumes;
    }
  }

  /** What a leg may use: the run's share of iterations, the time to the deadline and the tokens left, each
      only where there is a limit and something left of it. */
  lemma CapsAre(b: Budget, actorDefault: int, now: int)
    ensures var caps := LegCaps(b, actorDefault, now);
            && LegOf(if b.armed then b.stepInterval else 0, actorDefault, caps.iterations)
            && caps.duration == (if b.armed && b.deadline.Some? && now < b.deadline.value then b.deadline.value - now else 0)
            && caps.tokens == (if b.armed && b.maxTokens > 0 && b.tokensUsed < b.maxTokens then b.maxTokens - b.tokensUsed else 0)
  {
  }

  // Chains.

  lemma {:induction false} ChainKeeps(b: Budget, legs: seq<Leg>, actorDefault: int, k: nat)
    requires Sane(b) && b.armed && Chain(b, legs, actorDefault) && k < |legs|
    ensures BudgetAt(b, legs, actorDefault, k).armed && BudgetAt(b, legs, actorDefault, k).finalizerPrompt == b.finalizerPrompt
    decreases k
  {
    if k > 0 {
      var next := After(b, legs[0].report, actorDefault, legs[0].end).0;
      EachLegCounts(b, legs[0].report, actorDefault, legs[0].end);
      ChainKeeps(next, legs[1..], actorDefault, k - 1);
    }
  }

  /** The step after a leg of a chain. */
  ghost function StepAt(b: Budget, legs: seq<Leg>, actorDefault: int, k: nat): Next
    requires k < |legs|
  {
    After(BudgetAt(b, legs, actorDefault, k), legs[k].report, actorDefault, legs[k].end).1
  }

  /** A chain is in its closing part exactly if it has had its closing step. */
  lemma {:induction false} ClosingWasBegun(b: Budget, legs: seq<Leg>, actorDefault: int, k: nat)
    requires Sane(b) && !b.finalizing && Chain(b, legs, actorDefault) && k < |legs|
    ensures BudgetAt(b, legs, actorDefault, k).finalizing ==> exists j: nat :: j < k && StepAt(b, legs, actorDefault, j) == Finalize
    decreases k
  {
    if k > 0 {
      var (next, step) := After(b, legs[0].report, actorDefault, legs[0].end);
      EachLegCounts(b, legs[0].report, actorDefault, legs[0].end);
      if step == Finalize {
        assert StepAt(b, legs, actorDefault, 0) == Finalize;
      } else if BudgetAt(b, legs, actorDefault, k).finalizing {
        ClosingWasBegun(next, legs[1..], actorDefault, k - 1);
        var j: nat :| j < k - 1 && StepAt(next, legs[1..], actorDefault, j) == Finalize;
        assert StepAt(b, legs, actorDefault, j + 1) == Finalize;
      }
    }
  }

  /** A run with a closing prompt comes to rest on a cap only after its closing leg. */
  lemma RestsOnCapOnlyClosed(b: Budget, legs: seq<Leg>, actorDefault: int, k: nat)
    requires Sane(b) && b.armed && !b.finalizing && b.finalizerPrompt != "" && Chain(b, legs, actorDefault) && k < |legs|
    requires legs[k].report.interrupted && OnCap(legs[k].report.reason) && StepAt(b, legs, actorDefault, k) == Rest
    ensures exists j: nat :: j < k && StepAt(b, legs, actorDefault, j) == Finalize
  {
    hide After, Chain;
    ChainKeeps(b, legs, actorDefault, k);
    StepIff(BudgetAt(b, legs, actorDefault, k), legs[k].report, actorDefault, legs[k].end);
    ClosingWasBegun(b, legs, actorDefault, k);
  }
}
