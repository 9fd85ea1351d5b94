/** Safety over whole runs: every reachable board is good, and what a run has established
    stays established. */
module PeerRuns {
  import opened PeerState
  import opened PeerStep
  import opened PeerInvariant
  import opened PeerSafety

  /** A refused request leaves the board it was given. */
  ghost function Next(b: Board, x: Input): Board {
    if Step(b, x).Ok? then Step(b, x).value.board else b
  }

  /** A run of requests from the empty board, each drawing unused ids. */
  ghost predicate Run(boards: seq<Board>, inputs: seq<Input>) {
    && |boards| == |inputs| + 1 && boards[0] == NEW_BOARD
    && forall i :: 0 <= i < |inputs| ==> FreshFor(boards[i], inputs[i].ids) && boards[i + 1] == Next(boards[i], inputs[i])
  }

  lemma NextKeepsInv(b: Board, x: Input)
    requires Inv(b) && FreshFor(b, x.ids)
    ensures Inv(Next(b, x)) && Evolves(b, Next(b, x))
  {
    hide Inv, Evolves, Step, FreshFor;
    if Step(b, x).Ok? {
      StepKeepsInv(b, x);
    } else {
      EvolvesReflexive(b);
    }
  }

  lemma EmptyBoardIsGood()
    ensures Inv(NEW_BOARD)
  {
  }

  /** Every board of every run satisfies the invariant. */
  lemma {:induction false} RunIsSafe(boards: seq<Board>, inputs: seq<Input>, i: nat)
    requires Run(boards, inputs) && i < |boards|
    ensures Inv(boards[i])
    decreases i
  {
    hide Inv, Evolves, Next, FreshFor;
    if i == 0 {
      EmptyBoardIsGood();
    } else {
      RunIsSafe(boards, inputs, i - 1);
      NextKeepsInv(boards[i - 1], inputs[i - 1]);
    }
  }

  /** Between any two boards of a run, nothing established is undone. */
  lemma {:induction false} RunOnlyEvolves(boards: seq<Board>, inputs: seq<Input>, i: nat, j: nat)
    requires Run(boards, inputs) && i <= j < |boards|
    ensures Evolves(boards[i], boards[j])
    decreases j
  {
    hide Inv, Evolves, Next, FreshFor;
    if i == j {
      EvolvesReflexive(boards[i]);
    } else {
      RunOnlyEvolves(boards, inputs, i, j - 1);
      RunIsSafe(boards, inputs, j - 1);
      NextKeepsInv(boards[j - 1], inputs[j - 1]);
      EvolvesTransitive(boards[i], boards[j - 1], boards[j]);
    }
  }

  /** No term is ever held by two agents. */
  lemma TermHasOneLeader(boards: seq<Board>, inputs: seq<Input>, i: nat, j: nat)
    requires Run(boards, inputs) && i <= j < |boards| && boards[i].enabled
    requires boards[i].leadership.term == boards[j].leadership.term
    ensures boards[i].leadership.agentId == boards[j].leadership.agentId
  {
    hide Run, Inv;
    RunOnlyEvolves(boards, inputs, i, j);
  }

  /** A completed task is frozen for the rest of the run. */
  lemma CompletedIsFrozen(boards: seq<Board>, inputs: seq<Input>, i: nat, j: nat, tid: string)
    requires Run(boards, inputs) && i <= j < |boards|
    requires tid in boards[i].tasks && boards[i].tasks[tid].state == Completed
    ensures tid in boards[j].tasks && boards[j].tasks[tid] == boards[i].tasks[tid]
  {
    hide Run, Inv;
    RunOnlyEvolves(boards, inputs, i, j);
  }

  /** Revocation is permanent. */
  lemma RevocationIsPermanent(boards: seq<Board>, inputs: seq<Input>, i: nat, j: nat, pid: string)
    requires Run(boards, inputs) && i <= j < |boards|
    requires pid in boards[i].peers && boards[i].peers[pid].state == Revoked
    ensures pid in boards[j].peers && boards[j].peers[pid].state == Revoked && pid !in boards[j].peerSecrets
  {
    hide Run, Keyed, UniqueAttempts, TasksOk, CapacityOk, LeadershipOk, TaskEvolves;
    RunOnlyEvolves(boards, inputs, i, j);
    RunIsSafe(boards, inputs, j);
  }

  // Superseded attempts.

  predicate ActsOnAttempt(op: Op) {
    op.Claim? || op.Adopt? || op.Start? || op.Progress? || op.SubmitResult? || op.ReportFailure? || op.ConfirmCancelled? || op.Uncertain?
  }

  /** A successful act on an attempt names the current attempt of the task it resolves to. */
  lemma ActNamesCurrent(b: Board, x: Input)
    requires ActsOnAttempt(x.req.op) && Step(b, x).Ok?
    ensures ResolveTask(b, x.req.taskId).Ok?
    ensures var tid := ResolveTask(b, x.req.taskId).value;
            tid in b.tasks && b.tasks[tid].attempts != [] && Current(b.tasks[tid]).id == x.req.attemptId
  {
    hide ValidId, ExecutionGuard, OwnAgent, PeerGuard, AllCompleted, ActiveTasks, ResolveTask, OnlyTask, Change, PutTask, EventOf;
    var tid := ResolveTask(b, x.req.taskId).value;
    assert TaskRequest(b, x).Ok?;
    assert Current(b.tasks[tid]).id == x.req.attemptId;
  }

  lemma SupersededIsNotCurrent(b: Board, tid: string, n: nat, u: string)
    requires UniqueAttempts(b) && tid in b.tasks && n < |b.tasks[tid].attempts| - 1
    requires u in b.tasks && b.tasks[u].attempts != []
    ensures Current(b.tasks[u]).id != b.tasks[tid].attempts[n].id
  {
  }

  /** Once superseded, an attempt can never act again: every request that acts under its id is
      refused for the rest of the run. */
  lemma SupersededIsPowerless(boards: seq<Board>, inputs: seq<Input>, i: nat, j: nat, tid: string, n: nat, x: Input)
    requires Run(boards, inputs) && i <= j < |boards|
    requires tid in boards[i].tasks && n < |boards[i].tasks[tid].attempts| - 1
    requires ActsOnAttempt(x.req.op) && x.req.attemptId == boards[i].tasks[tid].attempts[n].id
    ensures Step(boards[j], x).Fail?
    ensures tid in boards[j].tasks && n < |boards[j].tasks[tid].attempts| - 1
    ensures boards[j].tasks[tid].attempts[n] == boards[i].tasks[tid].attempts[n]
  {
    hide Run, Keyed, TasksOk, CapacityOk, SecretsOk, LeadershipOk, Step;
    RunOnlyEvolves(boards, inputs, i, j);
    RunIsSafe(boards, inputs, j);
    var c := boards[j];
    assert TaskEvolves(boards[i].tasks[tid], c.tasks[tid]);
    forall u | u in c.tasks && c.tasks[u].attempts != [] ensures Current(c.tasks[u]).id != x.req.attemptId {
      SupersededIsNotCurrent(c, tid, n, u);
    }
    if Step(c, x).Ok? {
      ActNamesCurrent(c, x);
    }
  }

  // Dependencies.

  /** A chain of tasks, each a dependency of the one before it. */
  ghost predicate Chain(b: Board, path: seq<string>) {
    && path != []
    && (forall k :: 0 <= k < |path| ==> path[k] in b.tasks)
    && (forall k :: 0 <= k < |path| - 1 ==> path[k + 1] in b.tasks[path[k]].dependencies)
  }

  lemma CompletedWasClaimed(b: Board, tid: string)
    requires TasksOk(b) && tid in b.tasks && b.tasks[tid].state == Completed
    ensures EverClaimed(b.tasks[tid])
  {
    hide DependenciesOk, WorkerOk, StampOk;
    assert TaskOk(b, b.tasks[tid]);
    var t := b.tasks[tid];
    assert HasExecution(t.attempts[|t.attempts| - 1]);
  }

  lemma ClaimedNeedsCompleted(b: Board, tid: string, d: string)
    requires TasksOk(b) && tid in b.tasks && d in b.tasks[tid].dependencies
    ensures d in b.tasks && b.tasks[d].number < b.tasks[tid].number
    ensures EverClaimed(b.tasks[tid]) ==> b.tasks[d].state == Completed
  {
    hide AttemptsOk, WorkerOk, StampOk;
    assert TaskOk(b, b.tasks[tid]);
    assert DependenciesOk(b, b.tasks[tid]);
  }

  /** A task that was ever claimed has all its transitive dependencies completed, and no task
      depends on itself through any chain. */
  lemma {:induction false} TransitiveDependencies(b: Board, path: seq<string>)
    requires TasksOk(b) && Chain(b, path) && |path| > 1
    ensures EverClaimed(b.tasks[path[0]]) ==> b.tasks[path[|path| - 1]].state == Completed
    ensures b.tasks[path[|path| - 1]].number < b.tasks[path[0]].number
    decreases |path|
  {
    hide TasksOk, EverClaimed;
    ClaimedNeedsCompleted(b, path[0], path[1]);
    if |path| > 2 {
      var rest := path[1..];
      forall k | 0 <= k < |rest| - 1 ensures rest[k + 1] in b.tasks[rest[k]].dependencies {
        assert rest[k] == path[k + 1] && rest[k + 1] == path[k + 2];
      }
      if EverClaimed(b.tasks[path[0]]) {
        CompletedWasClaimed(b, path[1]);
      }
      TransitiveDependencies(b, rest);
    }
  }

  // Leases.

  /** The states an attempt can reach without a live lease. */
  predicate Wound(s: TaskState) {
    s.CancelRequested? || s.NeedsReconciliation? || s.Failed? || s.Cancelled?
  }

  /** Attempt `n` is as it was when its lease lapsed, or has only been wound down since. */
  ghost predicate Spent(b: Board, tid: string, n: nat, lease: int, state: TaskState) {
    && tid in b.tasks && n < |b.tasks[tid].attempts|
    && b.tasks[tid].attempts[n].leaseUntil == lease
    && (b.tasks[tid].attempts[n].state == state || Wound(b.tasks[tid].attempts[n].state))
  }

  predicate NeedsLease(op: Op) {
    op.Start? || op.Progress? || op.SubmitResult?
  }

  /** The request adopts the given task. */
  ghost predicate Adopts(b: Board, x: Input, tid: string) {
    x.req.op.Adopt? && ResolveTask(b, x.req.taskId) == Ok(tid)
  }

  /** The request adopts the given task, and is accepted. */
  ghost predicate AdoptedBy(b: Board, x: Input, tid: string) {
    Adopts(b, x, tid) && Step(b, x).Ok?
  }

  /** The task a request leaves under `tid`, in terms of the one it found. */
  ghost predicate LeaseUntouched(t: Task, u: Task) {
    && t.attempts != [] && |u.attempts| >= |t.attempts|
    && var n := |t.attempts| - 1;
       u.attempts[n].leaseUntil == t.attempts[n].leaseUntil && (u.attempts[n].state == t.attempts[n].state || Wound(u.attempts[n].state))
  }

  lemma ExecutionLapsed(b: Board, x: Input, tid: string, t: Task)
    requires tid in b.tasks && b.tasks[tid] == t && t.attempts != [] && Current(t).state == t.state
    requires Active(t.state) || Wound(t.state)
    requires Current(t).leaseUntil <= x.now && !x.req.op.Adopt?
    requires ExecutionRequest(b, x, tid).Ok?
    ensures !NeedsLease(x.req.op)
    ensures LeaseUntouched(t, ExecutionRequest(b, x, tid).value.board.tasks[tid])
  {
    hide ExecutionGuard, ValidText, ValidId, EventOf, OnlyTask, ProgressState, Moved, LeaseUntouched;
    MovedUntouched(t, Failed, x.req.text, x.now);
    MovedUntouched(t, Cancelled, "Local runner confirmed stopped", x.now);
    MovedUntouched(t, NeedsReconciliation, x.req.text, x.now);
  }

  lemma ReofferedUntouched(t: Task, l: Leadership, target: string, id: string, detail: string, now: int)
    requires t.attempts != []
    ensures LeaseUntouched(t, Moved(Reoffered(t, l, target, id), Offered, detail, now))
  {
  }

  lemma MovedUntouched(t: Task, state: TaskState, detail: string, now: int)
    requires t.attempts != [] && Wound(state)
    ensures LeaseUntouched(t, Moved(t, state, detail, now))
  {
  }

  lemma OwnTaskLapsed(b: Board, x: Input, tid: string, t: Task)
    requires tid in b.tasks && b.tasks[tid] == t && t.attempts != [] && Current(t).state == t.state
    requires Active(t.state) || Wound(t.state)
    requires Current(t).leaseUntil <= x.now && !x.req.op.Adopt?
    requires ResolveTask(b, x.req.taskId) == Ok(tid) && TaskRequest(b, x).Ok?
    ensures LeaseUntouched(t, TaskRequest(b, x).value.board.tasks[tid]) && !NeedsLease(x.req.op)
  {
    hide ExecutionRequest, ResolveTask, ClaimRequest, ReviewRequest, CancelRequest, ResolveRequest, RetryRequest, LeaseUntouched;
    match x.req.op
    case Claim => ClaimOrReviewRefused(b, x, tid);
    case Review => ClaimOrReviewRefused(b, x, tid);
    case Cancel => CancelOrResolveLapsed(b, x, tid);
    case Resolve => CancelOrResolveLapsed(b, x, tid);
    case Retry => RetryLapsed(b, x, tid);
    case _ => ExecutionLapsed(b, x, tid, t);
  }

  /** A task that is active or wound down is neither offered nor awaiting review. */
  lemma ClaimOrReviewRefused(b: Board, x: Input, tid: string)
    requires tid in b.tasks && b.tasks[tid].attempts != [] && (Active(b.tasks[tid].state) || Wound(b.tasks[tid].state))
    ensures ClaimRequest(b, x, tid).Fail? && ReviewRequest(b, x, tid).Fail?
  {
    hide OwnAgent, LeaderGuard, EventOf, AllCompleted, ActiveTasks, Moved, ClaimedTask, OnlyTask;
  }

  lemma CancelOrResolveLapsed(b: Board, x: Input, tid: string)
    requires tid in b.tasks && b.tasks[tid].attempts != [] && (Active(b.tasks[tid].state) || Wound(b.tasks[tid].state))
    ensures CancelRequest(b, x, tid).Ok? ==> LeaseUntouched(b.tasks[tid], CancelRequest(b, x, tid).value.board.tasks[tid])
    ensures ResolveRequest(b, x, tid).Ok? ==> LeaseUntouched(b.tasks[tid], ResolveRequest(b, x, tid).value.board.tasks[tid])
  {
    hide LeaderGuard, EventOf, Moved, LeaseUntouched, OnlyTask;
    MovedUntouched(b.tasks[tid], CancelRequested, x.req.text, x.now);
    MovedUntouched(b.tasks[tid], Failed, RESOLVED_NOTE + x.req.text, x.now);
  }

  lemma RetryLapsed(b: Board, x: Input, tid: string)
    requires tid in b.tasks && b.tasks[tid].attempts != [] && RetryRequest(b, x, tid).Ok?
    ensures LeaseUntouched(b.tasks[tid], RetryRequest(b, x, tid).value.board.tasks[tid])
  {
    hide RetryGuard, EventOf, Moved, Reoffered, LeaseUntouched, OnlyTask, TaskLabel;
    var t := b.tasks[tid];
    ReofferedUntouched(t, b.leadership, RetryGuard(b, x, tid).value, x.ids.attempt,
                       "Explicit retry of " + TaskLabel(t.number), x.now);
  }

  lemma TaskRequestLapsed(b: Board, x: Input, tid: string)
    requires Inv(b) && tid in b.tasks && (Active(b.tasks[tid].state) || Wound(b.tasks[tid].state)) && b.tasks[tid].attempts != []
    requires Current(b.tasks[tid]).leaseUntil <= x.now && !Adopts(b, x, tid)
    requires TaskRequest(b, x).Ok?
    ensures tid in TaskRequest(b, x).value.board.tasks
    ensures LeaseUntouched(b.tasks[tid], TaskRequest(b, x).value.board.tasks[tid])
    ensures ResolveTask(b, x.req.taskId) == Ok(tid) ==> !NeedsLease(x.req.op)
  {
    hide Inv, TaskRequest, ResolveTask, LeaseUntouched;
    CurrentMirrors(b, tid);
    if ResolveTask(b, x.req.taskId) == Ok(tid) {
      OwnTaskLapsed(b, x, tid, b.tasks[tid]);
    } else {
      UntouchedReflexive(b.tasks[tid]);
    }
  }

  /** A heartbeat never renews a lease that has lapsed. */
  lemma BeatLapsed(b: Board, pid: string, x: Input, tid: string)
    requires pid in b.peers && tid in b.tasks && b.tasks[tid].attempts != [] && Current(b.tasks[tid]).leaseUntil <= x.now
    ensures tid in Beat(b, pid, x).tasks && Beat(b, pid, x).tasks[tid] == b.tasks[tid]
  {
    hide PolledAgents, Reaffirmed;
  }

  lemma CurrentMirrors(b: Board, tid: string)
    requires Inv(b) && tid in b.tasks
    ensures b.tasks[tid].attempts != [] && Current(b.tasks[tid]).state == b.tasks[tid].state
  {
    assert TaskOk(b, b.tasks[tid]);
  }

  /** A board operation outside the task operations changes no attempt, except that a heartbeat
      renews leases that have not lapsed. */
  lemma PeerRequestLapsed(b: Board, x: Input, pid: string, tid: string)
    requires Inv(b) && FreshFor(b, x.ids) && pid in b.peers && tid in b.tasks && b.tasks[tid].attempts != []
    requires (Active(b.tasks[tid].state) || Wound(b.tasks[tid].state))
    requires Current(b.tasks[tid]).leaseUntil <= x.now && !Adopts(b, x, tid)
    requires PeerRequest(b, x, pid).Ok?
    ensures tid in PeerRequest(b, x, pid).value.board.tasks
    ensures LeaseUntouched(b.tasks[tid], PeerRequest(b, x, pid).value.board.tasks[tid])
    ensures ResolveTask(b, x.req.taskId) == Ok(tid) ==> !NeedsLease(x.req.op)
  {
    hide Inv, RegisterAgent, ResolveAgent, LeaderGuard, OwnAgent, Draining, EventOf, ResolveTask,
         TaskRequest, StandbyIds, FirstReady, SendAbout, LeaseUntouched, DependencyIds, Pending, Suits, ValidAssignment,
         AllCompleted, Beat, BenchedAgents, Restamped;
    UntouchedReflexive(b.tasks[tid]);
    match x.req.op
    case Register =>
    case Heartbeat => BeatLapsed(b, pid, x, tid);
    case Leave =>
    case Handover => RestampUntouched(b.tasks[tid]);
    case Acquire => RestampUntouched(b.tasks[tid]);
    case Standbys =>
    case BoardPause =>
    case Send =>
    case Objective =>
    case Assign =>
    case UnknownOp(_) =>
    case _ => TaskRequestLapsed(b, x, tid);
  }

  lemma UntouchedReflexive(t: Task)
    requires t.attempts != []
    ensures LeaseUntouched(t, t)
  {
  }

  lemma RestampUntouched(t: Task)
    requires t.attempts != []
    ensures forall leader, term, now :: LeaseUntouched(t, Restamped(t, leader, term, now))
  {
  }

  /** Any step after the lapse: the lease of the attempt is not renewed, no start, progress or
      result succeeds on its task, and its state only winds down. */
  lemma LapsedStep(b: Board, x: Input, tid: string)
    requires Inv(b) && FreshFor(b, x.ids) && tid in b.tasks && b.tasks[tid].attempts != []
    requires Active(b.tasks[tid].state) || Wound(b.tasks[tid].state)
    requires Current(b.tasks[tid]).leaseUntil <= x.now && !Adopts(b, x, tid)
    requires Step(b, x).Ok?
    ensures tid in Step(b, x).value.board.tasks
    ensures LeaseUntouched(b.tasks[tid], Step(b, x).value.board.tasks[tid])
    ensures x.req.op != Init && x.req.op != Join && ResolveTask(b, x.req.taskId) == Ok(tid) ==> !NeedsLease(x.req.op)
  {
    hide Inv, InitBoard, JoinRequest, PeerRequest, ValidId, PeerGuard, LeaseUntouched, ResolveTask;
    UntouchedReflexive(b.tasks[tid]);
    if x.req.op == Init {
      BoardWithTasksIsEnabled(b, tid);
      InitNeedsDisabled(b, x);
    } else if x.req.op == Join {
      assert JoinRequest(b, x).value.board.tasks == b.tasks;
    } else {
      PeerRequestLapsed(b, x, PeerGuard(b, x).value, tid);
    }
  }

  lemma BoardWithTasksIsEnabled(b: Board, tid: string)
    requires Inv(b) && tid in b.tasks
    ensures b.enabled
  {
    hide Keyed, UniqueAttempts, TasksOk, CapacityOk, SecretsOk;
  }

  lemma InitNeedsDisabled(b: Board, x: Input)
    requires InitBoard(b, x).Ok?
    ensures !b.enabled
  {
    hide JoinBoard, RegisterAgent;
  }

  lemma SpentStep(b: Board, x: Input, tid: string, n: nat, lease: int, state: TaskState)
    requires Inv(b) && FreshFor(b, x.ids) && Spent(b, tid, n, lease, state) && Active(state)
    requires lease <= x.now && !AdoptedBy(b, x, tid)
    ensures Spent(Next(b, x), tid, n, lease, state)
  {
    hide Inv, FreshFor, Step, Adopts;
    var t := b.tasks[tid];
    if Step(b, x).Ok? {
      if n == |t.attempts| - 1 {
        CurrentMirrors(b, tid);
        LapsedStep(b, x, tid);
      } else {
        StepKeepsInv(b, x);
        assert TaskEvolves(t, Next(b, x).tasks[tid]);
      }
    }
  }

  /** Over every run with a non-decreasing clock: once an active attempt's lease has lapsed, and
      as long as no adoption of its task is accepted, its lease is never renewed, and its state stays what it was
      or is wound down. */
  lemma {:induction false} LapsedStaysLapsed(boards: seq<Board>, inputs: seq<Input>, i: nat, j: nat, tid: string)
    requires Run(boards, inputs) && i <= j < |boards|
    requires forall k, l :: 0 <= k < l < |inputs| ==> inputs[k].now <= inputs[l].now
    requires tid in boards[i].tasks && boards[i].tasks[tid].attempts != [] && Active(boards[i].tasks[tid].state)
    requires i < |inputs| ==> Current(boards[i].tasks[tid]).leaseUntil <= inputs[i].now
    requires forall k :: i <= k < j ==> !AdoptedBy(boards[k], inputs[k], tid)
    ensures Spent(boards[j], tid, |boards[i].tasks[tid].attempts| - 1,
                  Current(boards[i].tasks[tid]).leaseUntil, boards[i].tasks[tid].state)
    decreases j
  {
    hide Inv, FreshFor, Next, AdoptedBy, Evolves;
    var t := boards[i].tasks[tid];
    RunIsSafe(boards, inputs, i);
    CurrentMirrors(boards[i], tid);
    if i < j {
      LapsedStaysLapsed(boards, inputs, i, j - 1, tid);
      RunIsSafe(boards, inputs, j - 1);
      SpentStep(boards[j - 1], inputs[j - 1], tid, |t.attempts| - 1, Current(t).leaseUntil, t.state);
    }
  }

  lemma SameAttemptSameTask(b: Board, tid: string, u: string)
    requires UniqueAttempts(b) && tid in b.tasks && u in b.tasks && b.tasks[tid].attempts != [] && b.tasks[u].attempts != []
    requires Current(b.tasks[tid]).id == Current(b.tasks[u]).id
    ensures tid == u
  {
  }

  /** And so, for the rest of the run, every start, progress or result under the lapsed attempt's id
      is refused, whether the attempt is still the current one or has been superseded. */
  lemma LapsedNeverActs(boards: seq<Board>, inputs: seq<Input>, i: nat, j: nat, tid: string)
    requires Run(boards, inputs) && i <= j < |inputs|
    requires forall k, l :: 0 <= k < l < |inputs| ==> inputs[k].now <= inputs[l].now
    requires tid in boards[i].tasks && boards[i].tasks[tid].attempts != [] && Active(boards[i].tasks[tid].state)
    requires Current(boards[i].tasks[tid]).leaseUntil <= inputs[i].now
    requires forall k :: i <= k < j ==> !AdoptedBy(boards[k], inputs[k], tid)
    requires NeedsLease(inputs[j].req.op) && inputs[j].req.attemptId == Current(boards[i].tasks[tid]).id
    ensures Step(boards[j], inputs[j]).Fail?
  {
    hide *;
    FreshAlong(boards, inputs, j);
    var n := |boards[i].tasks[tid].attempts| - 1;
    LapsedStaysLapsed(boards, inputs, i, j, tid);
    RunOnlyEvolves(boards, inputs, i, j);
    AttemptKeepsId(boards[i], boards[j], tid, n);
    RunIsSafe(boards, inputs, j);
    CurrentIs(boards[i].tasks[tid]);
    if n < |boards[j].tasks[tid].attempts| - 1 {
      ActsIfNeedsLease(inputs[j].req.op);
      SupersededIsPowerless(boards, inputs, j, j, tid, n, inputs[j]);
    } else {
      CurrentIs(boards[j].tasks[tid]);
      assert inputs[i].now <= inputs[j].now;
      SpentRefuses(boards[j], inputs[j], tid, Current(boards[i].tasks[tid]).leaseUntil, boards[i].tasks[tid].state);
    }
  }

  lemma CurrentIs(t: Task)
    requires t.attempts != []
    ensures Current(t) == t.attempts[|t.attempts| - 1]
  {
  }

  lemma ActsIfNeedsLease(op: Op)
    ensures NeedsLease(op) ==> ActsOnAttempt(op)
  {
  }

  lemma FreshAlong(boards: seq<Board>, inputs: seq<Input>, j: nat)
    requires Run(boards, inputs) && j < |inputs|
    ensures j < |boards| && FreshFor(boards[j], inputs[j].ids)
  {
    hide Next;
  }

  lemma AttemptKeepsId(b: Board, c: Board, tid: string, n: nat)
    requires Evolves(b, c) && tid in b.tasks && n < |b.tasks[tid].attempts|
    ensures tid in c.tasks && n < |c.tasks[tid].attempts| && c.tasks[tid].attempts[n].id == b.tasks[tid].attempts[n].id
  {
    hide TaskEvolves;
    assert TaskEvolves(b.tasks[tid], c.tasks[tid]);
    OneKeepsId(b.tasks[tid], c.tasks[tid], n);
  }

  lemma OneKeepsId(t: Task, u: Task, n: nat)
    requires TaskEvolves(t, u) && n < |t.attempts|
    ensures n < |u.attempts| && u.attempts[n].id == t.attempts[n].id
  {
  }

  /** A spent attempt that is still the current one refuses what needs a live lease. */
  lemma SpentRefuses(b: Board, x: Input, tid: string, lease: int, state: TaskState)
    requires Inv(b) && FreshFor(b, x.ids) && tid in b.tasks && b.tasks[tid].attempts != []
    requires Spent(b, tid, |b.tasks[tid].attempts| - 1, lease, state) && Active(state) && lease <= x.now
    requires NeedsLease(x.req.op) && x.req.attemptId == Current(b.tasks[tid]).id
    ensures Step(b, x).Fail?
  {
    hide Inv, FreshFor, Step, ResolveTask, LeaseUntouched, UniqueAttempts;
    if Step(b, x).Ok? {
      ActNamesCurrent(b, x);
      CurrentMirrors(b, tid);
      InvUnique(b);
      SameAttemptSameTask(b, tid, ResolveTask(b, x.req.taskId).value);
      LapsedStep(b, x, tid);
    }
  }

  lemma InvUnique(b: Board)
    requires Inv(b)
    ensures UniqueAttempts(b)
  {
  }

  // Claims.

  /** On a good board a claim of a waiting task that is refused as stale is refused because the peer's
      incarnation is not the asking one or the leader's lease has lapsed, and never because of the term. */
  lemma StaleClaimMeansLapsedLeader(b: Board, x: Input, tid: string)
    requires Inv(b) && tid in b.tasks && b.tasks[tid].attempts != [] && Claimable(b.tasks[tid].state)
    requires ClaimGuard(b, x, tid) == Fail(Stale)
    ensures OwnAgent(b, x) == Fail(Stale) || b.leadership.leaseUntil <= x.now
  {
    hide Inv, AllCompleted, ActiveTasks, ValidId;
    OfferCarriesTerm(b, tid);
  }

  /** An offered or queued task carries the current leader and term. */
  lemma OfferCarriesTerm(b: Board, tid: string)
    requires Inv(b) && tid in b.tasks && Claimable(b.tasks[tid].state)
    ensures b.tasks[tid].leaderTerm == b.leadership.term && b.tasks[tid].leaderId == b.leadership.agentId
  {
    hide Keyed, UniqueAttempts, CapacityOk, SecretsOk, LeadershipOk;
    assert TaskOk(b, b.tasks[tid]);
  }
}
