/** What each request needs and what it leaves, request by request: who may ask, when it is accepted,
    and every record it changes, in terms of the records themselves. */
module PeerLaws {
  import opened Basics
  import opened Decimal
  import opened PeerState
  import opened PeerStep

  // Who is asking.

  /** The peer's own token, user and incarnation. */
  ghost predicate Authentic(b: Board, x: Input) {
    var pid := x.req.peerId;
    && pid in b.peers && pid in b.peerSecrets && b.peerSecrets[pid] == Hash(x.auth.peerToken) && |x.auth.peerToken| >= 32
    && b.peers[pid].userId == x.auth.userId && b.peers[pid].incarnation == x.req.incarnation && b.peers[pid].state != Revoked
  }

  /** A member of the workspace who may write speaks the protocol's version. */
  ghost predicate WellMade(x: Input) {
    && x.req.schemaVersion == 1 && ValidId(x.req.id)
    && x.auth.userId != "" && x.auth.workspaceRole != "" && x.auth.workspaceRole != "observer"
  }

  ghost predicate Admitted(b: Board, x: Input) {
    WellMade(x) && b.enabled && Authentic(b, x)
  }

  ghost predicate Owns(b: Board, x: Input) {
    x.req.agentId in b.agents && b.agents[x.req.agentId].peerId == x.req.peerId
  }

  /** The current leader, in its term and under its lease, on a board that is not paused. */
  ghost predicate Leads(b: Board, x: Input) {
    && Owns(b, x) && x.req.agentId == b.leadership.agentId && x.req.term == b.leadership.term
    && x.now < b.leadership.leaseUntil && !b.paused
  }

  ghost predicate Operator(x: Input) {
    x.auth.workspaceRole == "owner" || x.auth.workspaceRole == "admin"
  }

  function Last(t: Task): Attempt
    requires t.attempts != []
  {
    t.attempts[|t.attempts| - 1]
  }

  /** The execution's own token, for the current attempt; its incarnation is as at the claim unless it adopts. */
  ghost predicate Executes(b: Board, x: Input, t: Task)
    requires t.attempts != []
  {
    var at := Last(t);
    && Owns(b, x) && at.id == x.req.attemptId && at.agentId == x.req.agentId && at.executionId == x.req.executionId
    && at.id in b.executionSecrets && b.executionSecrets[at.id] == Hash(x.auth.executionToken) && |x.auth.executionToken| >= 32
    && (at.incarnation == x.req.incarnation || x.req.op == Adopt)
  }

  ghost predicate Founding(op: Op) {
    op == Init || op == Join
  }

  lemma TokenIs(token: string, secrets: map<string, Secret>, id: string)
    ensures TokenMatches(token, secrets, id) <==> |token| >= 32 && id in secrets && secrets[id] == Hash(token)
  {
  }

  lemma PeerGuardIs(b: Board, x: Input)
    ensures PeerGuard(b, x).Ok? <==> Authentic(b, x)
    ensures PeerGuard(b, x).Ok? ==> PeerGuard(b, x) == Ok(x.req.peerId)
  {
  }

  lemma OwnAgentIs(b: Board, x: Input)
    ensures OwnAgent(b, x).Ok? <==> Authentic(b, x) && Owns(b, x)
    ensures OwnAgent(b, x).Ok? ==> OwnAgent(b, x) == Ok(x.req.agentId)
  {
    hide Authentic;
    PeerGuardIs(b, x);
  }

  lemma LeaderGuardIs(b: Board, x: Input)
    ensures LeaderGuard(b, x).Ok? <==> Authentic(b, x) && Leads(b, x)
    ensures LeaderGuard(b, x).Ok? ==> LeaderGuard(b, x) == Ok(x.req.agentId)
  {
    hide Authentic;
    OwnAgentIs(b, x);
  }

  lemma ExecutionGuardIs(b: Board, x: Input, tid: string)
    requires tid in b.tasks && b.tasks[tid].attempts != []
    ensures ExecutionGuard(b, x, tid).Ok? <==> Authentic(b, x) && Executes(b, x, b.tasks[tid])
  {
    hide Authentic;
    OwnAgentIs(b, x);
  }

  ghost predicate Stamped(out: Outcome, done: Outcome, now: int) {
    out == done.(board := done.board.(serverTime := now))
  }

  /** A request other than the founding ones is accepted only from an admitted peer. */
  lemma StepIs(b: Board, x: Input)
    requires !Founding(x.req.op)
    ensures Step(b, x).Ok? <==> Admitted(b, x) && x.req.peerId in b.peers && PeerRequest(b, x, x.req.peerId).Ok?
    ensures Step(b, x).Ok? ==> Stamped(Step(b, x).value, PeerRequest(b, x, x.req.peerId).value, x.now)
  {
    hide PeerRequest, PeerGuard, ValidId, Authentic;
    PeerGuardIs(b, x);
    AuthenticPeer(b, x);
  }

  lemma AuthenticPeer(b: Board, x: Input)
    ensures Authentic(b, x) ==> x.req.peerId in b.peers
  {
  }

  /** Every accepted request other than the founding ones presents the token filed for its peer, by
      that peer's user, in the incarnation the board knows. */
  lemma AcceptedIsAuthentic(b: Board, x: Input)
    requires !Founding(x.req.op) && Step(b, x).Ok?
    ensures Admitted(b, x)
  {
    hide Step, Admitted, PeerRequest;
    StepIs(b, x);
  }

  // Task operations.

  ghost predicate TaskOp(op: Op) {
    || op.Claim? || op.Review? || op.Cancel? || op.Resolve? || op.Retry?
    || op.Adopt? || op.Start? || op.Progress? || op.SubmitResult? || op.ReportFailure? || op.ConfirmCancelled? || op.Uncertain?
  }

  ghost predicate Executing(op: Op) {
    op.Adopt? || op.Start? || op.Progress? || op.SubmitResult? || op.ReportFailure? || op.ConfirmCancelled? || op.Uncertain?
  }

  ghost predicate Waiting(s: TaskState) {
    s == Offered || s == Queued
  }

  ghost predicate Underway(s: TaskState) {
    s == Claimed || s == Starting || s == Running || s == Blocked || s == WaitingLocalInput || s == CancelRequested || s == NeedsReconciliation
  }

  ghost predicate Over(s: TaskState) {
    s == Completed || s == Failed || s == Cancelled || s == Expired
  }

  lemma StatesAre(s: TaskState)
    ensures Claimable(s) <==> Waiting(s)
    ensures Active(s) <==> Underway(s)
    ensures Terminal(s) <==> Over(s)
  {
  }

  /** The state an operation may move a task from, and the one it moves it to. */
  ghost predicate Moves(r: Request, from: TaskState, to: TaskState) {
    match r.op
    case Claim => Waiting(from) && to == Claimed
    case Review => from == ResultSubmitted && to == (if r.ready then Completed else Failed)
    case Cancel => !Over(from) && to == (if Waiting(from) || from == ResultSubmitted then Cancelled else CancelRequested)
    case Resolve => Underway(from) && to == Failed
    case Retry => (from == Failed || from == Cancelled || from == Expired) && to == Offered
    case Adopt => Underway(from) && to == from
    case Start => from == Claimed && to == Running
    case Progress =>
      && !Over(from) && from != ResultSubmitted && from != CancelRequested
      && ((r.name == "running" && to == Running) || (r.name == "blocked" && to == Blocked)
          || (r.name == "waiting_local_input" && to == WaitingLocalInput)
          || (r.name == "" && to == from && (from == Running || from == Blocked || from == WaitingLocalInput)))
    case SubmitResult => !Over(from) && from != ResultSubmitted && from != CancelRequested && to == ResultSubmitted
    case ReportFailure => !Over(from) && from != ResultSubmitted && to == Failed
    case ConfirmCancelled => from == CancelRequested && to == Cancelled
    case Uncertain => !Over(from) && from != ResultSubmitted && to == NeedsReconciliation
    case _ => false
  }

  /** Who may ask for it. */
  ghost predicate Entitled(b: Board, x: Input, t: Task)
    requires t.attempts != []
  {
    match x.req.op
    case Claim => Owns(b, x) && t.agentId == x.req.agentId && Last(t).id == x.req.attemptId
    case Review => Leads(b, x)
    case Retry => Leads(b, x)
    case Cancel => Leads(b, x) || Operator(x)
    case Resolve => Operator(x) && x.req.confirmStopped
    case _ => Executes(b, x, t)
  }

  ghost predicate DependenciesDone(b: Board, t: Task) {
    forall i :: 0 <= i < |t.dependencies| ==> t.dependencies[i] in b.tasks && b.tasks[t.dependencies[i]].state == Completed
  }

  function UnderwayFor(b: Board, aid: string): set<string> {
    set id | id in b.tasks && b.tasks[id].agentId == aid
             && b.tasks[id].state in {Claimed, Starting, Running, Blocked, WaitingLocalInput, CancelRequested, NeedsReconciliation}
  }

  /** What else it depends on: versions, leases, readiness, room, and the texts it brings. */
  ghost predicate Timely(b: Board, x: Input, t: Task)
    requires t.attempts != []
  {
    match x.req.op
    case Claim =>
      && !b.paused && x.req.agentId in b.agents && b.agents[x.req.agentId].ready
      && x.req.peerId in b.peers && b.peers[x.req.peerId].state == Ready && x.now < b.peers[x.req.peerId].leaseUntil
      && t.version == x.req.taskVersion && t.leaderTerm == b.leadership.term && x.now < b.leadership.leaseUntil
      && DependenciesDone(b, t) && |UnderwayFor(b, x.req.agentId)| < b.agents[x.req.agentId].maxActive
      && ValidId(x.req.executionId) && 32 <= |x.auth.executionToken| <= 256
    case Review => t.version == x.req.taskVersion && |x.req.text| <= 16384
    case Cancel => |x.req.text| <= 16384
    case Resolve => |"Operator confirmed execution stopped: " + x.req.text| <= 16384
    case Retry => |t.attempts| < 20 && |"Explicit retry of " + ("T-" + Digits(t.number))| <= 16384 && RetryTarget(b, x, t).Some?
    case Adopt => true
    case Start => x.now < Last(t).leaseUntil && ValidId(x.req.paneId)
    case Progress => x.now < Last(t).leaseUntil && ValidText(x.req.text)
    case SubmitResult =>
      && x.now < Last(t).leaseUntil && 0 < |x.req.result.raw| <= 16384
      && x.req.result.summary.Some? && ValidText(x.req.result.summary.value)
    case ReportFailure => ValidText(x.req.text)
    case ConfirmCancelled => true
    case _ => |x.req.text| <= 16384
  }

  /** The worker a retry names, if it names one that offers the task's runner and project. */
  ghost function RetryTarget(b: Board, x: Input, t: Task): (target: Option<string>)
    ensures target.Some? ==> target.value in b.agents
  {
    var found := ResolveAgent(b, x.req.target);
    if found.Ok? && b.agents[found.value].role == "worker" && b.agents[found.value].runner == t.runner
       && t.project in b.agents[found.value].projects then Some(found.value)
    else None
  }

  /** The detail the current attempt carries afterwards. */
  ghost function DetailOf(x: Input, t: Task): string {
    match x.req.op
    case Claim => "Assignment claimed"
    case Resolve => "Operator confirmed execution stopped: " + x.req.text
    case Retry => "Explicit retry of " + ("T-" + Digits(t.number))
    case Start => "Task agent started"
    case SubmitResult => if x.req.result.summary.Some? then x.req.result.summary.value else ""
    case ConfirmCancelled => "Local runner confirmed stopped"
    case _ => x.req.text
  }

  /** The current attempt afterwards: moved with the task, and stamped with what the operation brings. */
  ghost predicate AttemptAfter(x: Input, t: Task, at: Attempt, after: Attempt, to: TaskState) {
    && after.id == at.id && after.number == at.number && after.agentId == at.agentId
    && after.state == (if x.req.op == Adopt then at.state else to)
    && after.detail == (if x.req.op == Adopt then at.detail else DetailOf(x, t))
    && after.executionId == (if x.req.op == Claim then x.req.executionId else at.executionId)
    && after.incarnation == (if x.req.op == Claim || x.req.op == Adopt then x.req.incarnation else at.incarnation)
    && after.leaseUntil == (if x.req.op == Claim || x.req.op == Adopt then x.now + 30_000_000_000 else at.leaseUntil)
    && after.paneId == (if x.req.op == Start then x.req.paneId else at.paneId)
    && after.startedAt == (if x.req.op == Start then Some(x.now) else at.startedAt)
    && after.result == (if x.req.op == SubmitResult then x.req.result.raw else at.result)
    && after.endedAt == (if x.req.op != Adopt && (Over(to) || to == ResultSubmitted) then Some(x.now) else at.endedAt)
  }

  /** The task afterwards. A retry appends an attempt for its target; every other operation changes the last. */
  ghost predicate TaskAfter(b: Board, x: Input, t: Task, u: Task, to: TaskState)
    requires t.attempts != []
  {
    var n := |t.attempts| - 1;
    && u.id == t.id && u.number == t.number && u.threadId == t.threadId && u.objective == t.objective && u.criteria == t.criteria
    && u.project == t.project && u.base == t.base && u.runner == t.runner && u.dependencies == t.dependencies
    && u.maxRuntimeSeconds == t.maxRuntimeSeconds && u.createdAt == t.createdAt && u.state == to
    && u.version == (if x.req.op == Adopt then t.version else t.version + 1)
    && u.updatedAt == (if x.req.op == Adopt then t.updatedAt else x.now)
    && if x.req.op == Retry then
         && RetryTarget(b, x, t) == Some(u.agentId) && u.leaderId == b.leadership.agentId && u.leaderTerm == b.leadership.term
         && u.attempts == t.attempts + [Attempt(x.ids.attempt, n + 2, u.agentId, "", "", Offered, 0, "", None, None, "", DetailOf(x, t))]
       else
         && u.agentId == t.agentId && u.leaderId == t.leaderId && u.leaderTerm == t.leaderTerm
         && |u.attempts| == n + 1 && u.attempts[..n] == t.attempts[..n]
         && AttemptAfter(x, t, t.attempts[n], u.attempts[n], to)
  }

  /** The execution tokens afterwards: a claim files one, resolving and retrying remove the current attempt's. */
  ghost function SecretsAfter(b: Board, x: Input, t: Task): map<string, Secret>
    requires t.attempts != []
  {
    match x.req.op
    case Claim => b.executionSecrets[Last(t).id := Hash(x.auth.executionToken)]
    case Resolve => b.executionSecrets - {Last(t).id}
    case Retry => b.executionSecrets - {Last(t).id}
    case _ => b.executionSecrets
  }

  function KindOf(op: Op): string {
    match op
    case Claim => "task.claimed"
    case Review => "task.reviewed"
    case Cancel => "task.cancel"
    case Resolve => "task.resolved"
    case Retry => "task.assigned"
    case Start => "task.started"
    case Progress => "task.progress"
    case SubmitResult => "task.result"
    case ReportFailure => "task.failed"
    case ConfirmCancelled => "task.cancelled"
    case _ => "task.uncertain"
  }

  /** Whom the operation tells: the leader of what the worker does, the worker of what is decided about it. */
  ghost function ToldOf(b: Board, x: Input, u: Task): string {
    if x.req.op == Review || x.req.op == Cancel || x.req.op == Retry then u.agentId else b.leadership.agentId
  }

  ghost predicate EventAfter(b: Board, x: Input, tid: string, u: Task, event: Option<Event>)
    requires u.attempts != []
  {
    if x.req.op == Adopt then event == None
    else event == Some(Event(x.req.id, KindOf(x.req.op), x.req.agentId, ToldOf(b, x, u), tid, Last(u).id,
                             if u.threadId == "" then x.req.id else u.threadId, x.now))
  }

  /** Everything an accepted task operation does: one task and its token change, and nothing else. */
  ghost predicate TaskDone(b: Board, x: Input, tid: string, out: Outcome)
    requires tid in b.tasks && b.tasks[tid].attempts != []
  {
    var c, t := out.board, b.tasks[tid];
    && tid in c.tasks && c.tasks[tid].attempts != []
    && c == b.(tasks := b.tasks[tid := c.tasks[tid]], executionSecrets := SecretsAfter(b, x, t), serverTime := c.serverTime)
    && Moves(x.req, t.state, c.tasks[tid].state) && TaskAfter(b, x, t, c.tasks[tid], c.tasks[tid].state)
    && EventAfter(b, x, tid, c.tasks[tid], out.event)
  }

  /** When an admitted peer's task operation is accepted. */
  ghost predicate Acceptable(b: Board, x: Input, t: Task)
    requires t.attempts != []
  {
    Entitled(b, x, t) && Timely(b, x, t) && exists to :: Moves(x.req, t.state, to)
  }

  // Each operation keeps to this.

  /** One task moved, its last attempt with it, and the event for it. */
  ghost predicate Changed(b: Board, x: Input, tid: string, t: Task, secrets: map<string, Secret>, to: TaskState,
                          kind: string, told: string, detail: string, out: Outcome)
    requires tid in b.tasks && t.attempts != []
  {
    var c, n := out.board, |t.attempts| - 1;
    && tid in c.tasks && c == b.(tasks := b.tasks[tid := c.tasks[tid]], executionSecrets := secrets)
    && c.tasks[tid] == t.(state := to, version := t.version + 1, updatedAt := x.now, attempts := c.tasks[tid].attempts)
    && |c.tasks[tid].attempts| == n + 1 && c.tasks[tid].attempts[..n] == t.attempts[..n]
    && c.tasks[tid].attempts[n] == t.attempts[n].(state := to, detail := detail,
         endedAt := if Over(to) || to == ResultSubmitted then Some(x.now) else t.attempts[n].endedAt)
    && out.event == Some(Event(x.req.id, kind, x.req.agentId, told, tid, c.tasks[tid].attempts[n].id,
                               if t.threadId == "" then x.req.id else t.threadId, x.now))
  }

  /** The last step the operations share. */
  lemma ChangeDoes(b: Board, x: Input, tid: string, t: Task, secrets: map<string, Secret>, to: TaskState, kind: string, told: string, detail: string)
    requires tid in b.tasks && b.tasks[tid].attempts != [] && t.attempts != []
    ensures var r := Change(b, x, tid, t, secrets, to, kind, told, detail);
            (r.Ok? <==> |detail| <= 16384) && (r.Ok? ==> Changed(b, x, tid, t, secrets, to, kind, told, detail, r.value))
  {
    hide OnlyTask;
    StatesAre(to);
  }

  /** What the operation itself writes into the attempt before it moves. */
  ghost predicate Brings(x: Input, at: Attempt, after: Attempt) {
    && after.id == at.id && after.number == at.number && after.agentId == at.agentId && after.endedAt == at.endedAt
    && after.executionId == (if x.req.op == Claim then x.req.executionId else at.executionId)
    && after.incarnation == (if x.req.op == Claim then x.req.incarnation else at.incarnation)
    && after.leaseUntil == (if x.req.op == Claim then x.now + 30_000_000_000 else at.leaseUntil)
    && after.paneId == (if x.req.op == Start then x.req.paneId else at.paneId)
    && after.startedAt == (if x.req.op == Start then Some(x.now) else at.startedAt)
    && after.result == (if x.req.op == SubmitResult then x.req.result.raw else at.result)
  }

  lemma ChangedIsDone(b: Board, x: Input, tid: string, at: Attempt, to: TaskState, out: Outcome)
    requires tid in b.tasks && b.tasks[tid].attempts != [] && x.req.op != Retry && x.req.op != Adopt
    requires Moves(x.req, b.tasks[tid].state, to) && Brings(x, Last(b.tasks[tid]), at)
    requires var t := b.tasks[tid];
             Changed(b, x, tid, WithCurrent(t, at), SecretsAfter(b, x, t), to, KindOf(x.req.op), ToldOf(b, x, t), DetailOf(x, t), out)
    ensures TaskDone(b, x, tid, out)
  {
    hide Moves, DetailOf, KindOf, SecretsAfter;
  }

  lemma ClaimBrings(t: Task, x: Input)
    requires t.attempts != [] && x.req.op == Claim
    ensures var u := ClaimedTask(t, x); u.attempts != [] && WithCurrent(t, Current(u)) == u && Brings(x, Last(t), Current(u))
  {
  }

  lemma ClaimTable(b: Board, x: Input, t: Task)
    requires x.req.op == Claim && t.attempts != []
    ensures SecretsAfter(b, x, t) == b.executionSecrets[Last(t).id := Hash(x.auth.executionToken)]
    ensures KindOf(x.req.op) == "task.claimed" && ToldOf(b, x, t) == b.leadership.agentId && DetailOf(x, t) == "Assignment claimed"
  {
  }

  lemma ClaimMoves(b: Board, x: Input, tid: string)
    requires x.req.op == Claim && tid in b.tasks && b.tasks[tid].attempts != [] && ClaimGuard(b, x, tid).Ok?
    ensures Moves(x.req, b.tasks[tid].state, Claimed)
  {
    hide OwnAgent, AllCompleted, ActiveTasks, ValidId;
  }

  lemma AdoptDone(b: Board, x: Input, tid: string)
    requires x.req.op == Adopt && tid in b.tasks && b.tasks[tid].attempts != [] && Underway(b.tasks[tid].state)
    ensures TaskDone(b, x, tid, Outcome(PutTask(b, tid, Adopted(b.tasks[tid], x), b.executionSecrets), None))
  {
    hide DetailOf;
    var t := b.tasks[tid];
    var u := Adopted(t, x);
    assert u.attempts[..|t.attempts| - 1] == t.attempts[..|t.attempts| - 1];
  }

  lemma TextFits(s: string)
    ensures ValidText(s) ==> |s| <= 16384
  {
  }

  lemma SameAttempt(t: Task)
    requires t.attempts != []
    ensures WithCurrent(t, Current(t)) == t && Current(t) == Last(t)
  {
  }

  lemma WorkersAre(b: Board, aid: string)
    ensures ActiveTasks(b, aid) == UnderwayFor(b, aid)
  {
  }

  lemma DependenciesAre(b: Board, t: Task)
    ensures AllCompleted(b, t.dependencies) <==> DependenciesDone(b, t)
  {
  }

  lemma ClaimGuardIs(b: Board, x: Input, tid: string)
    requires x.req.op == Claim && tid in b.tasks && b.tasks[tid].attempts != [] && Authentic(b, x)
    ensures ClaimGuard(b, x, tid).Ok? <==> Acceptable(b, x, b.tasks[tid])
  {
    hide ValidId, ActiveTasks, UnderwayFor, AllCompleted, DependenciesDone, OwnAgent;
    OwnAgentIs(b, x);
    StatesAre(b.tasks[tid].state);
    WorkersAre(b, x.req.agentId);
    DependenciesAre(b, b.tasks[tid]);
    MovesIff(x.req, b.tasks[tid].state);
    hide Moves;
  }

  lemma ClaimAcceptedIff(b: Board, x: Input, tid: string)
    requires x.req.op == Claim && tid in b.tasks && b.tasks[tid].attempts != [] && Authentic(b, x)
    ensures ClaimRequest(b, x, tid).Ok? <==> Acceptable(b, x, b.tasks[tid])
  {
    hide Change, Changed, OnlyTask, Authentic, ValidId, ValidText, ClaimGuard, Acceptable;
    var t := b.tasks[tid];
    ClaimGuardIs(b, x, tid);
    StatesAre(t.state);
    MovesIff(x.req, t.state);
    hide Moves;
    ChangeDoes(b, x, tid, ClaimedTask(t, x), b.executionSecrets[Current(t).id := Hash(x.auth.executionToken)], Claimed, "task.claimed", b.leadership.agentId, "Assignment claimed");
  }

  lemma ClaimDoes(b: Board, x: Input, tid: string)
    requires x.req.op == Claim && tid in b.tasks && b.tasks[tid].attempts != [] && ClaimRequest(b, x, tid).Ok?
    ensures TaskDone(b, x, tid, ClaimRequest(b, x, tid).value)
  {
    hide Change, Changed, OnlyTask, Moves, DetailOf, KindOf, ToldOf, Brings, WithCurrent, TaskDone, ValidId, ValidText, ClaimGuard, Acceptable;
    var t, r := b.tasks[tid], ClaimRequest(b, x, tid);
    SameAttempt(t);
    ClaimBrings(t, x);
    hide ClaimedTask;
    ClaimTable(b, x, t);
    ChangeDoes(b, x, tid, ClaimedTask(t, x), b.executionSecrets[Current(t).id := Hash(x.auth.executionToken)], Claimed, "task.claimed", b.leadership.agentId, "Assignment claimed");
    ClaimMoves(b, x, tid);
    if r.Ok? {
      ChangedIsDone(b, x, tid, Current(ClaimedTask(t, x)), Claimed, r.value);
    }
  }

  /** There is a state to move to in these cases. */
  lemma MovesIff(r: Request, from: TaskState)
    ensures r.op == Claim ==> ((exists to :: Moves(r, from, to)) <==> Waiting(from))
    ensures r.op == Review ==> ((exists to :: Moves(r, from, to)) <==> from == ResultSubmitted)
    ensures r.op == Cancel ==> ((exists to :: Moves(r, from, to)) <==> !Over(from))
    ensures r.op == Resolve || r.op == Adopt ==> ((exists to :: Moves(r, from, to)) <==> Underway(from))
    ensures r.op == Retry ==> ((exists to :: Moves(r, from, to)) <==> from == Failed || from == Cancelled || from == Expired)
    ensures r.op == Start ==> ((exists to :: Moves(r, from, to)) <==> from == Claimed)
    ensures r.op == SubmitResult ==> ((exists to :: Moves(r, from, to)) <==> !Over(from) && from != ResultSubmitted && from != CancelRequested)
    ensures r.op == ReportFailure || r.op == Uncertain ==> ((exists to :: Moves(r, from, to)) <==> !Over(from) && from != ResultSubmitted)
    ensures r.op == ConfirmCancelled ==> ((exists to :: Moves(r, from, to)) <==> from == CancelRequested)
    ensures r.op == Progress ==>
              ((exists to :: Moves(r, from, to)) <==>
               && !Over(from) && from != ResultSubmitted && from != CancelRequested
               && (r.name == "running" || r.name == "blocked" || r.name == "waiting_local_input"
                   || (r.name == "" && (from == Running || from == Blocked || from == WaitingLocalInput))))
  {
    var to := match r.op
      case Claim => Claimed
      case Review => if r.ready then Completed else Failed
      case Cancel => if Waiting(from) || from == ResultSubmitted then Cancelled else CancelRequested
      case Resolve => Failed
      case Retry => Offered
      case Adopt => from
      case Start => Running
      case Progress => if r.name == "running" then Running else if r.name == "blocked" then Blocked
                       else if r.name == "waiting_local_input" then WaitingLocalInput else from
      case SubmitResult => ResultSubmitted
      case ReportFailure => Failed
      case ConfirmCancelled => Cancelled
      case _ => NeedsReconciliation;
    assert Moves(r, from, to) || forall q :: !Moves(r, from, q);
  }

  lemma ReviewAcceptedIff(b: Board, x: Input, tid: string)
    requires x.req.op == Review && tid in b.tasks && b.tasks[tid].attempts != [] && Authentic(b, x)
    ensures ReviewRequest(b, x, tid).Ok? <==> Acceptable(b, x, b.tasks[tid])
  {
    hide Change, Changed, OnlyTask, Authentic, ValidId, ValidText, LeaderGuard, Leads;
    var t := b.tasks[tid];
    LeaderGuardIs(b, x);
    StatesAre(t.state);
    MovesIff(x.req, t.state);
    hide Moves;
    ChangeDoes(b, x, tid, t, b.executionSecrets, if x.req.ready then Completed else Failed, "task.reviewed", t.agentId, x.req.text);
  }

  lemma ReviewDoes(b: Board, x: Input, tid: string)
    requires x.req.op == Review && tid in b.tasks && b.tasks[tid].attempts != [] && ReviewRequest(b, x, tid).Ok?
    ensures TaskDone(b, x, tid, ReviewRequest(b, x, tid).value)
  {
    hide Change, Changed, OnlyTask, TaskDone, ValidId, ValidText, LeaderGuard, Leads;
    var t, r := b.tasks[tid], ReviewRequest(b, x, tid);
    SameAttempt(t);
    StatesAre(t.state);
    ChangeDoes(b, x, tid, t, b.executionSecrets, if x.req.ready then Completed else Failed, "task.reviewed", t.agentId, x.req.text);
    if r.Ok? {
      ChangedIsDone(b, x, tid, Current(t), if x.req.ready then Completed else Failed, r.value);
    }
  }

  lemma CancelAcceptedIff(b: Board, x: Input, tid: string)
    requires x.req.op == Cancel && tid in b.tasks && b.tasks[tid].attempts != [] && Authentic(b, x)
    ensures CancelRequest(b, x, tid).Ok? <==> Acceptable(b, x, b.tasks[tid])
  {
    hide Change, Changed, OnlyTask, Authentic, ValidId, ValidText, LeaderGuard, Leads;
    var t := b.tasks[tid];
    LeaderGuardIs(b, x);
    StatesAre(t.state);
    MovesIff(x.req, t.state);
    hide Moves;
    ChangeDoes(b, x, tid, t, b.executionSecrets, if Waiting(t.state) || t.state == ResultSubmitted then Cancelled else CancelRequested, "task.cancel", t.agentId, x.req.text);
  }

  lemma CancelDoes(b: Board, x: Input, tid: string)
    requires x.req.op == Cancel && tid in b.tasks && b.tasks[tid].attempts != [] && CancelRequest(b, x, tid).Ok?
    ensures TaskDone(b, x, tid, CancelRequest(b, x, tid).value)
  {
    hide Change, Changed, OnlyTask, TaskDone, ValidId, ValidText, LeaderGuard, Leads;
    var t, r := b.tasks[tid], CancelRequest(b, x, tid);
    SameAttempt(t);
    StatesAre(t.state);
    ChangeDoes(b, x, tid, t, b.executionSecrets, if Waiting(t.state) || t.state == ResultSubmitted then Cancelled else CancelRequested, "task.cancel", t.agentId, x.req.text);
    if r.Ok? {
      ChangedIsDone(b, x, tid, Current(t), if Waiting(t.state) || t.state == ResultSubmitted then Cancelled else CancelRequested, r.value);
    }
  }

  lemma ResolveAcceptedIff(b: Board, x: Input, tid: string)
    requires x.req.op == Resolve && tid in b.tasks && b.tasks[tid].attempts != [] && Authentic(b, x)
    ensures ResolveRequest(b, x, tid).Ok? <==> Acceptable(b, x, b.tasks[tid])
  {
    hide Change, Changed, OnlyTask, Authentic, ValidId, ValidText, LeaderGuard;
    var t := b.tasks[tid];
    StatesAre(t.state);
    MovesIff(x.req, t.state);
    hide Moves;
    ChangeDoes(b, x, tid, t, b.executionSecrets - {Current(t).id}, Failed, "task.resolved", b.leadership.agentId, RESOLVED_NOTE + x.req.text);
  }

  lemma ResolveDoes(b: Board, x: Input, tid: string)
    requires x.req.op == Resolve && tid in b.tasks && b.tasks[tid].attempts != [] && ResolveRequest(b, x, tid).Ok?
    ensures TaskDone(b, x, tid, ResolveRequest(b, x, tid).value)
  {
    hide Change, Changed, OnlyTask, TaskDone, ValidId, ValidText, LeaderGuard;
    var t, r := b.tasks[tid], ResolveRequest(b, x, tid);
    SameAttempt(t);
    StatesAre(t.state);
    ChangeDoes(b, x, tid, t, b.executionSecrets - {Current(t).id}, Failed, "task.resolved", b.leadership.agentId, RESOLVED_NOTE + x.req.text);
    if r.Ok? {
      ChangedIsDone(b, x, tid, Current(t), Failed, r.value);
    }
  }

  lemma RetryGuardIs(b: Board, x: Input, tid: string)
    requires tid in b.tasks && b.tasks[tid].attempts != [] && Authentic(b, x)
    ensures var t := b.tasks[tid];
            && (RetryGuard(b, x, tid).Ok? <==>
                Leads(b, x) && (t.state == Failed || t.state == Cancelled || t.state == Expired)
                && RetryTarget(b, x, t).Some? && |t.attempts| < 20)
            && (RetryGuard(b, x, tid).Ok? ==> RetryTarget(b, x, t) == Some(RetryGuard(b, x, tid).value))
  {
    hide LeaderGuard, ResolveAgent, Authentic, Leads;
    LeaderGuardIs(b, x);
  }

  lemma RetryAcceptedIff(b: Board, x: Input, tid: string)
    requires x.req.op == Retry && tid in b.tasks && b.tasks[tid].attempts != [] && Authentic(b, x)
    ensures RetryRequest(b, x, tid).Ok? <==> Acceptable(b, x, b.tasks[tid])
  {
    hide Change, Changed, OnlyTask, Authentic, RetryGuard, RetryTarget, Digits, Leads;
    var t := b.tasks[tid];
    RetryGuardIs(b, x, tid);
    MovesIff(x.req, b.tasks[tid].state);
    hide Moves;
    if RetryGuard(b, x, tid).Ok? {
      var target := RetryGuard(b, x, tid).value;
      ChangeDoes(b, x, tid, Reoffered(t, b.leadership, target, x.ids.attempt), b.executionSecrets - {Current(t).id},
               Offered, "task.assigned", target, "Explicit retry of " + TaskLabel(t.number));
    }
  }

  lemma ReofferedIsDone(b: Board, x: Input, tid: string, target: string, out: Outcome)
    requires x.req.op == Retry && tid in b.tasks && b.tasks[tid].attempts != [] && RetryTarget(b, x, b.tasks[tid]) == Some(target)
    requires Moves(x.req, b.tasks[tid].state, Offered)
    requires var t := b.tasks[tid];
             Changed(b, x, tid, Reoffered(t, b.leadership, target, x.ids.attempt), b.executionSecrets - {Last(t).id}, Offered,
                     "task.assigned", target, DetailOf(x, t), out)
    ensures TaskDone(b, x, tid, out)
  {
    hide Moves, DetailOf, RetryTarget;
    var t, u := b.tasks[tid], out.board.tasks[tid];
    var n := |t.attempts|;
    assert u.attempts == u.attempts[..n] + [u.attempts[n]];
    assert Reoffered(t, b.leadership, target, x.ids.attempt).attempts[..n] == t.attempts;
  }

  lemma RetryDoes(b: Board, x: Input, tid: string)
    requires x.req.op == Retry && tid in b.tasks && b.tasks[tid].attempts != [] && Authentic(b, x) && RetryRequest(b, x, tid).Ok?
    ensures TaskDone(b, x, tid, RetryRequest(b, x, tid).value)
  {
    hide Change, Changed, OnlyTask, Authentic, RetryGuard, RetryTarget, Digits, Leads, Reoffered, TaskDone;
    var t := b.tasks[tid];
    RetryGuardIs(b, x, tid);
    ReofferedHas(t, b.leadership, RetryGuard(b, x, tid).value, x.ids.attempt);
    var target := RetryGuard(b, x, tid).value;
    ChangeDoes(b, x, tid, Reoffered(t, b.leadership, target, x.ids.attempt), b.executionSecrets - {Current(t).id},
               Offered, "task.assigned", target, "Explicit retry of " + TaskLabel(t.number));
    ReofferedIsDone(b, x, tid, target, RetryRequest(b, x, tid).value);
  }

  lemma ReofferedHas(t: Task, l: Leadership, target: string, id: string)
    ensures Reoffered(t, l, target, id).attempts != []
  {
  }

  lemma AdoptAcceptedIff(b: Board, x: Input, tid: string)
    requires x.req.op == Adopt && tid in b.tasks && b.tasks[tid].attempts != [] && Authentic(b, x)
    ensures ExecutionRequest(b, x, tid).Ok? <==> Acceptable(b, x, b.tasks[tid])
  {
    hide OnlyTask, Authentic, ExecutionGuard, Executes;
    ExecutionGuardIs(b, x, tid);
    StatesAre(b.tasks[tid].state);
    MovesIff(x.req, b.tasks[tid].state);
    hide Moves;
  }

  lemma AdoptDoes(b: Board, x: Input, tid: string)
    requires x.req.op == Adopt && tid in b.tasks && b.tasks[tid].attempts != [] && ExecutionRequest(b, x, tid).Ok?
    ensures TaskDone(b, x, tid, ExecutionRequest(b, x, tid).value)
  {
    hide OnlyTask, ExecutionGuard, TaskDone, Adopted, PutTask;
    StatesAre(b.tasks[tid].state);
    AdoptDone(b, x, tid);
  }

  lemma StartAcceptedIff(b: Board, x: Input, tid: string)
    requires x.req.op == Start && tid in b.tasks && b.tasks[tid].attempts != [] && Authentic(b, x)
    ensures ExecutionRequest(b, x, tid).Ok? <==> Acceptable(b, x, b.tasks[tid])
  {
    hide Change, Changed, OnlyTask, Authentic, ValidId, ValidText, ExecutionGuard, Executes;
    var t := b.tasks[tid];
    ExecutionGuardIs(b, x, tid);
    StatesAre(t.state);
    MovesIff(x.req, t.state);
    hide Moves;
    ChangeDoes(b, x, tid, StartedTask(t, x), b.executionSecrets, Running, "task.started", b.leadership.agentId, "Task agent started");
  }

  lemma StartDoes(b: Board, x: Input, tid: string)
    requires x.req.op == Start && tid in b.tasks && b.tasks[tid].attempts != [] && ExecutionRequest(b, x, tid).Ok?
    ensures TaskDone(b, x, tid, ExecutionRequest(b, x, tid).value)
  {
    hide Change, Changed, OnlyTask, TaskDone, ValidId, ValidText, ExecutionGuard, Executes;
    var t, r := b.tasks[tid], ExecutionRequest(b, x, tid);
    SameAttempt(t);
    StatesAre(t.state);
    ChangeDoes(b, x, tid, StartedTask(t, x), b.executionSecrets, Running, "task.started", b.leadership.agentId, "Task agent started");
    if r.Ok? {
      ChangedIsDone(b, x, tid, Current(StartedTask(t, x)), Running, r.value);
    }
  }

  lemma ProgressAcceptedIff(b: Board, x: Input, tid: string)
    requires x.req.op == Progress && tid in b.tasks && b.tasks[tid].attempts != [] && Authentic(b, x)
    ensures ExecutionRequest(b, x, tid).Ok? <==> Acceptable(b, x, b.tasks[tid])
  {
    hide Change, Changed, OnlyTask, Authentic, ValidId, ValidText, ExecutionGuard, Executes;
    var t := b.tasks[tid];
    ExecutionGuardIs(b, x, tid);
    TextFits(x.req.text);
    StatesAre(t.state);
    MovesIff(x.req, t.state);
    hide Moves;
    if ProgressState(x.req.name, t.state).Some? {
      ChangeDoes(b, x, tid, t, b.executionSecrets, ProgressState(x.req.name, t.state).value, "task.progress", b.leadership.agentId, x.req.text);
    }
  }

  lemma ProgressDoes(b: Board, x: Input, tid: string)
    requires x.req.op == Progress && tid in b.tasks && b.tasks[tid].attempts != [] && ExecutionRequest(b, x, tid).Ok?
    ensures TaskDone(b, x, tid, ExecutionRequest(b, x, tid).value)
  {
    hide Change, Changed, OnlyTask, TaskDone, ValidId, ValidText, ExecutionGuard, Executes;
    var t, r := b.tasks[tid], ExecutionRequest(b, x, tid);
    SameAttempt(t);
    StatesAre(t.state);
    if ProgressState(x.req.name, t.state).Some? {
      ChangeDoes(b, x, tid, t, b.executionSecrets, ProgressState(x.req.name, t.state).value, "task.progress", b.leadership.agentId, x.req.text);
      if r.Ok? {
        ChangedIsDone(b, x, tid, Current(t), ProgressState(x.req.name, t.state).value, r.value);
      }
    }
  }

  lemma SubmitAcceptedIff(b: Board, x: Input, tid: string)
    requires x.req.op == SubmitResult && tid in b.tasks && b.tasks[tid].attempts != [] && Authentic(b, x)
    ensures ExecutionRequest(b, x, tid).Ok? <==> Acceptable(b, x, b.tasks[tid])
  {
    hide Change, Changed, OnlyTask, Authentic, ValidId, ValidText, ExecutionGuard, Executes;
    var t := b.tasks[tid];
    ExecutionGuardIs(b, x, tid);
    StatesAre(t.state);
    MovesIff(x.req, t.state);
    hide Moves;
    if x.req.result.summary.Some? {
      TextFits(x.req.result.summary.value);
      ChangeDoes(b, x, tid, WithResult(t, x), b.executionSecrets, ResultSubmitted, "task.result", b.leadership.agentId, x.req.result.summary.value);
    }
  }

  lemma SubmitDoes(b: Board, x: Input, tid: string)
    requires x.req.op == SubmitResult && tid in b.tasks && b.tasks[tid].attempts != [] && ExecutionRequest(b, x, tid).Ok?
    ensures TaskDone(b, x, tid, ExecutionRequest(b, x, tid).value)
  {
    hide Change, Changed, OnlyTask, TaskDone, ValidId, ValidText, ExecutionGuard, Executes;
    var t, r := b.tasks[tid], ExecutionRequest(b, x, tid);
    SameAttempt(t);
    StatesAre(t.state);
    if x.req.result.summary.Some? {
      ChangeDoes(b, x, tid, WithResult(t, x), b.executionSecrets, ResultSubmitted, "task.result", b.leadership.agentId, x.req.result.summary.value);
      if r.Ok? {
        ChangedIsDone(b, x, tid, Current(WithResult(t, x)), ResultSubmitted, r.value);
      }
    }
  }

  lemma FailureAcceptedIff(b: Board, x: Input, tid: string)
    requires x.req.op == ReportFailure && tid in b.tasks && b.tasks[tid].attempts != [] && Authentic(b, x)
    ensures ExecutionRequest(b, x, tid).Ok? <==> Acceptable(b, x, b.tasks[tid])
  {
    hide Change, Changed, OnlyTask, Authentic, ValidId, ValidText, ExecutionGuard, Executes;
    var t := b.tasks[tid];
    ExecutionGuardIs(b, x, tid);
    TextFits(x.req.text);
    StatesAre(t.state);
    MovesIff(x.req, t.state);
    hide Moves;
    ChangeDoes(b, x, tid, t, b.executionSecrets, Failed, "task.failed", b.leadership.agentId, x.req.text);
  }

  lemma FailureDoes(b: Board, x: Input, tid: string)
    requires x.req.op == ReportFailure && tid in b.tasks && b.tasks[tid].attempts != [] && ExecutionRequest(b, x, tid).Ok?
    ensures TaskDone(b, x, tid, ExecutionRequest(b, x, tid).value)
  {
    hide Change, Changed, OnlyTask, TaskDone, ValidId, ValidText, ExecutionGuard, Executes;
    var t, r := b.tasks[tid], ExecutionRequest(b, x, tid);
    SameAttempt(t);
    StatesAre(t.state);
    ChangeDoes(b, x, tid, t, b.executionSecrets, Failed, "task.failed", b.leadership.agentId, x.req.text);
    if r.Ok? {
      ChangedIsDone(b, x, tid, Current(t), Failed, r.value);
    }
  }

  lemma ConfirmAcceptedIff(b: Board, x: Input, tid: string)
    requires x.req.op == ConfirmCancelled && tid in b.tasks && b.tasks[tid].attempts != [] && Authentic(b, x)
    ensures ExecutionRequest(b, x, tid).Ok? <==> Acceptable(b, x, b.tasks[tid])
  {
    hide Change, Changed, OnlyTask, Authentic, ValidId, ValidText, ExecutionGuard, Executes;
    var t := b.tasks[tid];
    ExecutionGuardIs(b, x, tid);
    StatesAre(t.state);
    MovesIff(x.req, t.state);
    hide Moves;
    ChangeDoes(b, x, tid, t, b.executionSecrets, Cancelled, "task.cancelled", b.leadership.agentId, "Local runner confirmed stopped");
  }

  lemma ConfirmDoes(b: Board, x: Input, tid: string)
    requires x.req.op == ConfirmCancelled && tid in b.tasks && b.tasks[tid].attempts != [] && ExecutionRequest(b, x, tid).Ok?
    ensures TaskDone(b, x, tid, ExecutionRequest(b, x, tid).value)
  {
    hide Change, Changed, OnlyTask, TaskDone, ValidId, ValidText, ExecutionGuard, Executes;
    var t, r := b.tasks[tid], ExecutionRequest(b, x, tid);
    SameAttempt(t);
    StatesAre(t.state);
    ChangeDoes(b, x, tid, t, b.executionSecrets, Cancelled, "task.cancelled", b.leadership.agentId, "Local runner confirmed stopped");
    if r.Ok? {
      ChangedIsDone(b, x, tid, Current(t), Cancelled, r.value);
    }
  }

  lemma UncertainAcceptedIff(b: Board, x: Input, tid: string)
    requires x.req.op == Uncertain && tid in b.tasks && b.tasks[tid].attempts != [] && Authentic(b, x)
    ensures ExecutionRequest(b, x, tid).Ok? <==> Acceptable(b, x, b.tasks[tid])
  {
    hide Change, Changed, OnlyTask, Authentic, ValidId, ValidText, ExecutionGuard, Executes;
    var t := b.tasks[tid];
    ExecutionGuardIs(b, x, tid);
    StatesAre(t.state);
    MovesIff(x.req, t.state);
    hide Moves;
    ChangeDoes(b, x, tid, t, b.executionSecrets, NeedsReconciliation, "task.uncertain", b.leadership.agentId, x.req.text);
  }

  lemma UncertainDoes(b: Board, x: Input, tid: string)
    requires x.req.op == Uncertain && tid in b.tasks && b.tasks[tid].attempts != [] && ExecutionRequest(b, x, tid).Ok?
    ensures TaskDone(b, x, tid, ExecutionRequest(b, x, tid).value)
  {
    hide Change, Changed, OnlyTask, TaskDone, ValidId, ValidText, ExecutionGuard, Executes;
    var t, r := b.tasks[tid], ExecutionRequest(b, x, tid);
    SameAttempt(t);
    StatesAre(t.state);
    ChangeDoes(b, x, tid, t, b.executionSecrets, NeedsReconciliation, "task.uncertain", b.leadership.agentId, x.req.text);
    if r.Ok? {
      ChangedIsDone(b, x, tid, Current(t), NeedsReconciliation, r.value);
    }
  }

  lemma TaskRequestDoes(b: Board, x: Input, tid: string)
    requires TaskOp(x.req.op) && Authentic(b, x) && ResolveTask(b, x.req.taskId) == Ok(tid) && b.tasks[tid].attempts != []
    ensures var r := TaskRequest(b, x);
            (r.Ok? <==> Acceptable(b, x, b.tasks[tid])) && (r.Ok? ==> TaskDone(b, x, tid, r.value))
  {
    hide Authentic, ResolveTask, ClaimRequest, ReviewRequest, CancelRequest, ResolveRequest, RetryRequest, ExecutionRequest,
         Acceptable, TaskDone, OnlyTask;
    match x.req.op
    case Claim => ClaimAcceptedIff(b, x, tid); if ClaimRequest(b, x, tid).Ok? { ClaimDoes(b, x, tid); }
    case Review => ReviewAcceptedIff(b, x, tid); if ReviewRequest(b, x, tid).Ok? { ReviewDoes(b, x, tid); }
    case Cancel => CancelAcceptedIff(b, x, tid); if CancelRequest(b, x, tid).Ok? { CancelDoes(b, x, tid); }
    case Resolve => ResolveAcceptedIff(b, x, tid); if ResolveRequest(b, x, tid).Ok? { ResolveDoes(b, x, tid); }
    case Retry => RetryAcceptedIff(b, x, tid); if RetryRequest(b, x, tid).Ok? { RetryDoes(b, x, tid); }
    case Adopt => AdoptAcceptedIff(b, x, tid); if ExecutionRequest(b, x, tid).Ok? { AdoptDoes(b, x, tid); }
    case Start => StartAcceptedIff(b, x, tid); if ExecutionRequest(b, x, tid).Ok? { StartDoes(b, x, tid); }
    case Progress => ProgressAcceptedIff(b, x, tid); if ExecutionRequest(b, x, tid).Ok? { ProgressDoes(b, x, tid); }
    case SubmitResult => SubmitAcceptedIff(b, x, tid); if ExecutionRequest(b, x, tid).Ok? { SubmitDoes(b, x, tid); }
    case ReportFailure => FailureAcceptedIff(b, x, tid); if ExecutionRequest(b, x, tid).Ok? { FailureDoes(b, x, tid); }
    case ConfirmCancelled => ConfirmAcceptedIff(b, x, tid); if ExecutionRequest(b, x, tid).Ok? { ConfirmDoes(b, x, tid); }
    case Uncertain => UncertainAcceptedIff(b, x, tid); if ExecutionRequest(b, x, tid).Ok? { UncertainDoes(b, x, tid); }
  }

  /** A task operation is accepted exactly from an admitted peer, entitled to it, in time for it and
      from a state it may move; and then it does what the table says, to that task alone. */
  lemma TaskOperation(b: Board, x: Input, tid: string)
    requires TaskOp(x.req.op) && ResolveTask(b, x.req.taskId) == Ok(tid) && b.tasks[tid].attempts != []
    ensures Step(b, x).Ok? <==> Admitted(b, x) && Acceptable(b, x, b.tasks[tid])
    ensures Step(b, x).Ok? ==> TaskDone(b, x, tid, Step(b, x).value) && Step(b, x).value.board.serverTime == x.now
  {
    hide Step, TaskRequest, Acceptable, ResolveTask, WellMade, Authentic;
    StepIs(b, x);
    if Authentic(b, x) {
      TaskRequestDoes(b, x, tid);
      assert PeerRequest(b, x, x.req.peerId) == TaskRequest(b, x) by { AuthenticPeer(b, x); }
    }
  }

  // Lookups.

  /** A reference names the agent with that id, else the only one with that display name. */
  lemma AgentNamed(b: Board, ref: string, id: string)
    ensures ResolveAgent(b, ref) == Ok(id) <==>
            id in b.agents && if ref in b.agents then id == ref
                              else b.agents[id].displayLabel == ref && forall a :: a in b.agents && b.agents[a].displayLabel == ref ==> a == id
    ensures ResolveAgent(b, ref) == Fail(NotFound) <==> ref !in b.agents && forall a :: a in b.agents ==> b.agents[a].displayLabel != ref
    ensures ResolveAgent(b, ref) == Fail(Ambiguous) <==>
            ref !in b.agents && exists a, c :: a in b.agents && c in b.agents && a != c && b.agents[a].displayLabel == b.agents[c].displayLabel == ref
  {
    var labelled := AgentsLabelled(b, ref);
    assert forall a :: a in labelled <==> a in b.agents && b.agents[a].displayLabel == ref;
    if ref !in b.agents && labelled != {} {
      var a :| a in labelled;
      if |labelled| >= 2 {
        assert |labelled - {a}| >= 1;
        var c :| c in labelled - {a};
      } else {
        OneMember(labelled, a);
      }
      forall c | c in labelled && c != a ensures |labelled| >= 2 {
        assert {a, c} <= labelled && |{a, c}| == 2;
        SmallerSet({a, c}, labelled);
      }
    }
  }

  lemma OneMember<T>(s: set<T>, a: T)
    requires a in s && |s| < 2
    ensures s == {a}
  {
    if c :| c in s && c != a {
      assert {a, c} <= s;
      SmallerSet({a, c}, s);
    }
  }

  lemma {:induction false} SmallerSet<T>(s: set<T>, t: set<T>)
    requires s <= t
    ensures |s| <= |t|
  {
    if s != {} {
      var x :| x in s;
      SmallerSet(s - {x}, t - {x});
    }
  }

  /** A reference names the task with that id, else the one whose label it is. */
  lemma TaskNamed(b: Board, ref: string, id: string)
    requires forall s, t :: s in b.tasks && t in b.tasks && b.tasks[s].number == b.tasks[t].number ==> s == t
    ensures ResolveTask(b, ref) == Ok(id) <==>
            id in b.tasks && if ref in b.tasks then id == ref
                             else ref == "T-" + Digits(b.tasks[id].number) || ref == "t-" + Digits(b.tasks[id].number)
    ensures ResolveTask(b, ref).Fail? ==> ResolveTask(b, ref) == Fail(NotFound)
  {
    var labelled := TasksLabelled(b, ref);
    assert forall t :: t in labelled <==> t in b.tasks && MatchesLabel(b.tasks[t].number, ref);
    if ref !in b.tasks && ResolveTask(b, ref).Ok? && id in labelled {
      LabelsDistinct(b.tasks[id].number, b.tasks[ResolveTask(b, ref).value].number, ref);
    }
  }

  // Refusals.

  /** The token, the user or the registration is not the one the board knows. */
  ghost predicate Unknown(b: Board, x: Input) {
    var pid := x.req.peerId;
    || pid !in b.peers || b.peers[pid].state == Revoked || b.peers[pid].userId != x.auth.userId
    || pid !in b.peerSecrets || b.peerSecrets[pid] != Hash(x.auth.peerToken) || |x.auth.peerToken| < 32
  }

  /** What a request is told that is refused before its operation is looked at. */
  lemma Unadmitted(b: Board, x: Input)
    requires !Founding(x.req.op)
    ensures x.req.schemaVersion != 1 ==> Step(b, x) == Fail(Version)
    ensures x.req.schemaVersion == 1 && !ValidId(x.req.id) ==> Step(b, x) == Fail(Invalid)
    ensures x.req.schemaVersion == 1 && ValidId(x.req.id) && !WellMade(x) ==> Step(b, x) == Fail(Forbidden)
    ensures WellMade(x) && !b.enabled ==> Step(b, x) == Fail(NotFound)
    ensures WellMade(x) && b.enabled && Unknown(b, x) ==> Step(b, x) == Fail(Forbidden)
    ensures WellMade(x) && b.enabled && !Unknown(b, x) && x.req.incarnation != b.peers[x.req.peerId].incarnation ==> Step(b, x) == Fail(Stale)
  {
    hide PeerRequest, ValidId;
  }

  /** What an admitted claim is told, in the order of its checks. */
  lemma RefusedClaim(b: Board, x: Input, tid: string)
    requires x.req.op == Claim && Admitted(b, x) && ResolveTask(b, x.req.taskId) == Ok(tid) && b.tasks[tid].attempts != []
    ensures var t, r := b.tasks[tid], Step(b, x);
            var p, l := b.peers[x.req.peerId], b.leadership;
            if !Entitled(b, x, t) then r == Fail(Forbidden)
            else if b.paused || !b.agents[x.req.agentId].ready || p.state != Ready || p.leaseUntil <= x.now then r == Fail(Unavailable)
            else if t.version != x.req.taskVersion || !Waiting(t.state) then r == Fail(Conflict)
            else if t.leaderTerm != l.term || l.leaseUntil <= x.now then r == Fail(Stale)
            else if !DependenciesDone(b, t) then r == Fail(Unavailable)
            else if |UnderwayFor(b, x.req.agentId)| >= b.agents[x.req.agentId].maxActive then r == Fail(Capacity)
            else r.Ok? || r == Fail(Invalid)
  {
    hide Step, ClaimRequest, ClaimGuard, UnderwayFor, DependenciesDone, ResolveTask, ValidId, Authentic, Entitled, WellMade;
    AdmittedParts(b, x);
    TaskStep(b, x, tid);
    ClaimChange(b, x, tid);
    ClaimGuardCodes(b, x, tid);
  }

  lemma AdmittedParts(b: Board, x: Input)
    requires Admitted(b, x)
    ensures Authentic(b, x) && x.req.peerId in b.peers
  {
  }

  /** An admitted task operation is what the operation makes of its task. */
  lemma TaskStep(b: Board, x: Input, tid: string)
    requires TaskOp(x.req.op) && Admitted(b, x) && ResolveTask(b, x.req.taskId) == Ok(tid) && b.tasks[tid].attempts != []
    ensures TaskRequest(b, x).Fail? ==> Step(b, x) == Fail(TaskRequest(b, x).code)
    ensures TaskRequest(b, x).Ok? ==> Step(b, x).Ok?
    ensures x.req.op == Claim ==> TaskRequest(b, x) == ClaimRequest(b, x, tid)
    ensures Executing(x.req.op) ==> TaskRequest(b, x) == ExecutionRequest(b, x, tid)
  {
    hide ValidId, ResolveTask, PeerGuard, ClaimRequest, ReviewRequest, CancelRequest, ResolveRequest, RetryRequest, ExecutionRequest, OnlyTask;
    PeerGuardIs(b, x);
  }

  lemma OwnAgentRefuses(b: Board, x: Input)
    requires Authentic(b, x)
    ensures OwnAgent(b, x) == if Owns(b, x) then Ok(x.req.agentId) else Fail(Forbidden)
  {
    hide PeerGuard, Authentic;
    PeerGuardIs(b, x);
  }

  lemma ClaimGuardCodes(b: Board, x: Input, tid: string)
    requires x.req.op == Claim && Authentic(b, x) && x.req.peerId in b.peers && tid in b.tasks && b.tasks[tid].attempts != []
    ensures var t, r := b.tasks[tid], ClaimGuard(b, x, tid);
            var p, l := b.peers[x.req.peerId], b.leadership;
            if !Entitled(b, x, t) then r == Fail(Forbidden)
            else x.req.agentId in b.agents
                 && if b.paused || !b.agents[x.req.agentId].ready || p.state != Ready || p.leaseUntil <= x.now then r == Fail(Unavailable)
                    else if t.version != x.req.taskVersion || !Waiting(t.state) then r == Fail(Conflict)
                    else if t.leaderTerm != l.term || l.leaseUntil <= x.now then r == Fail(Stale)
                    else if !DependenciesDone(b, t) then r == Fail(Unavailable)
                    else if |UnderwayFor(b, x.req.agentId)| >= b.agents[x.req.agentId].maxActive then r == Fail(Capacity)
                    else r.Ok? || r == Fail(Invalid)
  {
    hide ValidId, ActiveTasks, UnderwayFor, AllCompleted, DependenciesDone, OwnAgent, Authentic;
    OwnAgentRefuses(b, x);
    StatesAre(b.tasks[tid].state);
    WorkersAre(b, x.req.agentId);
    DependenciesAre(b, b.tasks[tid]);
  }

  lemma ExecutionCodes(b: Board, x: Input, tid: string)
    requires Executing(x.req.op) && Authentic(b, x) && tid in b.tasks && b.tasks[tid].attempts != []
    ensures var t, r := b.tasks[tid], ExecutionGuard(b, x, tid);
            if !Executes(b, x.(req := x.req.(op := Adopt)), t) then r == Fail(Forbidden)
            else if !Executes(b, x, t) then r == Fail(Stale) else r.Ok?
  {
    hide OwnAgent, Authentic;
    OwnAgentRefuses(b, x);
  }

  lemma ExecutionFirst(b: Board, x: Input, tid: string)
    requires tid in b.tasks && b.tasks[tid].attempts != []
    ensures var t, guard, r := b.tasks[tid], ExecutionGuard(b, x, tid), ExecutionRequest(b, x, tid);
            if guard.Fail? then r == Fail(guard.code) else Over(t.state) || t.state == ResultSubmitted ==> r == Fail(Conflict)
  {
    hide ExecutionGuard, StartRequest, ProgressRequest, SubmitRequest, Change, OnlyTask;
    StatesAre(b.tasks[tid].state);
  }

  lemma ClaimChange(b: Board, x: Input, tid: string)
    requires tid in b.tasks && b.tasks[tid].attempts != []
    ensures ClaimRequest(b, x, tid).Fail? ==> ClaimGuard(b, x, tid) == Fail(ClaimRequest(b, x, tid).code)
    ensures ClaimGuard(b, x, tid).Fail? ==> ClaimRequest(b, x, tid) == Fail(ClaimGuard(b, x, tid).code)
  {
    hide ClaimGuard, EventOf, PutTask, Moved, OnlyTask;
  }

  /** What an admitted request of an execution's holder is told. */
  lemma RefusedExecution(b: Board, x: Input, tid: string)
    requires Executing(x.req.op) && Admitted(b, x) && ResolveTask(b, x.req.taskId) == Ok(tid) && b.tasks[tid].attempts != []
    ensures var t, r := b.tasks[tid], Step(b, x);
            if !Executes(b, x.(req := x.req.(op := Adopt)), t) then r == Fail(Forbidden)
            else if !Executes(b, x, t) then r == Fail(Stale)
            else (Over(t.state) || t.state == ResultSubmitted) ==> r == Fail(Conflict)
  {
    hide Step, ExecutionRequest, ExecutionGuard, ResolveTask, Authentic, Executes, WellMade, Over, OnlyTask;
    AdmittedParts(b, x);
    TaskStep(b, x, tid);
    ExecutionCodes(b, x, tid);
    ExecutionFirst(b, x, tid);
  }

  /** What an admitted request for the leader alone is told when another sends it. */
  lemma RefusedLeader(b: Board, x: Input, tid: string)
    requires (x.req.op == Review || x.req.op == Retry) && Admitted(b, x) && ResolveTask(b, x.req.taskId) == Ok(tid) && b.tasks[tid].attempts != []
    ensures !Owns(b, x) ==> Step(b, x) == Fail(Forbidden)
    ensures Owns(b, x) && !Leads(b, x) ==> Step(b, x) == Fail(Stale)
    ensures Leads(b, x) && x.req.op == Review && (b.tasks[tid].state != ResultSubmitted || b.tasks[tid].version != x.req.taskVersion)
            ==> Step(b, x) == Fail(Conflict)
  {
    hide ValidId, ResolveAgent, ResolveTask, PeerGuard, Change, OnlyTask;
    PeerGuardIs(b, x);
    LeaderRefuses(b, x);
  }

  lemma LeaderRefuses(b: Board, x: Input)
    requires Authentic(b, x)
    ensures !Owns(b, x) ==> LeaderGuard(b, x) == Fail(Forbidden)
    ensures Owns(b, x) && !Leads(b, x) ==> LeaderGuard(b, x) == Fail(Stale)
    ensures Leads(b, x) ==> LeaderGuard(b, x).Ok?
  {
    hide PeerGuard, Authentic;
    PeerGuardIs(b, x);
  }

  /** Operations the protocol does not know are refused, whoever asks. */
  lemma UnknownIsRefused(b: Board, x: Input)
    requires x.req.op.UnknownOp? || x.req.op.UnknownTaskOp?
    ensures Step(b, x).Fail?
  {
    hide Step, Admitted;
    StepIs(b, x);
    if x.req.peerId in b.peers {
      UnknownFails(b, x);
    }
  }

  lemma UnknownFails(b: Board, x: Input)
    requires (x.req.op.UnknownOp? || x.req.op.UnknownTaskOp?) && x.req.peerId in b.peers
    ensures PeerRequest(b, x, x.req.peerId).Fail?
  {
    hide ResolveTask, ExecutionGuard, OnlyTask;
  }

  // Proper form.

  ghost predicate LowerHex(c: char) {
    '0' <= c <= '9' || 'a' <= c <= 'f'
  }

  ghost predicate LowerOrDigit(c: char) {
    'a' <= c <= 'z' || '0' <= c <= '9'
  }

  /** An id is 36 characters, with dashes at four places and only there, hexadecimal digits elsewhere, and not all of
      them zero. */
  lemma IdsAre(s: string)
    ensures ValidId(s) <==>
            && |s| == 36 && (forall i :: 0 <= i < 36 ==> (s[i] == '-' <==> i in {8, 13, 18, 23}))
            && (forall i :: 0 <= i < 36 ==> s[i] == '-' || LowerHex(s[i])) && exists i :: 0 <= i < 36 && s[i] != '-' && s[i] != '0'
  {
    if |s| == 36 && forall i :: 0 <= i < 36 ==> if DashAt(i) then s[i] == '-' else HexChar(s[i]) {
      assert forall i :: 0 <= i < 36 ==> (s[i] == '-' <==> i in {8, 13, 18, 23});
      if i :| 0 <= i < 36 && s[i] != '-' && s[i] != '0' {
        assert !DashAt(i);
      }
    }
  }

  /** A name is one to 64 lower-case letters, digits, underscores and dashes, and begins with neither of these two.
      A label says something in at most 128 bytes without control characters, a text in at most 16384 without zeros. */
  lemma FormsAre(s: string)
    ensures ValidName(s) <==>
            && 1 <= |s| <= 64 && (forall i :: 0 <= i < |s| ==> LowerOrDigit(s[i]) || s[i] in {'_', '-'}) && s[0] !in {'_', '-'}
    ensures ValidLabel(s) <==>
            (exists i :: 0 <= i < |s| && !IsSpace(s[i])) && |s| <= 128 && forall i :: 0 <= i < |s| ==> 32 <= s[i] as int != 127
    ensures ValidText(s) <==>
            (exists i :: 0 <= i < |s| && !IsSpace(s[i])) && |s| <= 16384 && forall i :: 0 <= i < |s| ==> s[i] as int > 0
  {
    assert forall i :: 0 <= i < |s| ==> (IsControl(s[i]) <==> s[i] as int < 32 || s[i] as int == 127);
    assert forall i :: 0 <= i < |s| ==> (s[i] != 0 as char <==> s[i] as int > 0);
    assert forall i :: 0 <= i < |s| ==> (NameChar(s[i]) <==> LowerOrDigit(s[i]));
  }
}
