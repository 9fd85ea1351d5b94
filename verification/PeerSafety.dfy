/** Every operation keeps the invariant and undoes nothing; hence so does every run. */
module PeerSafety {
  import opened PeerState
  import opened PeerStep
  import opened PeerInvariant

  // Task operations.

  /** A secret for a task's current attempt exists only when the attempt is claimed. */
  lemma SecretMeansClaimed(b: Board, tid: string)
    requires UniqueAttempts(b) && SecretsOk(b)
    requires tid in b.tasks && b.tasks[tid].attempts != [] && Current(b.tasks[tid]).id in b.executionSecrets
    ensures HasExecution(Current(b.tasks[tid]))
  {
    var id :| HoldsSecret(b, id, Current(b.tasks[tid]).id);
    assert b.tasks[id].attempts[|b.tasks[id].attempts| - 1].id == b.tasks[tid].attempts[|b.tasks[tid].attempts| - 1].id;
  }

  lemma TaskOfGoodBoard(b: Board, tid: string)
    requires Inv(b) && tid in b.tasks
    ensures TaskOk(b, b.tasks[tid]) && b.tasks[tid].attempts != []
    ensures var t := b.tasks[tid]; Claimable(t.state) || t.state == Cancelled || HasExecution(Current(t))
  {
  }

  lemma SecretsOfGoodBoard(b: Board, tid: string)
    requires Inv(b) && tid in b.tasks
    ensures b.tasks[tid].attempts != []
    ensures Current(b.tasks[tid]).id in b.executionSecrets ==> HasExecution(Current(b.tasks[tid]))
    ensures var t := b.tasks[tid];
            Current(t).id in b.executionSecrets && !Terminal(t.state) && t.state != ResultSubmitted ==> Active(t.state)
  {
    TaskOfGoodBoard(b, tid);
    if Current(b.tasks[tid]).id in b.executionSecrets {
      SecretMeansClaimed(b, tid);
    }
  }

  /** The fields of an attempt that a step may touch without changing who executes it. */
  ghost predicate SameExecution(at: Attempt, bt: Attempt) {
    bt.id == at.id && bt.number == at.number && bt.agentId == at.agentId && bt.executionId == at.executionId
  }

  lemma TouchedTask(b: Board, t: Task, u: Task)
    requires TaskOk(b, t) && u.id == t.id && u.number == t.number && u.dependencies == t.dependencies && u.threadId == t.threadId
    requires u.runner == t.runner && u.project == t.project && u.agentId == t.agentId && u.version >= t.version
    requires t.state != Completed && |u.attempts| == |t.attempts|
    requires forall i :: 0 <= i < |t.attempts| - 1 ==> u.attempts[i] == t.attempts[i]
    requires SameExecution(Current(t), Current(u)) && Current(u).state == u.state
    requires Claimable(u.state) ==> Claimable(t.state) && u.leaderId == t.leaderId && u.leaderTerm == t.leaderTerm
    requires Claimable(u.state) || u.state == Cancelled || HasExecution(Current(t))
    requires u.state == ResultSubmitted ==> Current(u).endedAt.Some? && Current(u).endedAt.value < Current(u).leaseUntil
    requires Active(u.state) ==> Active(t.state)
    ensures TaskOk(b, u) && TaskEvolves(t, u)
  {
    assert DependenciesOk(b, t);
    if EverClaimed(u) {
      var i :| 0 <= i < |u.attempts| && HasExecution(u.attempts[i]);
      assert HasExecution(t.attempts[i]);
    }
  }

  /** Any move of an executing task, and any cancellation. */
  lemma MoveKeepsInv(b: Board, tid: string, at: Attempt, state: TaskState, detail: string, now: int, secrets: map<string, Secret>)
    requires Inv(b) && tid in b.tasks && b.tasks[tid].attempts != [] && SameExecution(Current(b.tasks[tid]), at)
    requires b.tasks[tid].state != Completed && !Claimable(state)
    requires HasExecution(at) || state == Cancelled
    requires state == ResultSubmitted ==> now < at.leaseUntil
    requires Active(state) ==> Active(b.tasks[tid].state)
    requires forall k :: k in secrets ==> k in b.executionSecrets
    ensures var c := PutTask(b, tid, Moved(WithCurrent(b.tasks[tid], at), state, detail, now), secrets); Inv(c) && Evolves(b, c)
  {
    hide Inv, Evolves;
    var t := b.tasks[tid];
    var u := Moved(WithCurrent(t, at), state, detail, now);
    TaskOfGoodBoard(b, tid);
    SecretsOfGoodBoard(b, tid);
    TouchedTask(b, t, u);
    UpdateKeepsInv(b, tid, u, secrets);
  }

  lemma AdoptKeepsInv(b: Board, tid: string, x: Input)
    requires Inv(b) && tid in b.tasks && b.tasks[tid].attempts != [] && Active(b.tasks[tid].state)
    ensures var c := PutTask(b, tid, Adopted(b.tasks[tid], x), b.executionSecrets); Inv(c) && Evolves(b, c)
  {
    hide Inv, Evolves;
    var t := b.tasks[tid];
    TaskOfGoodBoard(b, tid);
    SecretsOfGoodBoard(b, tid);
    TouchedTask(b, t, Adopted(t, x));
    UpdateKeepsInv(b, tid, Adopted(t, x), b.executionSecrets);
  }

  /** What the claim checks before it hands the task out. */
  ghost predicate MayClaim(b: Board, t: Task) {
    && Claimable(t.state) && AllCompleted(b, t.dependencies)
    && t.agentId in b.agents && b.agents[t.agentId].peerId in b.peers
    && b.peers[b.agents[t.agentId].peerId].state != Revoked
    && |ActiveTasks(b, t.agentId)| < b.agents[t.agentId].maxActive
  }

  lemma ClaimedOk(b: Board, t: Task, x: Input, detail: string)
    requires TaskOk(b, t) && MayClaim(b, t) && x.req.executionId != ""
    ensures var u := Moved(ClaimedTask(t, x), Claimed, detail, x.now); TaskOk(b, u) && TaskEvolves(t, u)
  {
  }

  lemma ClaimKeepsInv(b: Board, tid: string, x: Input, detail: string)
    requires Inv(b) && tid in b.tasks && b.tasks[tid].attempts != []
    requires MayClaim(b, b.tasks[tid]) && x.req.executionId != ""
    ensures var t := b.tasks[tid];
            var c := PutTask(b, tid, Moved(ClaimedTask(t, x), Claimed, detail, x.now),
                             b.executionSecrets[Current(t).id := Hash(x.auth.executionToken)]);
            Inv(c) && Evolves(b, c)
  {
    hide Inv, Evolves, TaskOk, TaskEvolves;
    var t := b.tasks[tid];
    TaskOfGoodBoard(b, tid);
    ClaimedOk(b, t, x, detail);
    UpdateKeepsInv(b, tid, Moved(ClaimedTask(t, x), Claimed, detail, x.now),
                   b.executionSecrets[Current(t).id := Hash(x.auth.executionToken)]);
  }

  lemma ReofferedOk(b: Board, t: Task, target: string, x: Input, detail: string)
    requires TaskOk(b, t) && target in b.agents && Terminal(t.state) && t.state != Completed && |t.attempts| < MAX_ATTEMPTS
    ensures var u := Moved(Reoffered(t, b.leadership, target, x.ids.attempt), Offered, detail, x.now);
            TaskOk(b, u) && TaskEvolves(t, u)
  {
    var u := Moved(Reoffered(t, b.leadership, target, x.ids.attempt), Offered, detail, x.now);
    assert DependenciesOk(b, u) by {
      if EverClaimed(u) {
        var i :| 0 <= i < |u.attempts| && HasExecution(u.attempts[i]);
        assert HasExecution(t.attempts[i]);
      }
    }
  }

  lemma RetryKeepsInv(b: Board, tid: string, target: string, x: Input, detail: string)
    requires Inv(b) && FreshFor(b, x.ids) && tid in b.tasks && target in b.agents && b.tasks[tid].attempts != []
    requires Terminal(b.tasks[tid].state) && b.tasks[tid].state != Completed && |b.tasks[tid].attempts| < MAX_ATTEMPTS
    ensures var t := b.tasks[tid];
            var c := PutTask(b, tid, Moved(Reoffered(t, b.leadership, target, x.ids.attempt), Offered, detail, x.now),
                             b.executionSecrets - {Current(t).id});
            Inv(c) && Evolves(b, c)
  {
    hide Inv, Evolves, TaskOk, TaskEvolves;
    var t := b.tasks[tid];
    TaskOfGoodBoard(b, tid);
    ReofferedOk(b, t, target, x, detail);
    UpdateKeepsInv(b, tid, Moved(Reoffered(t, b.leadership, target, x.ids.attempt), Offered, detail, x.now),
                   b.executionSecrets - {Current(t).id});
  }

  /** A task operation on a good board leaves a good board. */
  lemma ExecutionKeepsInv(b: Board, x: Input, tid: string)
    requires Inv(b) && tid in b.tasks && b.tasks[tid].attempts != []
    requires ExecutionRequest(b, x, tid).Ok?
    ensures var c := ExecutionRequest(b, x, tid).value.board; Inv(c) && Evolves(b, c)
  {
    hide Inv, Evolves, ExecutionGuard, ValidText, ValidId, EventOf, Moved, PutTask, OnlyTask;
    var t := b.tasks[tid];
    SecretsOfGoodBoard(b, tid);
    var es := b.executionSecrets;
    match x.req.op
    case Adopt => AdoptKeepsInv(b, tid, x);
    case Start => MoveKeepsInv(b, tid, Current(StartedTask(t, x)), Running, "Task agent started", x.now, es);
    case Progress =>
      assert WithCurrent(t, Current(t)) == t;
      MoveKeepsInv(b, tid, Current(t), ProgressState(x.req.name, t.state).value, x.req.text, x.now, es);
    case SubmitResult =>
      MoveKeepsInv(b, tid, Current(WithResult(t, x)), ResultSubmitted, x.req.result.summary.value, x.now, es);
    case ReportFailure =>
      assert WithCurrent(t, Current(t)) == t;
      MoveKeepsInv(b, tid, Current(t), Failed, x.req.text, x.now, es);
    case ConfirmCancelled =>
      assert WithCurrent(t, Current(t)) == t;
      MoveKeepsInv(b, tid, Current(t), Cancelled, "Local runner confirmed stopped", x.now, es);
    case Uncertain =>
      assert WithCurrent(t, Current(t)) == t;
      MoveKeepsInv(b, tid, Current(t), NeedsReconciliation, x.req.text, x.now, es);
    case _ =>
  }

  lemma ValidIdNonempty(s: string)
    ensures ValidId(s) ==> s != ""
  {
  }

  lemma TaskRequestKeepsInv(b: Board, x: Input)
    requires Inv(b) && FreshFor(b, x.ids) && TaskRequest(b, x).Ok?
    ensures var c := TaskRequest(b, x).value.board; Inv(c) && Evolves(b, c)
  {
    hide Inv, Evolves, AllCompleted, ExecutionRequest, ResolveTask, ResolveAgent, EventOf, LeaderGuard, Suits, FreshFor,
         OnlyTask, Moved, PutTask, ClaimedTask, Reoffered, ActiveTasks, TaskOk, ValidId, TaskLabel;
    var tid := ResolveTask(b, x.req.taskId).value;
    var t := b.tasks[tid];
    TaskOfGoodBoard(b, tid);
    assert WithCurrent(t, Current(t)) == t;
    var es := b.executionSecrets;
    match x.req.op
    case Claim => ValidIdNonempty(x.req.executionId); ClaimKeepsInv(b, tid, x, "Assignment claimed");
    case Review => MoveKeepsInv(b, tid, Current(t), if x.req.ready then Completed else Failed, x.req.text, x.now, es);
    case Cancel =>
      MoveKeepsInv(b, tid, Current(t), if Claimable(t.state) || t.state == ResultSubmitted then Cancelled else CancelRequested,
                   x.req.text, x.now, es);
    case Resolve => MoveKeepsInv(b, tid, Current(t), Failed, RESOLVED_NOTE + x.req.text, x.now, es - {Current(t).id});
    case Retry =>
      RetryKeepsInv(b, tid, RetryGuard(b, x, tid).value, x, "Explicit retry of " + TaskLabel(t.number));
    case _ => ExecutionKeepsInv(b, x, tid);
  }

  // Operations on peers, agents and leadership.

  lemma CarriedTasks(b: Board, c: Board)
    requires TasksOk(b) && Carries(b, c) && c.tasks == b.tasks
    ensures TasksOk(c)
  {
    forall id | id in c.tasks ensures TaskOk(c, c.tasks[id]) {
      CarriedTask(b, c, b.tasks[id]);
    }
  }

  /** Capacity and secrets depend on the tasks only through agent, state and current attempt. */
  lemma SameTasksCapacity(b: Board, c: Board)
    requires CapacityOk(b) && c.tasks == b.tasks && b.agents.Keys <= c.agents.Keys
    requires forall a :: a in b.agents ==> c.agents[a].maxActive == b.agents[a].maxActive
    requires forall a :: a in c.agents && a !in b.agents ==> ActiveTasks(b, a) == {} && c.agents[a].maxActive >= 0
    ensures CapacityOk(c)
  {
    forall a | a in c.agents ensures |ActiveTasks(c, a)| <= c.agents[a].maxActive {
      assert ActiveTasks(c, a) == ActiveTasks(b, a);
    }
  }

  lemma SameTasksSecrets(b: Board, c: Board)
    requires SecretsOk(b) && c.tasks == b.tasks && c.executionSecrets == b.executionSecrets
    requires forall id :: id in c.peerSecrets <==> id in c.peers && c.peers[id].state != Revoked
    ensures SecretsOk(c)
  {
    forall k | k in c.executionSecrets ensures exists tid :: HoldsSecret(c, tid, k) {
      var tid :| HoldsSecret(b, tid, k);
      assert HoldsSecret(c, tid, k);
    }
  }

  /** The invariant of a board without the condition on its leadership. */
  ghost predicate CoreInv(b: Board) {
    Keyed(b) && UniqueAttempts(b) && TasksOk(b) && CapacityOk(b) && SecretsOk(b)
  }

  lemma SameTasksUnique(b: Board, c: Board)
    requires UniqueAttempts(b) && c.tasks == b.tasks
    ensures UniqueAttempts(c)
  {
  }

  /** The fields the record maps are searched by. */
  ghost predicate SameKeys(b: Board, c: Board) {
    && c.peers.Keys == b.peers.Keys && c.agents.Keys == b.agents.Keys && c.tasks.Keys == b.tasks.Keys && c.nextTask == b.nextTask
    && (forall p :: p in b.peers ==>
          c.peers[p].id == b.peers[p].id && c.peers[p].userId == b.peers[p].userId && c.peers[p].sessionId == b.peers[p].sessionId)
    && (forall a :: a in b.agents ==>
          c.agents[a].id == b.agents[a].id && c.agents[a].peerId == b.agents[a].peerId && c.agents[a].name == b.agents[a].name)
    && (forall t :: t in b.tasks ==> c.tasks[t].id == b.tasks[t].id && c.tasks[t].number == b.tasks[t].number)
  }

  lemma SameKeysKeyed(b: Board, c: Board)
    requires Keyed(b) && SameKeys(b, c)
    ensures Keyed(c)
  {
  }

  lemma RejoinKeepsKeys(b: Board, pid: string, x: Input)
    requires Keyed(b) && pid in b.peers
    ensures Keyed(Rejoin(b, pid, x))
  {
    hide Keyed;
    SameKeysKeyed(b, Rejoin(b, pid, x));
  }

  lemma RejoinCarries(b: Board, pid: string, x: Input)
    requires pid in b.peers && b.peers[pid].state != Revoked
    ensures Carries(b, Rejoin(b, pid, x))
  {
  }

  lemma RejoinEvolves(b: Board, pid: string, x: Input)
    requires pid in b.peers && b.peers[pid].state != Revoked
    ensures Evolves(b, Rejoin(b, pid, x))
  {
    hide TaskEvolves;
    forall t: Task { TaskEvolvesReflexive(t); }
  }

  lemma RejoinKeepsInv(b: Board, pid: string, x: Input)
    requires CoreInv(b) && pid in b.peers && b.peers[pid].state != Revoked
    ensures CoreInv(Rejoin(b, pid, x)) && Evolves(b, Rejoin(b, pid, x))
  {
    hide Keyed, UniqueAttempts, TasksOk, CapacityOk, SecretsOk, Carries, Evolves;
    var c := Rejoin(b, pid, x);
    RejoinKeepsKeys(b, pid, x);
    RejoinCarries(b, pid, x);
    RejoinEvolves(b, pid, x);
    SameTasksUnique(b, c);
    CarriedTasks(b, c);
    SameTasksCapacity(b, c);
    SecretIds(b);
    SameTasksSecrets(b, c);
  }

  lemma SecretIds(b: Board)
    requires SecretsOk(b)
    ensures forall id :: id in b.peerSecrets <==> id in b.peers && b.peers[id].state != Revoked
  {
  }

  lemma AddPeerKeepsKeys(b: Board, x: Input)
    requires Keyed(b) && x.ids.peer !in b.peers && Sessions(b, x.auth.userId, x.req.sessionId) == {}
    ensures Keyed(AddPeer(b, x))
  {
    forall p | p in b.peers ensures b.peers[p].userId != x.auth.userId || b.peers[p].sessionId != x.req.sessionId {
      assert p !in Sessions(b, x.auth.userId, x.req.sessionId);
    }
  }

  lemma AddPeerCarries(b: Board, x: Input)
    requires x.ids.peer !in b.peers
    ensures Carries(b, AddPeer(b, x)) && Evolves(b, AddPeer(b, x))
  {
  }

  lemma AddPeerKeepsInv(b: Board, x: Input)
    requires CoreInv(b) && x.ids.peer !in b.peers && Sessions(b, x.auth.userId, x.req.sessionId) == {}
    ensures CoreInv(AddPeer(b, x)) && Evolves(b, AddPeer(b, x))
  {
    hide Keyed, UniqueAttempts, TasksOk, CapacityOk, SecretsOk, Carries, Evolves, Sessions;
    var c := AddPeer(b, x);
    AddPeerKeepsKeys(b, x);
    AddPeerCarries(b, x);
    SameTasksUnique(b, c);
    CarriedTasks(b, c);
    SameTasksCapacity(b, c);
    SecretIds(b);
    SameTasksSecrets(b, c);
  }

  lemma JoinKeepsInv(b: Board, x: Input)
    requires CoreInv(b) && FreshFor(b, x.ids) && JoinBoard(b, x).Ok?
    ensures CoreInv(JoinBoard(b, x).value.board) && Evolves(b, JoinBoard(b, x).value.board)
    ensures var c := JoinBoard(b, x).value.board;
            c.enabled == b.enabled && c.leadership == b.leadership && c.agents.Keys == b.agents.Keys && c.tasks == b.tasks
  {
    hide CoreInv, Evolves, ValidId, ValidLabel;
    var c := JoinBoard(b, x).value;
    if Sessions(b, x.auth.userId, x.req.sessionId) != {} {
      assert c.id in Sessions(b, x.auth.userId, x.req.sessionId);
      RejoinKeepsInv(b, c.id, x);
    } else {
      AddPeerKeepsInv(b, x);
    }
  }

  lemma AddAgentKeepsKeys(b: Board, pid: string, r: Request, id: string)
    requires Keyed(b) && pid in b.peers && id !in b.agents && Endpoints(b, pid, r.name) == {}
    ensures Keyed(AddAgent(b, pid, r, id))
  {
    forall a | a in b.agents ensures b.agents[a].peerId != pid || b.agents[a].name != r.name {
      assert a !in Endpoints(b, pid, r.name);
    }
  }

  lemma AddAgentCarries(b: Board, pid: string, r: Request, id: string)
    requires pid in b.peers && id !in b.agents
    ensures Carries(b, AddAgent(b, pid, r, id)) && Evolves(b, AddAgent(b, pid, r, id))
  {
  }

  lemma AddAgentKeepsInv(b: Board, pid: string, r: Request, id: string)
    requires CoreInv(b) && pid in b.peers && id !in b.agents && Endpoints(b, pid, r.name) == {} && r.maxActive >= 0
    ensures CoreInv(AddAgent(b, pid, r, id)) && Evolves(b, AddAgent(b, pid, r, id))
  {
    hide Keyed, UniqueAttempts, TasksOk, CapacityOk, SecretsOk, Carries, Evolves, Endpoints;
    var c := AddAgent(b, pid, r, id);
    AddAgentKeepsKeys(b, pid, r, id);
    AddAgentCarries(b, pid, r, id);
    SameTasksUnique(b, c);
    CarriedTasks(b, c);
    NoTasksOfStranger(b, id);
    SameTasksCapacity(b, c);
    SecretIds(b);
    SameTasksSecrets(b, c);
  }

  lemma RegisterKeepsInv(b: Board, pid: string, r: Request, id: string)
    requires CoreInv(b) && pid in b.peers && id !in b.agents && RegisterAgent(b, pid, r, id).Ok?
    ensures CoreInv(RegisterAgent(b, pid, r, id).value.board) && Evolves(b, RegisterAgent(b, pid, r, id).value.board)
    ensures var c := RegisterAgent(b, pid, r, id).value;
            && c.id in c.board.agents && c.board.enabled == b.enabled && c.board.leadership == b.leadership
            && c.board.peers == b.peers && c.board.tasks == b.tasks && b.agents.Keys <= c.board.agents.Keys
  {
    hide CoreInv, Evolves, ValidName;
    if Endpoints(b, pid, r.name) == {} {
      AddAgentKeepsInv(b, pid, r, id);
    } else {
      assert RegisterAgent(b, pid, r, id).value.id in Endpoints(b, pid, r.name);
      EvolvesReflexive(b);
    }
  }

  lemma NoTasksOfStranger(b: Board, id: string)
    requires TasksOk(b) && id !in b.agents
    ensures ActiveTasks(b, id) == {}
  {
    forall t | t in b.tasks ensures b.tasks[t].agentId != id {
      assert TaskOk(b, b.tasks[t]);
    }
  }

  lemma RestampedOk(b: Board, c: Board, t: Task, aid: string, now: int)
    requires TaskOk(b, t) && c == Appoint(b, aid, now)
    ensures TaskOk(c, Restamped(t, aid, c.leadership.term, now)) && TaskEvolves(t, Restamped(t, aid, c.leadership.term, now))
  {
    var u := Restamped(t, aid, c.leadership.term, now);
    assert u.attempts == t.attempts;
    assert DependenciesOk(b, t);
    assert DependenciesOk(c, u) by {
      if EverClaimed(u) {
        assert EverClaimed(t);
        assert AllCompleted(b, t.dependencies);
      }
    }
  }

  lemma AppointKeepsTasks(b: Board, aid: string, now: int)
    requires TasksOk(b)
    ensures TasksOk(Appoint(b, aid, now))
    ensures forall id :: id in b.tasks ==> TaskEvolves(b.tasks[id], Appoint(b, aid, now).tasks[id])
  {
    hide TaskOk, TaskEvolves;
    var c := Appoint(b, aid, now);
    forall id | id in c.tasks ensures TaskOk(c, c.tasks[id]) && TaskEvolves(b.tasks[id], c.tasks[id]) {
      RestampedOk(b, c, b.tasks[id], aid, now);
    }
  }

  lemma AppointKeepsKeys(b: Board, aid: string, now: int)
    requires Keyed(b)
    ensures Keyed(Appoint(b, aid, now))
  {
    hide Keyed;
    SameKeysKeyed(b, Appoint(b, aid, now));
  }

  /** The waiting tasks of a board keep their attempts, agents and states when they are restamped or renewed. */
  ghost predicate SameWork(b: Board, c: Board) {
    && c.tasks.Keys == b.tasks.Keys
    && (forall id :: id in b.tasks ==>
          && c.tasks[id].agentId == b.tasks[id].agentId && c.tasks[id].state == b.tasks[id].state
          && |c.tasks[id].attempts| == |b.tasks[id].attempts|
          && forall i :: 0 <= i < |b.tasks[id].attempts| ==>
               && c.tasks[id].attempts[i].id == b.tasks[id].attempts[i].id
               && c.tasks[id].attempts[i].executionId == b.tasks[id].attempts[i].executionId)
  }

  lemma SameWorkUnique(b: Board, c: Board)
    requires UniqueAttempts(b) && SameWork(b, c)
    ensures UniqueAttempts(c)
  {
  }

  lemma SameWorkCapacity(b: Board, c: Board)
    requires CapacityOk(b) && SameWork(b, c) && c.agents.Keys == b.agents.Keys
    requires forall a :: a in b.agents ==> c.agents[a].maxActive == b.agents[a].maxActive
    ensures CapacityOk(c)
  {
    forall a | a in c.agents ensures |ActiveTasks(c, a)| <= c.agents[a].maxActive {
      assert ActiveTasks(c, a) == ActiveTasks(b, a);
    }
  }

  lemma SameWorkSecrets(b: Board, c: Board)
    requires SecretsOk(b) && SameWork(b, c) && c.executionSecrets == b.executionSecrets && c.peerSecrets == b.peerSecrets
    requires c.peers.Keys == b.peers.Keys
    requires forall p :: p in b.peers ==> (c.peers[p].state == Revoked <==> b.peers[p].state == Revoked)
    ensures SecretsOk(c)
  {
    forall k | k in c.executionSecrets ensures exists tid :: HoldsSecret(c, tid, k) {
      var tid :| HoldsSecret(b, tid, k);
      assert HoldsSecret(c, tid, k);
    }
  }

  lemma AppointSameWork(b: Board, aid: string, now: int)
    ensures SameWork(b, Appoint(b, aid, now))
  {
  }

  lemma AppointEvolves(b: Board, aid: string, now: int)
    requires forall id :: id in b.tasks ==> TaskEvolves(b.tasks[id], Appoint(b, aid, now).tasks[id])
    ensures Evolves(b, Appoint(b, aid, now))
  {
    hide TaskEvolves;
  }

  /** A new leader restamps every waiting task and disturbs no other part of the invariant. */
  lemma AppointKeepsInv(b: Board, aid: string, now: int)
    requires CoreInv(b)
    ensures CoreInv(Appoint(b, aid, now)) && Evolves(b, Appoint(b, aid, now))
  {
    hide Keyed, UniqueAttempts, TasksOk, CapacityOk, SecretsOk, Evolves, TaskEvolves, SameWork;
    var c := Appoint(b, aid, now);
    AppointKeepsKeys(b, aid, now);
    AppointKeepsTasks(b, aid, now);
    AppointSameWork(b, aid, now);
    AppointEvolves(b, aid, now);
    SameWorkUnique(b, c);
    SameWorkCapacity(b, c);
    SameWorkSecrets(b, c);
  }

  lemma InitKeepsInv(b: Board, x: Input)
    requires Inv(b) && FreshFor(b, x.ids) && InitBoard(b, x).Ok?
    ensures Inv(InitBoard(b, x).value.board) && Evolves(b, InitBoard(b, x).value.board)
  {
    hide CoreInv, Evolves, JoinBoard, RegisterAgent, EventOf;
    CoreOfInv(b);
    var p := JoinBoard(b, x).value;
    JoinKeepsInv(b, x);
    var r := x.req.(role := "leader", maxActive := 1);
    var a := RegisterAgent(p.board, p.id, r, x.ids.agent).value;
    FreshAgent(b, p.board, x.ids);
    RegisterKeepsInv(p.board, p.id, r, x.ids.agent);
    EvolvesTransitive(b, p.board, a.board);
    var d := a.board.(enabled := true, operatorId := x.auth.userId);
    SameButScalars(a.board, d);
    EvolvesTransitive(b, a.board, d);
    AppointKeepsInv(d, a.id, x.now);
    EvolvesTransitive(b, d, Appoint(d, a.id, x.now));
    InvOfCore(Appoint(d, a.id, x.now));
  }

  lemma CoreOfInv(b: Board)
    requires Inv(b)
    ensures CoreInv(b) && LeadershipOk(b)
  {
  }

  lemma InvOfCore(b: Board)
    requires CoreInv(b) && LeadershipOk(b)
    ensures Inv(b)
  {
  }

  lemma FreshAgent(b: Board, c: Board, ids: FreshIds)
    requires FreshFor(b, ids) && c.agents.Keys == b.agents.Keys
    ensures ids.agent !in c.agents
  {
  }

  /** Fields the invariant does not look at. */
  lemma SameButScalars(b: Board, c: Board)
    requires CoreInv(b) && (b.enabled ==> c.enabled) && c.peers == b.peers && c.agents == b.agents && c.tasks == b.tasks
    requires c.nextTask == b.nextTask && c.peerSecrets == b.peerSecrets && c.executionSecrets == b.executionSecrets
    requires c.leadership.agentId == b.leadership.agentId && c.leadership.term == b.leadership.term
    ensures CoreInv(c) && Evolves(b, c)
  {
    hide Keyed, UniqueAttempts, TasksOk, CapacityOk, SecretsOk, Carries, Evolves;
    SameButScalarsCarries(b, c);
    SameTasksUnique(b, c);
    CarriedTasks(b, c);
    SameTasksCapacity(b, c);
    SecretIds(b);
    SameTasksSecrets(b, c);
  }

  lemma SameButScalarsCarries(b: Board, c: Board)
    requires Keyed(b) && (b.enabled ==> c.enabled) && c.peers == b.peers && c.agents == b.agents && c.tasks == b.tasks
    requires c.nextTask == b.nextTask
    requires c.leadership.agentId == b.leadership.agentId && c.leadership.term == b.leadership.term
    ensures Keyed(c) && Carries(b, c) && Evolves(b, c)
  {
    hide TaskEvolves, AgentEvolves, PeerEvolves;
    assert Evolves(b, c) by {
      EvolvesReflexive(b);
    }
  }

  lemma JoinRequestKeepsInv(b: Board, x: Input)
    requires Inv(b) && b.enabled && FreshFor(b, x.ids) && JoinRequest(b, x).Ok?
    ensures Inv(JoinRequest(b, x).value.board) && Evolves(b, JoinRequest(b, x).value.board)
  {
    hide CoreInv, Evolves, JoinBoard, RegisterAgent, EventOf;
    CoreOfInv(b);
    var p := JoinBoard(b, x).value;
    JoinKeepsInv(b, x);
    if x.req.name != "" {
      FreshAgent(b, p.board, x.ids);
      RegisterKeepsInv(p.board, p.id, x.req, x.ids.agent);
      EvolvesTransitive(b, p.board, RegisterAgent(p.board, p.id, x.req, x.ids.agent).value.board);
    }
    InvOfCore(JoinRequest(b, x).value.board);
  }

  lemma RenewedOk(b: Board, t: Task, until: int)
    requires TaskOk(b, t) && Active(t.state)
    ensures TaskOk(b, Renewed(t, until)) && TaskEvolves(t, Renewed(t, until))
  {
    TouchedTask(b, t, Renewed(t, until));
  }

  lemma BeatCarries(b: Board, pid: string, x: Input)
    requires pid in b.peers && b.peers[pid].state != Revoked
    ensures Carries(b, Beat(b, pid, x))
  {
  }

  lemma BeatKeepsTasks(b: Board, pid: string, x: Input)
    requires TasksOk(b) && pid in b.peers && b.peers[pid].state != Revoked
    ensures TasksOk(Beat(b, pid, x))
    ensures forall id :: id in b.tasks ==> TaskEvolves(b.tasks[id], Beat(b, pid, x).tasks[id])
  {
    hide TaskOk, TaskEvolves, Carries;
    var c := Beat(b, pid, x);
    BeatCarries(b, pid, x);
    forall id | id in c.tasks ensures TaskOk(c, c.tasks[id]) && TaskEvolves(b.tasks[id], c.tasks[id]) {
      var t := b.tasks[id];
      assert TaskOk(b, t);
      var d := BeatPeers(b, pid, x);
      if RunsOn(d.agents, pid, d.peers[pid].incarnation, x, t) {
        RenewedOk(b, t, x.now + LEASE);
      } else {
        TaskEvolvesReflexive(t);
      }
      CarriedTask(b, c, c.tasks[id]);
    }
  }

  lemma TaskEvolvesReflexive(t: Task)
    ensures TaskEvolves(t, t)
  {
  }

  lemma BeatSameWork(b: Board, pid: string, x: Input)
    requires pid in b.peers
    ensures SameWork(b, Beat(b, pid, x))
  {
    hide KeptAlive, PolledAgents, Reaffirmed;
    var c := BeatPeers(b, pid, x);
    forall t: Task { KeptAliveSame(c.agents, pid, c.peers[pid].incarnation, x, t); }
  }

  lemma KeptAliveSame(agents: map<string, Agent>, pid: string, incarnation: string, x: Input, t: Task)
    ensures var u := KeptAlive(agents, pid, incarnation, x, t);
            && u.agentId == t.agentId && u.state == t.state && u.id == t.id && u.number == t.number && |u.attempts| == |t.attempts|
            && forall i :: 0 <= i < |t.attempts| ==>
                 u.attempts[i].id == t.attempts[i].id && u.attempts[i].executionId == t.attempts[i].executionId
  {
  }

  lemma BeatKeepsKeys(b: Board, pid: string, x: Input)
    requires Keyed(b) && pid in b.peers
    ensures Keyed(Beat(b, pid, x))
  {
    hide KeptAlive, Reaffirmed, Keyed;
    var c := BeatPeers(b, pid, x);
    forall t: Task { KeptAliveSame(c.agents, pid, c.peers[pid].incarnation, x, t); }
    SameKeysKeyed(b, Beat(b, pid, x));
  }

  lemma BeatEvolves(b: Board, pid: string, x: Input)
    requires pid in b.peers && b.peers[pid].state != Revoked
    requires forall id :: id in b.tasks ==> TaskEvolves(b.tasks[id], Beat(b, pid, x).tasks[id])
    ensures Evolves(b, Beat(b, pid, x))
  {
    hide TaskEvolves;
  }

  lemma BeatKeepsInv(b: Board, pid: string, x: Input)
    requires CoreInv(b) && pid in b.peers && b.peers[pid].state != Revoked
    ensures CoreInv(Beat(b, pid, x)) && Evolves(b, Beat(b, pid, x))
  {
    hide Keyed, UniqueAttempts, TasksOk, CapacityOk, SecretsOk, Evolves, TaskEvolves, SameWork, RunsOn;
    var c := Beat(b, pid, x);
    BeatKeepsKeys(b, pid, x);
    BeatKeepsTasks(b, pid, x);
    BeatSameWork(b, pid, x);
    BeatEvolves(b, pid, x);
    SameWorkUnique(b, c);
    SameWorkCapacity(b, c);
    SameWorkSecrets(b, c);
  }

  lemma RevokeKeepsTasks(b: Board, pid: string, now: int)
    requires TasksOk(b) && pid in b.peers && Draining(b, pid) == {}
    ensures TasksOk(Revoke(b, pid, now))
  {
    hide TaskOk;
    var c := Revoke(b, pid, now);
    forall id | id in c.tasks ensures TaskOk(c, c.tasks[id]) {
      assert TaskOk(b, b.tasks[id]);
      assert id !in Draining(b, pid);
      RevokeKeepsTask(b, pid, now, id);
    }
  }

  lemma RevokeKeepsTask(b: Board, pid: string, now: int, id: string)
    requires id in b.tasks && TaskOk(b, b.tasks[id]) && pid in b.peers && id !in Draining(b, pid)
    ensures TaskOk(Revoke(b, pid, now), b.tasks[id])
  {
    var c, t := Revoke(b, pid, now), b.tasks[id];
    assert DependenciesOk(b, t);
    assert DependenciesOk(c, t) by {
      if EverClaimed(t) {
        assert AllCompleted(b, t.dependencies);
      }
    }
  }

  lemma RevokeKeepsKeys(b: Board, pid: string, now: int)
    requires Keyed(b) && pid in b.peers
    ensures Keyed(Revoke(b, pid, now))
  {
    hide Keyed;
    SameKeysKeyed(b, Revoke(b, pid, now));
  }

  lemma RevokeEvolves(b: Board, pid: string, now: int)
    requires pid in b.peers
    ensures Evolves(b, Revoke(b, pid, now))
  {
  }

  /** A peer may leave only when no active task is left on it. */
  lemma LeaveKeepsInv(b: Board, pid: string, now: int)
    requires CoreInv(b) && pid in b.peers && Draining(b, pid) == {}
    ensures CoreInv(Revoke(b, pid, now)) && Evolves(b, Revoke(b, pid, now))
  {
    hide Keyed, UniqueAttempts, TasksOk, CapacityOk, SecretsOk, Evolves, Draining;
    var c := Revoke(b, pid, now);
    RevokeKeepsKeys(b, pid, now);
    RevokeEvolves(b, pid, now);
    RevokeKeepsTasks(b, pid, now);
    SameTasksUnique(b, c);
    SameTasksCapacity(b, c);
    SecretIds(b);
    SameTasksSecrets(b, c);
  }

  lemma {:induction false} DependencyIdsExist(b: Board, refs: seq<string>, ids: seq<string>)
    requires DependencyIds(b, refs, ids).Ok? && forall i :: 0 <= i < |ids| ==> ids[i] in b.tasks
    ensures forall i :: 0 <= i < |DependencyIds(b, refs, ids).value| ==> DependencyIds(b, refs, ids).value[i] in b.tasks
    decreases |refs|
  {
    if refs != [] {
      var tid := ResolveTask(b, refs[0]).value;
      DependencyIdsExist(b, refs[1..], if tid in ids then ids else ids + [tid]);
    }
  }

  lemma NewTaskOk(b: Board, x: Input, target: string, deps: seq<string>)
    requires b.leadership.agentId in b.agents && target in b.agents
    requires forall i :: 0 <= i < |deps| ==> deps[i] in b.tasks && b.tasks[deps[i]].number <= b.nextTask
    ensures TaskOk(b, NewTask(b, x, b.leadership.agentId, target, deps))
  {
    assert !EverClaimed(NewTask(b, x, b.leadership.agentId, target, deps));
  }

  lemma AddTaskCarries(b: Board, t: Task)
    requires t.id !in b.tasks
    ensures Carries(b, AddTask(b, t)) && Evolves(b, AddTask(b, t))
  {
  }

  lemma AddTaskKeepsTasks(b: Board, t: Task)
    requires TasksOk(b) && t.id !in b.tasks && TaskOk(b, t)
    ensures TasksOk(AddTask(b, t))
  {
    hide TaskOk, Carries;
    var c := AddTask(b, t);
    AddTaskCarries(b, t);
    forall id | id in c.tasks ensures TaskOk(c, c.tasks[id]) {
      CarriedTask(b, c, c.tasks[id]);
    }
  }

  lemma AddTaskKeepsKeys(b: Board, t: Task)
    requires Keyed(b) && t.id !in b.tasks && t.number == b.nextTask + 1
    ensures Keyed(AddTask(b, t))
  {
  }

  lemma AddTaskKeepsUnique(b: Board, t: Task)
    requires UniqueAttempts(b) && t.id !in b.tasks && |t.attempts| == 1
    requires forall s, i :: s in b.tasks && 0 <= i < |b.tasks[s].attempts| ==> b.tasks[s].attempts[i].id != t.attempts[0].id
    ensures UniqueAttempts(AddTask(b, t))
  {
  }

  lemma AddTaskKeepsWork(b: Board, t: Task)
    requires CapacityOk(b) && SecretsOk(b) && t.id !in b.tasks && !Active(t.state)
    ensures CapacityOk(AddTask(b, t)) && SecretsOk(AddTask(b, t))
  {
    var c := AddTask(b, t);
    forall a | a in c.agents ensures |ActiveTasks(c, a)| <= c.agents[a].maxActive {
      assert ActiveTasks(c, a) == ActiveTasks(b, a);
    }
    forall k | k in c.executionSecrets ensures exists tid :: HoldsSecret(c, tid, k) {
      var tid :| HoldsSecret(b, tid, k);
      assert HoldsSecret(c, tid, k);
    }
  }

  lemma NumbersBounded(b: Board)
    requires Keyed(b)
    ensures forall id :: id in b.tasks ==> b.tasks[id].number <= b.nextTask
  {
  }

  lemma AddTaskKeepsInv(b: Board, x: Input, target: string, deps: seq<string>)
    requires CoreInv(b) && b.leadership.agentId in b.agents && FreshFor(b, x.ids) && target in b.agents
    requires forall i :: 0 <= i < |deps| ==> deps[i] in b.tasks
    ensures var c := AddTask(b, NewTask(b, x, b.leadership.agentId, target, deps)); CoreInv(c) && Evolves(b, c)
  {
    hide Keyed, UniqueAttempts, TasksOk, CapacityOk, SecretsOk, Evolves, TaskOk, Carries;
    var t := NewTask(b, x, b.leadership.agentId, target, deps);
    NumbersBounded(b);
    NewTaskOk(b, x, target, deps);
    AddTaskCarries(b, t);
    AddTaskKeepsTasks(b, t);
    AddTaskKeepsKeys(b, t);
    AddTaskKeepsUnique(b, t);
    AddTaskKeepsWork(b, t);
  }

  lemma AssignKeepsInv(b: Board, x: Input)
    requires CoreInv(b) && FreshFor(b, x.ids) && AssignRequest(b, x).Ok?
    ensures var c := AssignRequest(b, x).value.board;
            CoreInv(c) && Evolves(b, c) && c.enabled == b.enabled && c.leadership == b.leadership && c.agents == b.agents
  {
    hide CoreInv, Evolves, FreshFor, ResolveAgent, LeaderGuard, DependencyIds, ValidAssignment, Suits, EventOf, NewTask;
    var deps := DependencyIds(b, x.req.dependencies, []).value;
    DependencyIdsExist(b, x.req.dependencies, []);
    AddTaskKeepsInv(b, x, ResolveAgent(b, x.req.target).value, deps);
  }

  lemma PeerRequestKeepsInv(b: Board, x: Input, pid: string)
    requires Inv(b) && b.enabled && FreshFor(b, x.ids) && pid in b.peers && b.peers[pid].state != Revoked
    requires PeerRequest(b, x, pid).Ok?
    ensures var c := PeerRequest(b, x, pid).value.board; Inv(c) && Evolves(b, c)
  {
    hide Inv, CoreInv, Evolves, FreshFor, RegisterAgent, HandoverTarget, OwnAgent, Draining, EventOf, Beat, ResolveAgent,
         AssignRequest, TaskRequest, StandbyIds, FirstReady, SendTask;
    CoreOfInv(b);
    FreshAgentNow(b, x.ids);
    var c := PeerRequest(b, x, pid).value.board;
    match x.req.op
    case Register => RegisterKeepsInv(b, pid, x.req, x.ids.agent); InvOfCore(c);
    case Heartbeat => BeatKeepsInv(b, pid, x); BeatKeepsLeader(b, pid, x); InvOfCore(c);
    case Leave => LeaveKeepsInv(b, pid, x.now); InvOfCore(c);
    case Handover => AppointKeepsInv(b, HandoverTarget(b, x).value, x.now); InvOfCore(c);
    case Acquire => AppointKeepsInv(b, OwnAgent(b, x).value, x.now); InvOfCore(c);
    case Standbys => SameButScalars(b, c); InvOfCore(c);
    case BoardPause => SameButScalars(b, c); InvOfCore(c);
    case Send => EvolvesReflexive(b);
    case Objective => EvolvesReflexive(b);
    case Assign => AssignKeepsInv(b, x); InvOfCore(c);
    case UnknownOp(_) =>
    case _ => TaskRequestKeepsInv(b, x);
  }

  lemma FreshAgentNow(b: Board, ids: FreshIds)
    requires FreshFor(b, ids)
    ensures ids.agent !in b.agents
  {
  }

  lemma BeatKeepsLeader(b: Board, pid: string, x: Input)
    requires pid in b.peers && LeadershipOk(b) && b.enabled
    ensures LeadershipOk(Beat(b, pid, x))
  {
  }

  /** Every successful request on a good board leaves a good board and undoes nothing. */
  lemma StepKeepsInv(b: Board, x: Input)
    requires Inv(b) && FreshFor(b, x.ids) && Step(b, x).Ok?
    ensures var c := Step(b, x).value.board; Inv(c) && Evolves(b, c)
  {
    hide Inv, CoreInv, Evolves, FreshFor, InitBoard, JoinRequest, PeerRequest, ValidId, PeerGuard;
    var c := Operate(b, x).value.board;
    if x.req.op == Init {
      InitKeepsInv(b, x);
    } else if x.req.op == Join {
      JoinRequestKeepsInv(b, x);
    } else {
      PeerRequestKeepsInv(b, x, PeerGuard(b, x).value);
    }
    CoreOfInv(c);
    SameButScalars(c, c.(serverTime := x.now));
    InvOfCore(c.(serverTime := x.now));
    EvolvesTransitive(b, c, c.(serverTime := x.now));
  }
}
