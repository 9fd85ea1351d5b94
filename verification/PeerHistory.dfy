/** Where things on a board come from: over every run, each state a task is in, each token and each
    credential presented goes back to the request that set it. */
module PeerHistory {
  import opened PeerState
  import opened PeerStep
  import opened PeerInvariant
  import opened PeerRuns
  import opened PeerLaws
  import opened PeerBoardLaws

  /** A task and its token are as they were, but for a lease or a re-offer. */
  ghost predicate SameStates(b: Board, c: Board) {
    && c.executionSecrets == b.executionSecrets
    && (forall id :: id in b.tasks ==> id in c.tasks && c.tasks[id].state == b.tasks[id].state)
    && (forall id :: id in c.tasks && id !in b.tasks ==> Waiting(c.tasks[id].state))
  }

  lemma ExtendedState(x: Input, t: Task, u: Task)
    requires Extended(x, t, u)
    ensures u.state == t.state
  {
  }

  lemma HeartbeatStates(b: Board, x: Input, out: Outcome)
    requires HeartbeatDone(b, x, out)
    ensures SameStates(b, out.board) && out.board.peerSecrets == b.peerSecrets
  {
    hide Alive, Extended, AgentPolled;
    forall id | id in b.tasks ensures out.board.tasks[id].state == b.tasks[id].state {
      if Alive(b, x, b.tasks[id]) {
        ExtendedState(x, b.tasks[id], out.board.tasks[id]);
      }
    }
  }

  lemma AppointStates(b: Board, x: Input, aid: string, out: Outcome)
    requires AppointDone(b, x, aid, out)
    ensures SameStates(b, out.board) && out.board.peerSecrets == b.peerSecrets
  {
  }

  lemma AssignStates(b: Board, x: Input, out: Outcome)
    requires ResolveAgent(b, x.req.target).Ok? && TasksNamed(b, x.req.dependencies) && AssignDone(b, x, out) && x.ids.task !in b.tasks
    ensures SameStates(b, out.board) && out.board.peerSecrets == b.peerSecrets
  {
    hide ResolveAgent, TasksNamed, NamedTasks, OnceEach;
  }

  lemma JoinedStates(b: Board, x: Input, c: Board, pid: string)
    requires Joined(b, x, c, pid)
    ensures c.tasks == b.tasks && c.executionSecrets == b.executionSecrets
    ensures c.peerSecrets == if NewSession(b, x) then b.peerSecrets[x.ids.peer := Hash(x.auth.peerToken)] else b.peerSecrets
  {
  }

  lemma FiledStates(b: Board, pid: string, r: Request, id: string, c: Board, aid: string)
    requires pid in b.peers && EndpointFiled(b, pid, r, id, c, aid)
    ensures c.tasks == b.tasks && c.executionSecrets == b.executionSecrets && c.peerSecrets == b.peerSecrets && c.peers == b.peers
  {
    hide Unregistered, RegisteredAs, SameOffer;
  }

  /** The tokens filed for peers, after a founding request. */
  ghost predicate TokenFiled(b: Board, x: Input, c: Board) {
    c.peerSecrets == if NewSession(b, x) then b.peerSecrets[x.ids.peer := Hash(x.auth.peerToken)] else b.peerSecrets
  }

  lemma FoundingStates(b: Board, x: Input)
    requires Founding(x.req.op) && Keyed(b) && x.ids.peer !in b.peers && Step(b, x).Ok?
    ensures SameStates(b, Step(b, x).value.board) && TokenFiled(b, x, Step(b, x).value.board)
    ensures MayJoin(b, x)
  {
    hide Step, Keyed, MayJoin, MayJoinAs, Joined, EndpointFiled, AppointDone, AsLeader, NewSession, WellMade, Told;
    var out := Step(b, x).value;
    if x.req.op == Join {
      Joins(b, x);
      var c :| JoinDone(b, x, c) && AtTime(c, x.now, out.board);
      var mid, pid :| Joined(b, x, mid, pid) && JoinedAs(x, mid, pid, c);
      JoinedStates(b, x, mid, pid);
      if x.req.name != "" {
        var aid :| EndpointFiled(mid, pid, x.req, x.ids.agent, c, aid);
        FiledStates(mid, pid, x.req, x.ids.agent, c, aid);
      }
    } else {
      Founds(b, x);
      var mid, pid, c, aid :| Joined(b, x, mid, pid) && FoundedAs(x, mid, pid, c, aid, out);
      JoinedStates(b, x, mid, pid);
      FiledStates(mid, pid, AsLeader(x.req), x.ids.agent, c, aid);
      AppointStates(c.(enabled := true, operatorId := x.auth.userId), x, aid, out);
    }
  }

  /** Requests about the board leave tasks and their tokens as they are, and file no token for a peer. */
  lemma BoardRequestStates(b: Board, x: Input)
    requires !Founding(x.req.op) && !TaskOp(x.req.op) && Keyed(b) && x.ids.task !in b.tasks && Step(b, x).Ok?
    ensures SameStates(b, Step(b, x).value.board)
    ensures forall pid :: pid in Step(b, x).value.board.peerSecrets ==> pid in b.peerSecrets && Step(b, x).value.board.peerSecrets[pid] == b.peerSecrets[pid]
  {
    hide Step, Keyed, HeartbeatDone, LeaveDone, AppointDone, AssignDone, Admitted, ResolveAgent, ResolveTask,
         TasksNamed, NamedAgents, OnceEach, AgentsNamed, NamesLeader, StandsIn, MaySpeak, MessageSent, Leads, Offers, WellDescribed;
    var out := Step(b, x).value;
    match x.req.op
    case Register => RegisterStates(b, x);
    case Heartbeat => Heartbeats(b, x); HeartbeatStates(b, x, out);
    case Leave => Leaving(b, x); LeaveStates(b, x, out);
    case Handover => Handovers(b, x); AppointStates(b, x, ResolveAgent(b, x.req.target).value, out);
    case Standbys => StandbyLists(b, x);
    case Acquire => Acquisitions(b, x); AppointStates(b, x, x.req.agentId, out);
    case BoardPause => Pauses(b, x);
    case Send => Messages(b, x);
    case Objective => Messages(b, x);
    case Assign => Assignments(b, x); AssignStates(b, x, out);
    case UnknownTaskOp(_) => UnknownIsRefused(b, x);
    case UnknownOp(_) => UnknownIsRefused(b, x);
  }

  lemma RegisterStates(b: Board, x: Input)
    requires x.req.op == Register && Keyed(b) && Step(b, x).Ok?
    ensures SameStates(b, Step(b, x).value.board) && Step(b, x).value.board.peerSecrets == b.peerSecrets
  {
    hide Step, Keyed, EndpointFiled, Admitted, MayRegister;
    Registrations(b, x);
    var c, aid :| EndpointFiled(b, x.req.peerId, x.req, x.ids.agent, c, aid) && Step(b, x).value.board == c.(serverTime := x.now);
    FiledStates(b, x.req.peerId, x.req, x.ids.agent, c, aid);
  }

  lemma LeaveStates(b: Board, x: Input, out: Outcome)
    requires LeaveDone(b, x, out)
    ensures SameStates(b, out.board) && out.board.peerSecrets == b.peerSecrets - {x.req.peerId}
  {
  }

  /** A task changes its state only by a task operation on it, and then as the table says. */
  lemma OnlyTaskOperations(b: Board, x: Input, tid: string)
    requires Inv(b) && FreshFor(b, x.ids)
    requires tid in b.tasks && tid in Next(b, x).tasks && Next(b, x).tasks[tid].state != b.tasks[tid].state
    ensures Step(b, x).Ok? && TaskOp(x.req.op) && Admitted(b, x) && ResolveTask(b, x.req.taskId) == Ok(tid)
    ensures b.tasks[tid].attempts != [] && Entitled(b, x, b.tasks[tid]) && Timely(b, x, b.tasks[tid])
    ensures Moves(x.req, b.tasks[tid].state, Next(b, x).tasks[tid].state)
  {
    hide Inv, FreshFor, Step, ResolveTask, Admitted, Entitled, Timely, Moves, TaskAfter, EventAfter, SecretsAfter;
    GoodParts(b, x);
    if Founding(x.req.op) {
      FoundingStates(b, x);
    } else if !TaskOp(x.req.op) {
      BoardRequestStates(b, x);
    } else {
      TaskOfStep(b, x);
      var named := ResolveTask(b, x.req.taskId).value;
      TaskOperation(b, x, named);
      assert Next(b, x).tasks == b.tasks[named := Next(b, x).tasks[named]];
    }
  }

  lemma GoodParts(b: Board, x: Input)
    requires Inv(b) && FreshFor(b, x.ids)
    ensures Keyed(b) && x.ids.peer !in b.peers && x.ids.task !in b.tasks
    ensures forall id :: id in b.tasks ==> b.tasks[id].attempts != []
  {
    hide Keyed, UniqueAttempts, CapacityOk, SecretsOk, LeadershipOk, DependenciesOk, WorkerOk, StampOk;
    forall id | id in b.tasks ensures b.tasks[id].attempts != [] {
      assert TaskOk(b, b.tasks[id]);
    }
  }

  /** An accepted task operation names a task. */
  lemma TaskOfStep(b: Board, x: Input)
    requires TaskOp(x.req.op) && Step(b, x).Ok?
    ensures ResolveTask(b, x.req.taskId).Ok? && ResolveTask(b, x.req.taskId).value in b.tasks
  {
    hide ValidId, ResolveTask, PeerGuard, ClaimRequest, ReviewRequest, CancelRequest, ResolveRequest, RetryRequest, ExecutionRequest, OnlyTask;
  }

  /** In every run a task becomes completed exactly by an accepted review that approves it, made by the
      current leader in its term on the submitted result it saw; disapproved, it fails. */
  lemma CompletedByReview(boards: seq<Board>, inputs: seq<Input>, i: nat, tid: string)
    requires Run(boards, inputs) && i < |inputs| && tid in boards[i].tasks && boards[i].tasks[tid].state != Completed
    ensures tid in boards[i + 1].tasks
    ensures boards[i + 1].tasks[tid].state == Completed <==>
            && Step(boards[i], inputs[i]).Ok? && inputs[i].req.op == Review && inputs[i].req.ready
            && ResolveTask(boards[i], inputs[i].req.taskId) == Ok(tid)
    ensures boards[i + 1].tasks[tid].state == Completed ==>
              && Admitted(boards[i], inputs[i]) && Leads(boards[i], inputs[i])
              && boards[i].tasks[tid].state == ResultSubmitted && boards[i].tasks[tid].version == inputs[i].req.taskVersion
    ensures (Step(boards[i], inputs[i]).Ok? && inputs[i].req.op == Review && !inputs[i].req.ready
             && ResolveTask(boards[i], inputs[i].req.taskId) == Ok(tid)) ==> boards[i + 1].tasks[tid].state == Failed
  {
    hide Inv, FreshFor, Step, ResolveTask, Admitted, Leads, TaskAfter, EventAfter, SecretsAfter, Evolves, Run;
    RunStep(boards, inputs, i);
    var b, x := boards[i], inputs[i];
    RunIsSafe(boards, inputs, i);
    GoodParts(b, x);
    RunOnlyEvolves(boards, inputs, i, i + 1);
    TasksStay(b, boards[i + 1], tid);
    if boards[i + 1].tasks[tid].state == Completed {
      OnlyTaskOperations(b, x, tid);
      OnlyReviewCompletes(x.req, b.tasks[tid].state);
    }
    if Step(b, x).Ok? && x.req.op == Review && ResolveTask(b, x.req.taskId) == Ok(tid) {
      TaskOperation(b, x, tid);
    }
  }

  lemma OnlyReviewCompletes(r: Request, from: TaskState)
    ensures Moves(r, from, Completed) && from != Completed ==> r.op == Review && r.ready && from == ResultSubmitted
  {
  }

  lemma RunStep(boards: seq<Board>, inputs: seq<Input>, i: nat)
    requires Run(boards, inputs) && i < |inputs|
    ensures i + 1 < |boards| && FreshFor(boards[i], inputs[i].ids) && boards[i + 1] == Next(boards[i], inputs[i])
  {
  }

  lemma TasksStay(b: Board, c: Board, tid: string)
    requires Evolves(b, c) && tid in b.tasks
    ensures tid in c.tasks
  {
  }

  // Where tokens come from.

  /** The request made a new session and filed this token for it. */
  ghost predicate FiledFor(boards: seq<Board>, inputs: seq<Input>, k: nat, pid: string, secret: Secret)
    requires |boards| == |inputs| + 1
  {
    && k < |inputs| && Founding(inputs[k].req.op) && Step(boards[k], inputs[k]).Ok? && NewSession(boards[k], inputs[k])
    && inputs[k].ids.peer == pid && Hash(inputs[k].auth.peerToken) == secret
  }

  /** Every peer's token on a board was filed by the request that made its session. */
  lemma {:induction false} TokensComeFromJoining(boards: seq<Board>, inputs: seq<Input>, i: nat, pid: string) returns (k: nat)
    requires Run(boards, inputs) && i < |boards| && pid in boards[i].peerSecrets
    ensures k < i && FiledFor(boards, inputs, k, pid, boards[i].peerSecrets[pid])
    decreases i
  {
    hide Inv, FreshFor, Step, Keyed, NewSession, MayJoin;
    if i == 0 {
      assert false;
    } else {
      var b, x := boards[i - 1], inputs[i - 1];
      RunIsSafe(boards, inputs, i - 1);
      GoodParts(b, x);
      SecretsStep(b, x);
      if pid in b.peerSecrets && boards[i].peerSecrets[pid] == b.peerSecrets[pid] {
        k := TokensComeFromJoining(boards, inputs, i - 1, pid);
      } else {
        k := i - 1;
      }
    }
  }

  lemma SecretsStep(b: Board, x: Input)
    requires Keyed(b) && x.ids.peer !in b.peers && x.ids.task !in b.tasks && forall id :: id in b.tasks ==> b.tasks[id].attempts != []
    ensures var c := Next(b, x);
            forall pid :: pid in c.peerSecrets ==>
              || (pid in b.peerSecrets && c.peerSecrets[pid] == b.peerSecrets[pid])
              || (Founding(x.req.op) && Step(b, x).Ok? && NewSession(b, x) && pid == x.ids.peer && c.peerSecrets[pid] == Hash(x.auth.peerToken))
  {
    hide Keyed, Step, NewSession, MayJoin, ResolveTask, Admitted, TaskAfter, EventAfter, SecretsAfter, Moves, Acceptable, SameStates;
    if Step(b, x).Ok? {
      if Founding(x.req.op) {
        FoundingStates(b, x);
      } else if TaskOp(x.req.op) {
        TaskOfStep(b, x);
        TaskOperation(b, x, ResolveTask(b, x.req.taskId).value);
      } else {
        BoardRequestStates(b, x);
      }
    }
  }

  /** The claim that filed this token for this attempt. */
  ghost predicate ClaimedWith(boards: seq<Board>, inputs: seq<Input>, k: nat, attempt: string, secret: Secret)
    requires |boards| == |inputs| + 1
  {
    && k < |inputs| && inputs[k].req.op == Claim && Step(boards[k], inputs[k]).Ok?
    && inputs[k].req.attemptId == attempt && Hash(inputs[k].auth.executionToken) == secret
  }

  /** Every execution's token on a board was filed by the claim of its attempt. */
  lemma {:induction false} TokensComeFromClaims(boards: seq<Board>, inputs: seq<Input>, i: nat, attempt: string) returns (k: nat)
    requires Run(boards, inputs) && i < |boards| && attempt in boards[i].executionSecrets
    ensures k < i && ClaimedWith(boards, inputs, k, attempt, boards[i].executionSecrets[attempt])
    decreases i
  {
    hide Inv, FreshFor, Step, Keyed;
    if i == 0 {
      assert false;
    } else {
      var b, x := boards[i - 1], inputs[i - 1];
      RunIsSafe(boards, inputs, i - 1);
      GoodParts(b, x);
      ClaimsStep(b, x);
      if attempt in b.executionSecrets && boards[i].executionSecrets[attempt] == b.executionSecrets[attempt] {
        k := TokensComeFromClaims(boards, inputs, i - 1, attempt);
      } else {
        k := i - 1;
      }
    }
  }

  lemma ClaimsStep(b: Board, x: Input)
    requires Keyed(b) && x.ids.peer !in b.peers && x.ids.task !in b.tasks && forall id :: id in b.tasks ==> b.tasks[id].attempts != []
    ensures var c := Next(b, x);
            forall at :: at in c.executionSecrets ==>
              || (at in b.executionSecrets && c.executionSecrets[at] == b.executionSecrets[at])
              || (x.req.op == Claim && Step(b, x).Ok? && at == x.req.attemptId && c.executionSecrets[at] == Hash(x.auth.executionToken))
  {
    hide Keyed, Step, NewSession, MayJoin, ResolveTask, Admitted, TaskAfter, EventAfter, Moves, Timely, TokenFiled;
    if Step(b, x).Ok? {
      if Founding(x.req.op) {
        FoundingStates(b, x);
      } else if TaskOp(x.req.op) {
        TaskOfStep(b, x);
        TaskOperation(b, x, ResolveTask(b, x.req.taskId).value);
      } else {
        BoardRequestStates(b, x);
      }
    }
  }

  /** In every run, an accepted request other than the founding ones presents the very token its peer's
      session was made with. */
  lemma PeersPresentTheirToken(boards: seq<Board>, inputs: seq<Input>, i: nat) returns (k: nat)
    requires Run(boards, inputs) && i < |inputs| && !Founding(inputs[i].req.op) && Step(boards[i], inputs[i]).Ok?
    ensures k < i && Founding(inputs[k].req.op) && Step(boards[k], inputs[k]).Ok? && NewSession(boards[k], inputs[k])
    ensures inputs[k].ids.peer == inputs[i].req.peerId && inputs[k].auth.peerToken == inputs[i].auth.peerToken
  {
    hide Step, Run, NewSession;
    RunLength(boards, inputs);
    AcceptedIsAuthentic(boards[i], inputs[i]);
    k := TokensComeFromJoining(boards, inputs, i, inputs[i].req.peerId);
  }

  lemma RunLength(boards: seq<Board>, inputs: seq<Input>)
    requires Run(boards, inputs)
    ensures |boards| == |inputs| + 1
  {
  }

  /** And every accepted report of an execution presents the very token its attempt was claimed with. */
  lemma HoldersPresentTheirToken(boards: seq<Board>, inputs: seq<Input>, i: nat) returns (k: nat)
    requires Run(boards, inputs) && i < |inputs| && Executing(inputs[i].req.op) && Step(boards[i], inputs[i]).Ok?
    ensures k < i && inputs[k].req.op == Claim && Step(boards[k], inputs[k]).Ok?
    ensures inputs[k].req.attemptId == inputs[i].req.attemptId && inputs[k].auth.executionToken == inputs[i].auth.executionToken
  {
    hide Step, Run, Inv, ResolveTask, TaskDone, Timely, Moves, Admitted;
    RunLength(boards, inputs);
    RunIsSafe(boards, inputs, i);
    RunStep(boards, inputs, i);
    GoodParts(boards[i], inputs[i]);
    TaskOfStep(boards[i], inputs[i]);
    TaskOperation(boards[i], inputs[i], ResolveTask(boards[i], inputs[i].req.taskId).value);
    k := TokensComeFromClaims(boards, inputs, i, inputs[i].req.attemptId);
  }
}
