/** The coordination protocol as a function: what one request makes of a board. */
module PeerStep {
  import opened Basics
  import opened PeerState

  /** A board together with the id of the record the operation created or found. */
  datatype Placed = Placed(board: Board, id: string)

  datatype Outcome = Outcome(board: Board, event: Option<Event>)

  // Who is asking.

  ghost function PeerGuard(b: Board, x: Input): (r: Result<string>)
    ensures r.Ok? ==> r.value == x.req.peerId && r.value in b.peers && b.peers[r.value].state != Revoked
  {
    var id := x.req.peerId;
    if id !in b.peers || b.peers[id].userId != x.auth.userId
       || !TokenMatches(x.auth.peerToken, b.peerSecrets, id) || b.peers[id].state == Revoked then Fail(Forbidden)
    else if x.req.incarnation != b.peers[id].incarnation then Fail(Stale)
    else Ok(id)
  }

  ghost function OwnAgent(b: Board, x: Input): (r: Result<string>)
    ensures r.Ok? ==> r.value == x.req.agentId && r.value in b.agents && b.agents[r.value].peerId == x.req.peerId
    ensures r.Ok? ==> x.req.peerId in b.peers && b.peers[x.req.peerId].state != Revoked
  {
    var pid :- PeerGuard(b, x);
    if x.req.agentId !in b.agents || b.agents[x.req.agentId].peerId != pid then Fail(Forbidden)
    else Ok(x.req.agentId)
  }

  ghost function LeaderGuard(b: Board, x: Input): (r: Result<string>)
    ensures r.Ok? ==> r.value == b.leadership.agentId && r.value in b.agents && x.now < b.leadership.leaseUntil
  {
    var aid :- OwnAgent(b, x);
    if aid != b.leadership.agentId || x.req.term != b.leadership.term
       || !(x.now < b.leadership.leaseUntil) || b.paused then Fail(Stale)
    else Ok(aid)
  }

  function EventOf(b: Board, x: Input, kind: string, to: string, tid: string, thread: string): Option<Event> {
    Some(Event(x.req.id, kind, x.req.agentId, to, tid,
               if tid in b.tasks && b.tasks[tid].attempts != [] then Current(b.tasks[tid]).id else "",
               if thread == "" then x.req.id else thread, x.now))
  }

  // Joining and registering.

  function Sessions(b: Board, userId: string, sessionId: string): set<string> {
    set id | id in b.peers && b.peers[id].userId == userId && b.peers[id].sessionId == sessionId
  }

  function Relabelled(a: Agent, pid: string, sessionName: string): Agent {
    if a.peerId == pid then a.(displayLabel := sessionName + "/" + a.name, ready := false) else a
  }

  function RelabelledAgents(m: map<string, Agent>, pid: string, sessionName: string): map<string, Agent> {
    map id | id in m :: Relabelled(m[id], pid, sessionName)
  }

  function Rejoin(b: Board, pid: string, x: Input): Board
    requires pid in b.peers
  {
    b.(peers := b.peers[pid := b.peers[pid].(incarnation := x.req.incarnation, sessionName := x.req.sessionName,
                                             state := Registered, lastSeen := x.now, leaseUntil := x.now + LEASE)],
       agents := RelabelledAgents(b.agents, pid, x.req.sessionName))
  }

  function AddPeer(b: Board, x: Input): Board {
    var p := Peer(x.ids.peer, x.auth.userId, x.req.sessionId, x.req.sessionName, x.req.incarnation,
                  x.now, x.now + LEASE, Registered);
    b.(peers := b.peers[p.id := p], peerSecrets := b.peerSecrets[p.id := Hash(x.auth.peerToken)])
  }

  ghost function JoinBoard(b: Board, x: Input): (r: Result<Placed>)
    ensures r.Ok? ==> r.value.id in r.value.board.peers && r.value.board.tasks == b.tasks
  {
    var existing := Sessions(b, x.auth.userId, x.req.sessionId);
    if |x.auth.peerToken| < 32 || |x.auth.peerToken| > 256 || !ValidId(x.req.sessionId)
       || !ValidId(x.req.incarnation) || !ValidLabel(x.req.sessionName) then Fail(Invalid)
    else if existing != {} then
      var pid :| pid in existing;
      if b.peers[pid].state == Revoked || !TokenMatches(x.auth.peerToken, b.peerSecrets, pid) then Fail(Conflict)
      else Ok(Placed(Rejoin(b, pid, x), pid))
    else if |b.peers| >= MAX_PEERS then Fail(Capacity)
    else Ok(Placed(AddPeer(b, x), x.ids.peer))
  }

  predicate ValidProfile(r: Request) {
    && ValidName(r.name) && (r.role == "worker" || r.role == "leader") && (r.runner == "claude" || r.runner == "codex")
    && 1 <= r.maxActive <= 16 && |r.projects| <= 32 && |r.capabilities| <= 32
    && (forall i :: 0 <= i < |r.projects| ==> ValidName(r.projects[i]))
    && (forall i :: 0 <= i < |r.capabilities| ==> ValidName(r.capabilities[i]))
  }

  function Endpoints(b: Board, pid: string, name: string): set<string> {
    set id | id in b.agents && b.agents[id].peerId == pid && b.agents[id].name == name
  }

  predicate SameProfile(a: Agent, r: Request) {
    a.role == r.role && a.runner == r.runner && a.projects == r.projects && a.capabilities == r.capabilities && a.maxActive == r.maxActive
  }

  function AddAgent(b: Board, pid: string, r: Request, id: string): Board
    requires pid in b.peers
  {
    b.(agents := b.agents[id := Agent(id, pid, r.name, b.peers[pid].sessionName + "/" + r.name, r.role, r.runner,
                                      r.projects, r.capabilities, r.maxActive, false)])
  }

  ghost function RegisterAgent(b: Board, pid: string, r: Request, id: string): (placed: Result<Placed>)
    requires pid in b.peers
    ensures placed.Ok? ==> placed.value.board.tasks == b.tasks
  {
    var existing := Endpoints(b, pid, r.name);
    if !ValidProfile(r) then Fail(Invalid)
    else if existing != {} then
      var aid :| aid in existing;
      if !SameProfile(b.agents[aid], r) then Fail(Conflict) else Ok(Placed(b, aid))
    else if |b.agents| >= MAX_AGENTS then Fail(Capacity)
    else Ok(Placed(AddAgent(b, pid, r, id), id))
  }

  // Leadership.

  function Restamped(t: Task, leaderId: string, term: int, now: int): Task {
    if Claimable(t.state) then t.(leaderId := leaderId, leaderTerm := term, version := t.version + 1, updatedAt := now) else t
  }

  function RestampedTasks(m: map<string, Task>, leaderId: string, term: int, now: int): map<string, Task> {
    map id | id in m :: Restamped(m[id], leaderId, term, now)
  }

  /** A new term: every task waiting for its worker is re-offered under the new leader. */
  function Appoint(b: Board, aid: string, now: int): Board {
    var l := b.leadership.(agentId := aid, term := b.leadership.term + 1, leaseUntil := now + LEASE);
    b.(leadership := l, tasks := RestampedTasks(b.tasks, aid, l.term, now))
  }

  ghost function Appointed(b: Board, x: Input, aid: string): Outcome {
    var b' := Appoint(b, aid, x.now);
    Outcome(b', EventOf(b', x, "leader.changed", aid, "", ""))
  }

  ghost function InitBoard(b: Board, x: Input): Result<Outcome> {
    if !IsAdmin(x.auth) then Fail(Forbidden)
    else if b.enabled then Fail(Conflict)
    else
      var p :- JoinBoard(b, x);
      InitLeader(p.board, p.id, x)
  }

  /** The founding session's endpoint becomes the first leader. */
  ghost function InitLeader(b: Board, pid: string, x: Input): Result<Outcome>
    requires pid in b.peers
  {
    var a :- RegisterAgent(b, pid, x.req.(role := "leader", maxActive := 1), x.ids.agent);
    Ok(Appointed(a.board.(enabled := true, operatorId := x.auth.userId), x, a.id))
  }

  ghost function JoinRequest(b: Board, x: Input): (r: Result<Outcome>)
    ensures r.Ok? ==> r.value.board.tasks == b.tasks
  {
    var p :- JoinBoard(b, x);
    var b' :- if x.req.name == "" then Ok(p.board) else
                var a :- RegisterAgent(p.board, p.id, x.req, x.ids.agent); Ok(a.board);
    Ok(Outcome(b', EventOf(b', x, "peer.joined", "", "", "")))
  }

  ghost function RegisterRequest(b: Board, x: Input, pid: string): Result<Outcome>
    requires pid in b.peers
  {
    var a :- RegisterAgent(b, pid, x.req, x.ids.agent);
    Ok(Outcome(a.board, EventOf(a.board, x, "agent.registered", "", "", "")))
  }

  // Liveness.

  /** An agent of the reporting peer is ready when the peer is and lists it. */
  function Polled(a: Agent, pid: string, ready: bool, active: seq<string>): Agent {
    if a.peerId == pid then a.(ready := ready && a.id in active) else a
  }

  function PolledAgents(m: map<string, Agent>, pid: string, ready: bool, active: seq<string>): map<string, Agent> {
    map id | id in m :: Polled(m[id], pid, ready, active)
  }

  /** The heartbeat covers the task: its execution is reported running by its own live peer
      incarnation, and its lease has not lapsed. */
  predicate RunsOn(agents: map<string, Agent>, pid: string, incarnation: string, x: Input, t: Task) {
    && t.attempts != [] && Active(t.state)
    && var at := Current(t);
       && at.incarnation == incarnation
       && at.agentId in agents && agents[at.agentId].peerId == pid
       && at.executionId in x.req.running && x.now < at.leaseUntil
  }

  function WithCurrent(t: Task, at: Attempt): (r: Task)
    requires t.attempts != []
  {
    t.(attempts := t.attempts[|t.attempts| - 1 := at])
  }

  function Renewed(t: Task, until: int): Task
    requires t.attempts != []
  {
    WithCurrent(t, Current(t).(leaseUntil := until))
  }

  function Seen(p: Peer, x: Input): Peer {
    p.(lastSeen := x.now, leaseUntil := x.now + LEASE, state := if x.req.ready then Ready else Paused)
  }

  /** The leader's lease is renewed by a heartbeat of its own peer, when it is ready and the term is current. */
  function Reaffirmed(l: Leadership, agents: map<string, Agent>, pid: string, x: Input): Leadership {
    if l.agentId in agents && agents[l.agentId].peerId == pid && agents[l.agentId].ready && x.req.term == l.term
    then l.(leaseUntil := x.now + LEASE) else l
  }

  /** The heartbeat's effect on the peer, its agents, and the leadership it may hold. */
  function BeatPeers(b: Board, pid: string, x: Input): Board
    requires pid in b.peers
  {
    var peers := b.peers[pid := Seen(b.peers[pid], x)];
    var agents := PolledAgents(b.agents, pid, x.req.ready, x.req.activeAgents);
    b.(peers := peers, agents := agents, leadership := Reaffirmed(b.leadership, agents, pid, x))
  }

  function KeptAlive(agents: map<string, Agent>, pid: string, incarnation: string, x: Input, t: Task): Task {
    if RunsOn(agents, pid, incarnation, x, t) then Renewed(t, x.now + LEASE) else t
  }

  function KeptAliveTasks(m: map<string, Task>, agents: map<string, Agent>, pid: string, incarnation: string, x: Input): map<string, Task> {
    map id | id in m :: KeptAlive(agents, pid, incarnation, x, m[id])
  }

  function Beat(b: Board, pid: string, x: Input): Board
    requires pid in b.peers
  {
    var c := BeatPeers(b, pid, x);
    c.(tasks := KeptAliveTasks(c.tasks, c.agents, pid, c.peers[pid].incarnation, x))
  }

  /** The tasks whose current attempt is live on the given peer. */
  function Draining(b: Board, pid: string): set<string> {
    set id | id in b.tasks && b.tasks[id].attempts != [] && Active(b.tasks[id].state)
             && Current(b.tasks[id]).agentId in b.agents && b.agents[Current(b.tasks[id]).agentId].peerId == pid
  }

  function Benched(a: Agent, pid: string): Agent {
    if a.peerId == pid then a.(ready := false) else a
  }

  function BenchedAgents(m: map<string, Agent>, pid: string): map<string, Agent> {
    map id | id in m :: Benched(m[id], pid)
  }

  /** A leader on the leaving peer gives up its lease. */
  function Resigned(l: Leadership, agents: map<string, Agent>, pid: string, now: int): Leadership {
    if l.agentId in agents && agents[l.agentId].peerId == pid then l.(leaseUntil := now) else l
  }

  function Revoke(b: Board, pid: string, now: int): Board
    requires pid in b.peers
  {
    var agents := BenchedAgents(b.agents, pid);
    b.(peers := b.peers[pid := b.peers[pid].(state := Revoked, leaseUntil := now)],
       peerSecrets := b.peerSecrets - {pid},
       agents := agents,
       leadership := Resigned(b.leadership, agents, pid, now))
  }

  ghost function LeaveRequest(b: Board, x: Input, pid: string): Result<Outcome>
    requires pid in b.peers
  {
    if Draining(b, pid) != {} then Fail(Conflict)
    else var b' := Revoke(b, pid, x.now); Ok(Outcome(b', EventOf(b', x, "peer.left", "", "", "")))
  }

  /** The candidate a handover names, once the request is entitled to name one. */
  ghost function HandoverTarget(b: Board, x: Input): (r: Result<string>)
    ensures r.Ok? ==> r.value in b.agents
  {
    if !IsAdmin(x.auth) && LeaderGuard(b, x).Fail? then Fail(LeaderGuard(b, x).code)
    else
      var aid :- ResolveAgent(b, x.req.target);
      if b.agents[aid].role != "leader" || b.agents[aid].peerId !in b.peers
         || b.peers[b.agents[aid].peerId].state == Revoked then Fail(Invalid)
      else Ok(aid)
  }

  ghost function HandoverRequest(b: Board, x: Input): Result<Outcome> {
    var aid :- HandoverTarget(b, x);
    Ok(Appointed(b, x, aid))
  }

  /** The approved candidates, each once, in the order given. */
  ghost function StandbyIds(b: Board, refs: seq<string>, ids: seq<string>): Result<seq<string>>
    decreases |refs|
  {
    if refs == [] then Ok(ids)
    else
      var aid :- ResolveAgent(b, refs[0]);
      if b.agents[aid].role != "leader" then Fail(Invalid)
      else StandbyIds(b, refs[1..], if aid in ids then ids else ids + [aid])
  }

  ghost function StandbysRequest(b: Board, x: Input): Result<Outcome> {
    if !IsAdmin(x.auth) then Fail(Forbidden)
    else if |x.req.standbys| > 10 then Fail(Invalid)
    else
      var ids :- StandbyIds(b, x.req.standbys, []);
      var b' := b.(leadership := b.leadership.(standbys := ids, autoFailover := x.req.autoFailover));
      Ok(Outcome(b', EventOf(b', x, "leader.standbys", "", "", "")))
  }

  predicate ReadyStandby(b: Board, id: string, now: int) {
    && id in b.agents && b.agents[id].ready
    && b.agents[id].peerId in b.peers && b.peers[b.agents[id].peerId].state == Ready && now < b.peers[b.agents[id].peerId].leaseUntil
  }

  function FirstReady(b: Board, ids: seq<string>, now: int): Option<string> {
    if ids == [] then None
    else if ReadyStandby(b, ids[0], now) then Some(ids[0])
    else FirstReady(b, ids[1..], now)
  }

  ghost function AcquireRequest(b: Board, x: Input): Result<Outcome> {
    var aid :- OwnAgent(b, x);
    if !b.leadership.autoFailover || x.now < b.leadership.leaseUntil then Fail(Conflict)
    else if FirstReady(b, b.leadership.standbys, x.now) != Some(aid) then Fail(Forbidden)
    else Ok(Appointed(b, x, aid))
  }

  ghost function PauseRequest(b: Board, x: Input): Result<Outcome> {
    if !IsAdmin(x.auth) then Fail(Forbidden)
    else var b' := b.(paused := x.req.paused); Ok(Outcome(b', EventOf(b', x, "board.paused", "", "", "")))
  }

  ghost function SendRequest(b: Board, x: Input): Result<Outcome> {
    var aid :- OwnAgent(b, x);
    var target :- ResolveAgent(b, x.req.target);
    if !ValidText(x.req.text) then Fail(Invalid) else
    var about :- SendAbout(b, x, aid);
    var objective := x.req.op == Objective;
    if objective && target != b.leadership.agentId then Fail(Invalid)
    else Ok(Outcome(b, EventOf(b, x, if objective then "objective" else "message", target, about.0, about.1)))
  }

  /** The task and thread a message is about; neither when it names no task. */
  ghost function SendAbout(b: Board, x: Input, aid: string): Result<(string, string)> {
    if x.req.taskId == "" then Ok(("", ""))
    else
      var tid :- SendTask(b, x, aid);
      Ok((tid, b.tasks[tid].threadId))
  }

  /** The task a message refers to, when the sender may speak about it. */
  ghost function SendTask(b: Board, x: Input, aid: string): (r: Result<string>)
    ensures r.Ok? ==> r.value in b.tasks
  {
    var tid :- ResolveTask(b, x.req.taskId);
    if b.tasks[tid].agentId != aid && b.leadership.agentId != aid then Fail(Forbidden)
    else if x.req.attemptId != "" && (b.tasks[tid].attempts == [] || Current(b.tasks[tid]).id != x.req.attemptId) then Fail(Stale)
    else Ok(tid)
  }

  // Assigning.

  function Pending(b: Board): set<string> {
    set id | id in b.tasks && !Terminal(b.tasks[id].state)
  }

  ghost function DependencyIds(b: Board, refs: seq<string>, ids: seq<string>): Result<seq<string>>
    decreases |refs|
  {
    if refs == [] then Ok(ids)
    else
      var tid :- ResolveTask(b, refs[0]);
      DependencyIds(b, refs[1..], if tid in ids then ids else ids + [tid])
  }

  predicate AllCompleted(b: Board, ids: seq<string>) {
    forall i :: 0 <= i < |ids| ==> ids[i] in b.tasks && b.tasks[ids[i]].state == Completed
  }

  predicate Suits(b: Board, target: string, runner: string, project: string)
    requires target in b.agents
  {
    && b.agents[target].role == "worker"
    && b.agents[target].runner == runner && project in b.agents[target].projects
  }

  predicate ValidAssignment(r: Request) {
    && ValidText(r.text) && ValidText(r.criteria) && ValidName(r.project) && |r.base| <= 256
    && 30 <= r.maxRuntimeSeconds <= 86400 && |r.dependencies| <= 100
  }

  function NewAttempt(id: string, number: int, agentId: string, state: TaskState): Attempt {
    Attempt(id, number, agentId, "", "", state, 0, "", None, None, "", "")
  }

  function NewTask(b: Board, x: Input, leader: string, target: string, deps: seq<string>): Task {
    var state := if AllCompleted(b, deps) then Offered else Queued;
    Task(x.ids.task, b.nextTask + 1, x.req.id, x.req.text, x.req.criteria, x.req.project, x.req.base, x.req.runner,
         target, leader, b.leadership.term, 1, state, deps, x.req.maxRuntimeSeconds, x.now, x.now,
         [NewAttempt(x.ids.attempt, 1, target, state)])
  }

  function AddTask(b: Board, t: Task): Board {
    b.(nextTask := b.nextTask + 1, tasks := b.tasks[t.id := t])
  }

  ghost function AssignRequest(b: Board, x: Input): Result<Outcome> {
    var leader :- LeaderGuard(b, x);
    var target :- ResolveAgent(b, x.req.target);
    if !Suits(b, target, x.req.runner, x.req.project) then Fail(Invalid)
    else if !ValidAssignment(x.req) then Fail(Invalid)
    else if |Pending(b)| >= MAX_PENDING then Fail(Capacity)
    else
      var deps :- DependencyIds(b, x.req.dependencies, []);
      var t := NewTask(b, x, leader, target, deps);
      var b' := AddTask(b, t);
      Ok(Outcome(b', EventOf(b', x, "task.assigned", target, t.id, t.threadId)))
  }

  // Task operations.

  function PutTask(b: Board, tid: string, t: Task, secrets: map<string, Secret>): Board {
    b.(tasks := b.tasks[tid := t], executionSecrets := secrets)
  }

  /** The two boards hold the same tasks, and agree on all but one. */
  ghost predicate OnlyTask(b: Board, c: Board, tid: string) {
    c.tasks.Keys == b.tasks.Keys && forall id :: id in b.tasks && id != tid ==> c.tasks[id] == b.tasks[id]
  }

  /** A task moved to a state: its current attempt moves with it. */
  function Moved(t: Task, state: TaskState, detail: string, now: int): Task
    requires t.attempts != []
  {
    var at := Current(t);
    WithCurrent(t, at.(state := state, detail := detail,
                       endedAt := if Terminal(state) || state == ResultSubmitted then Some(now) else at.endedAt))
      .(state := state, version := t.version + 1, updatedAt := now)
  }

  /** The common last step of a task operation; an oversized detail refuses the whole request. */
  ghost function Change(b: Board, x: Input, tid: string, t: Task, secrets: map<string, Secret>,
                        state: TaskState, kind: string, to: string, detail: string): (r: Result<Outcome>)
    requires t.attempts != [] && tid in b.tasks
    ensures r.Ok? ==> OnlyTask(b, r.value.board, tid)
  {
    if |detail| > MAX_TEXT then Fail(Invalid)
    else
      var b' := PutTask(b, tid, Moved(t, state, detail, x.now), secrets);
      Ok(Outcome(b', EventOf(b', x, kind, to, tid, t.threadId)))
  }

  function ActiveTasks(b: Board, aid: string): set<string> {
    set id | id in b.tasks && b.tasks[id].agentId == aid && Active(b.tasks[id].state)
  }

  function ClaimedTask(t: Task, x: Input): Task
    requires t.attempts != []
  {
    WithCurrent(t, Current(t).(executionId := x.req.executionId, incarnation := x.req.incarnation, leaseUntil := x.now + LEASE))
  }

  /** Everything a claim is checked for, in the order the checks are made. */
  ghost function ClaimGuard(b: Board, x: Input, tid: string): Result<string>
    requires tid in b.tasks && b.tasks[tid].attempts != []
  {
    var t := b.tasks[tid];
    var aid :- OwnAgent(b, x);
    var a, p := b.agents[aid], b.peers[x.req.peerId];
    if t.agentId != aid || x.req.attemptId != Current(t).id then Fail(Forbidden)
    else if b.paused || !a.ready || p.state != Ready || !(x.now < p.leaseUntil) then Fail(Unavailable)
    else if t.version != x.req.taskVersion || !Claimable(t.state) then Fail(Conflict)
    else if t.leaderTerm != b.leadership.term || !(x.now < b.leadership.leaseUntil) then Fail(Stale)
    else if !AllCompleted(b, t.dependencies) then Fail(Unavailable)
    else if |ActiveTasks(b, aid)| >= a.maxActive then Fail(Capacity)
    else if !ValidId(x.req.executionId) || |x.auth.executionToken| < 32 || |x.auth.executionToken| > 256 then Fail(Invalid)
    else Ok(aid)
  }

  ghost function ClaimRequest(b: Board, x: Input, tid: string): (r: Result<Outcome>)
    requires tid in b.tasks && b.tasks[tid].attempts != []
    ensures r.Ok? ==> OnlyTask(b, r.value.board, tid)
  {
    var t := b.tasks[tid];
    var _ :- ClaimGuard(b, x, tid);
    Change(b, x, tid, ClaimedTask(t, x), b.executionSecrets[Current(t).id := Hash(x.auth.executionToken)],
           Claimed, "task.claimed", b.leadership.agentId, "Assignment claimed")
  }

  ghost function ReviewRequest(b: Board, x: Input, tid: string): (r: Result<Outcome>)
    requires tid in b.tasks && b.tasks[tid].attempts != []
    ensures r.Ok? ==> OnlyTask(b, r.value.board, tid)
  {
    var t := b.tasks[tid];
    var _ :- LeaderGuard(b, x);
    if t.state != ResultSubmitted || t.version != x.req.taskVersion then Fail(Conflict)
    else Change(b, x, tid, t, b.executionSecrets, if x.req.ready then Completed else Failed,
                "task.reviewed", t.agentId, x.req.text)
  }

  ghost function CancelRequest(b: Board, x: Input, tid: string): (r: Result<Outcome>)
    requires tid in b.tasks && b.tasks[tid].attempts != []
    ensures r.Ok? ==> OnlyTask(b, r.value.board, tid)
  {
    var t := b.tasks[tid];
    if LeaderGuard(b, x).Fail? && !IsAdmin(x.auth) then Fail(LeaderGuard(b, x).code)
    else if Terminal(t.state) then Fail(Conflict)
    else Change(b, x, tid, t, b.executionSecrets,
                if Claimable(t.state) || t.state == ResultSubmitted then Cancelled else CancelRequested,
                "task.cancel", t.agentId, x.req.text)
  }

  const RESOLVED_NOTE := "Operator confirmed execution stopped: "

  ghost function ResolveRequest(b: Board, x: Input, tid: string): (r: Result<Outcome>)
    requires tid in b.tasks && b.tasks[tid].attempts != []
    ensures r.Ok? ==> OnlyTask(b, r.value.board, tid)
  {
    var t := b.tasks[tid];
    if !IsAdmin(x.auth) || !x.req.confirmStopped then Fail(Forbidden)
    else if !Active(t.state) then Fail(Conflict)
    else Change(b, x, tid, t, b.executionSecrets - {Current(t).id}, Failed,
                "task.resolved", b.leadership.agentId, RESOLVED_NOTE + x.req.text)
  }

  /** A task re-offered to a worker under a new attempt. */
  function Reoffered(t: Task, l: Leadership, target: string, attemptId: string): Task {
    t.(agentId := target, leaderId := l.agentId, leaderTerm := l.term,
       attempts := t.attempts + [NewAttempt(attemptId, |t.attempts| + 1, target, Offered)])
  }

  /** The worker a retry may be given to. */
  ghost function RetryGuard(b: Board, x: Input, tid: string): (r: Result<string>)
    requires tid in b.tasks && b.tasks[tid].attempts != []
    ensures r.Ok? ==> r.value in b.agents
  {
    var t := b.tasks[tid];
    var _ :- LeaderGuard(b, x);
    if !Terminal(t.state) || t.state == Completed then Fail(Conflict) else
    var target :- ResolveAgent(b, x.req.target);
    if !Suits(b, target, t.runner, t.project) then Fail(Invalid)
    else if |t.attempts| >= MAX_ATTEMPTS then Fail(Capacity)
    else Ok(target)
  }

  ghost function RetryRequest(b: Board, x: Input, tid: string): (r: Result<Outcome>)
    requires tid in b.tasks && b.tasks[tid].attempts != []
    ensures r.Ok? ==> OnlyTask(b, r.value.board, tid)
  {
    var t := b.tasks[tid];
    var target :- RetryGuard(b, x, tid);
    Change(b, x, tid, Reoffered(t, b.leadership, target, x.ids.attempt), b.executionSecrets - {Current(t).id},
           Offered, "task.assigned", target, "Explicit retry of " + TaskLabel(t.number))
  }

  /** The credential of the execution that holds the current attempt. */
  ghost function ExecutionGuard(b: Board, x: Input, tid: string): (r: Result<string>)
    requires tid in b.tasks && b.tasks[tid].attempts != []
    ensures r.Ok? ==> Current(b.tasks[tid]).id == x.req.attemptId && x.req.attemptId in b.executionSecrets
  {
    var at := Current(b.tasks[tid]);
    var aid :- OwnAgent(b, x);
    if at.id != x.req.attemptId || at.agentId != aid || at.executionId != x.req.executionId
       || !TokenMatches(x.auth.executionToken, b.executionSecrets, at.id) then Fail(Forbidden)
    else if at.incarnation != x.req.incarnation && x.req.op != Adopt then Fail(Stale)
    else Ok(aid)
  }

  function ProgressState(name: string, state: TaskState): Option<TaskState> {
    if name == "running" || (name == "" && state == Running) then Some(Running)
    else if name == "blocked" || (name == "" && state == Blocked) then Some(Blocked)
    else if name == "waiting_local_input" || (name == "" && state == WaitingLocalInput) then Some(WaitingLocalInput)
    else None
  }

  function Adopted(t: Task, x: Input): Task
    requires t.attempts != []
  {
    WithCurrent(t, Current(t).(incarnation := x.req.incarnation, leaseUntil := x.now + LEASE))
  }

  function StartedTask(t: Task, x: Input): Task
    requires t.attempts != []
  {
    WithCurrent(t, Current(t).(paneId := x.req.paneId, startedAt := Some(x.now)))
  }

  function WithResult(t: Task, x: Input): Task
    requires t.attempts != []
  {
    WithCurrent(t, Current(t).(result := x.req.result.raw))
  }

  ghost function StartRequest(b: Board, x: Input, tid: string): (r: Result<Outcome>)
    requires tid in b.tasks && b.tasks[tid].attempts != []
    ensures r.Ok? ==> OnlyTask(b, r.value.board, tid)
  {
    var t := b.tasks[tid];
    if t.state != Claimed || !(x.now < Current(t).leaseUntil) || !ValidId(x.req.paneId) then Fail(Conflict)
    else Change(b, x, tid, StartedTask(t, x), b.executionSecrets, Running, "task.started", b.leadership.agentId, "Task agent started")
  }

  ghost function ProgressRequest(b: Board, x: Input, tid: string): (r: Result<Outcome>)
    requires tid in b.tasks && b.tasks[tid].attempts != []
    ensures r.Ok? ==> OnlyTask(b, r.value.board, tid)
  {
    var t := b.tasks[tid];
    if t.state == CancelRequested then Fail(Conflict)
    else if !(x.now < Current(t).leaseUntil) then Fail(Stale)
    else if ProgressState(x.req.name, t.state).None? then Fail(Invalid)
    else if !ValidText(x.req.text) then Fail(Invalid)
    else Change(b, x, tid, t, b.executionSecrets, ProgressState(x.req.name, t.state).value, "task.progress",
                b.leadership.agentId, x.req.text)
  }

  ghost function SubmitRequest(b: Board, x: Input, tid: string): (r: Result<Outcome>)
    requires tid in b.tasks && b.tasks[tid].attempts != []
    ensures r.Ok? ==> OnlyTask(b, r.value.board, tid)
  {
    var t := b.tasks[tid];
    if t.state == CancelRequested || !(x.now < Current(t).leaseUntil) then Fail(Stale)
    else if |x.req.result.raw| == 0 || |x.req.result.raw| > MAX_TEXT then Fail(Invalid)
    else if x.req.result.summary.None? || !ValidText(x.req.result.summary.value) then Fail(Invalid)
    else Change(b, x, tid, WithResult(t, x), b.executionSecrets, ResultSubmitted, "task.result", b.leadership.agentId,
                x.req.result.summary.value)
  }

  /** What the holder of the execution may report about it. */
  ghost function ExecutionRequest(b: Board, x: Input, tid: string): (r: Result<Outcome>)
    requires tid in b.tasks && b.tasks[tid].attempts != []
    ensures r.Ok? ==> OnlyTask(b, r.value.board, tid)
  {
    var t := b.tasks[tid];
    var es, leader := b.executionSecrets, b.leadership.agentId;
    var _ :- ExecutionGuard(b, x, tid);
    if Terminal(t.state) || t.state == ResultSubmitted then Fail(Conflict) else
    match x.req.op
    case Adopt =>
      if !Active(t.state) then Fail(Conflict)
      else Ok(Outcome(PutTask(b, tid, Adopted(t, x), es), None))
    case Start => StartRequest(b, x, tid)
    case Progress => ProgressRequest(b, x, tid)
    case SubmitResult => SubmitRequest(b, x, tid)
    case ReportFailure =>
      if !ValidText(x.req.text) then Fail(Invalid)
      else Change(b, x, tid, t, es, Failed, "task.failed", leader, x.req.text)
    case ConfirmCancelled =>
      if t.state != CancelRequested then Fail(Conflict)
      else Change(b, x, tid, t, es, Cancelled, "task.cancelled", leader, "Local runner confirmed stopped")
    case Uncertain =>
      Change(b, x, tid, t, es, NeedsReconciliation, "task.uncertain", leader, x.req.text)
    case _ => Fail(Invalid)
  }

  ghost function TaskRequest(b: Board, x: Input): (r: Result<Outcome>)
    ensures r.Ok? ==> ResolveTask(b, x.req.taskId).Ok? && OnlyTask(b, r.value.board, ResolveTask(b, x.req.taskId).value)
  {
    var tid :- ResolveTask(b, x.req.taskId);
    if b.tasks[tid].attempts == [] then Fail(Conflict)
    else match x.req.op
      case Claim => ClaimRequest(b, x, tid)
      case Review => ReviewRequest(b, x, tid)
      case Cancel => CancelRequest(b, x, tid)
      case Resolve => ResolveRequest(b, x, tid)
      case Retry => RetryRequest(b, x, tid)
      case _ => ExecutionRequest(b, x, tid)
  }

  ghost function PeerRequest(b: Board, x: Input, pid: string): Result<Outcome>
    requires pid in b.peers
  {
    match x.req.op
    case Register => RegisterRequest(b, x, pid)
    case Heartbeat => Ok(Outcome(Beat(b, pid, x), None))
    case Leave => LeaveRequest(b, x, pid)
    case Handover => HandoverRequest(b, x)
    case Standbys => StandbysRequest(b, x)
    case Acquire => AcquireRequest(b, x)
    case BoardPause => PauseRequest(b, x)
    case Send => SendRequest(b, x)
    case Objective => SendRequest(b, x)
    case Assign => AssignRequest(b, x)
    case UnknownOp(_) => Fail(Invalid)
    case _ => TaskRequest(b, x)
  }

  ghost function Operate(b: Board, x: Input): Result<Outcome> {
    if x.req.op == Init then InitBoard(b, x)
    else if !b.enabled then Fail(NotFound)
    else if x.req.op == Join then JoinRequest(b, x)
    else
      var pid :- PeerGuard(b, x);
      PeerRequest(b, x, pid)
  }

  /** One request: the board it leaves and the event it records, or the code it is refused with. */
  ghost function Step(b: Board, x: Input): Result<Outcome> {
    if x.req.schemaVersion != VERSION then Fail(Version)
    else if !ValidId(x.req.id) then Fail(Invalid)
    else if x.auth.userId == "" || x.auth.workspaceRole == "" || x.auth.workspaceRole == "observer" then Fail(Forbidden)
    else
      var out :- Operate(b, x);
      Ok(out.(board := out.board.(serverTime := x.now)))
  }
}
