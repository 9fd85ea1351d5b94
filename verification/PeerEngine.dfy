/** The reducer as the program runs it: a transition that mutates the records of a copied store
    in place, shown to leave exactly the board `PeerStep.Step` says. */
module PeerEngine {
  import opened Basics
  import opened Sequences
  import opened PeerState
  import opened PeerStep
  import opened PeerInvariant
  import opened PeerStore

  // The lookups by session, endpoint and label have at most one answer.

  ghost predicate UniqueSessions(b: Board) {
    forall p, q | p in b.peers && q in b.peers && p != q ::
      b.peers[p].userId != b.peers[q].userId || b.peers[p].sessionId != b.peers[q].sessionId
  }

  ghost predicate UniqueEndpoints(b: Board) {
    forall a, c | a in b.agents && c in b.agents && a != c ::
      b.agents[a].peerId != b.agents[c].peerId || b.agents[a].name != b.agents[c].name
  }

  ghost predicate UniqueNumbers(b: Board) {
    forall s, t | s in b.tasks && t in b.tasks && s != t :: b.tasks[s].number != b.tasks[t].number
  }

  lemma KeyedIsUnique(b: Board)
    requires Keyed(b)
    ensures UniqueSessions(b) && UniqueEndpoints(b) && UniqueNumbers(b)
  {
  }

  lemma {:induction false} TwoMembers<T>(s: set<T>, x: T, y: T)
    requires x in s && y in s && x != y
    ensures |s| >= 2
  {
    assert |s| == |s - {x}| + 1;
    assert y in s - {x};
  }

  lemma ActiveTasksAreTasks(b: Board, aid: string)
    ensures ActiveTasks(b, aid) <= b.tasks.Keys
    ensures forall id :: id in b.tasks ==> (id in ActiveTasks(b, aid) <==> b.tasks[id].agentId == aid && Active(b.tasks[id].state))
  {
  }

  lemma PendingAreTasks(b: Board)
    ensures Pending(b) <= b.tasks.Keys
    ensures forall id :: id in b.tasks ==> (id in Pending(b) <==> !Terminal(b.tasks[id].state))
  {
  }

  /** How a method's outcome agrees with the specification of the operation. */
  ghost predicate Outcomes(r: Result<Outcome>, err: Option<Code>, board: Board, event: Option<Event>) {
    r == if err.Some? then Fail(err.value) else Ok(Outcome(board, event))
  }

  class Transition {
    const s: Store
    const x: Input
    var event: Option<Event>

    constructor (s: Store, x: Input)
      requires s.Valid()
      ensures InOrder()
      ensures this.s == s && this.x == x && event == None
    {
      this.s, this.x := s, x;
      event := None;
    }

    /** The store is in order, and the transition is no part of it. */
    ghost predicate InOrder()
      reads this, s, s.Repr
    {
      s.Valid() && this !in s.Repr
    }

    /** Records the operation's event; the attempt is read after the operation's changes. */
    method Emit(kind: string, to: string, tid: string, thread: string)
      requires InOrder()
      modifies `event
      ensures InOrder() && s.View() == old(s.View())
      ensures event == EventOf(s.View(), x, kind, to, tid, thread)
    {
      s.Fields();
      var attempt := "";
      if tid in s.tasks.m {
        var t := s.TaskAt(tid);
        if |t.attempts| > 0 {
          attempt := t.attempts[|t.attempts| - 1].id;
        }
      }
      event := Some(Event(x.req.id, kind, x.req.agentId, to, tid, attempt, if thread == "" then x.req.id else thread, x.now));
    }

    // Lookups.

    method FindAgent(ref: string) returns (r: Result<string>)
      requires InOrder()
      ensures r == ResolveAgent(s.View(), ref)
    {
      hide Store.View, Store.Valid;
      s.Fields();
      ghost var b := s.View();
      if ref in s.agents.m {
        return Ok(ref);
      }
      var found: Option<string> := None;
      var todo := s.agents.m.Keys;
      while todo != {}
        invariant todo <= s.agents.m.Keys
        invariant found.None? ==> AgentsLabelled(b, ref) <= todo
        invariant found.Some? ==> found.value !in todo && AgentsLabelled(b, ref) - todo == {found.value}
        decreases |todo|
      {
        var id :| id in todo;
        todo := todo - {id};
        if s.AgentAt(id).displayLabel == ref {
          if found.Some? {
            TwoMembers(AgentsLabelled(b, ref), found.value, id);
            return Fail(Ambiguous);
          }
          found := Some(id);
        }
      }
      if found.None? {
        return Fail(NotFound);
      }
      assert AgentsLabelled(b, ref) == {found.value};
      return Ok(found.value);
    }

    method FindTask(ref: string) returns (r: Result<string>)
      requires InOrder()
      ensures UniqueNumbers(s.View()) ==> r == ResolveTask(s.View(), ref)
      ensures r.Ok? ==> r.value in s.View().tasks
    {
      hide Store.View, Store.Valid;
      s.Fields();
      ghost var b := s.View();
      if ref in s.tasks.m {
        return Ok(ref);
      }
      var todo := s.tasks.m.Keys;
      while todo != {}
        invariant todo <= s.tasks.m.Keys
        invariant TasksLabelled(b, ref) <= todo
        decreases |todo|
      {
        var id :| id in todo;
        todo := todo - {id};
        if MatchesLabel(s.TaskAt(id).number, ref) {
          if UniqueNumbers(b) {
            forall other | other in TasksLabelled(b, ref) ensures other == id {
              LabelsDistinct(b.tasks[other].number, b.tasks[id].number, ref);
            }
            assert TasksLabelled(b, ref) == {id};
          }
          return Ok(id);
        }
      }
      return Fail(NotFound);
    }

    // Who is asking.

    method CheckPeer() returns (r: Result<string>)
      requires InOrder()
      ensures r == PeerGuard(s.View(), x)
    {
      hide Store.View, Store.Valid;
      s.Fields();
      var id := x.req.peerId;
      if id !in s.peers.m {
        return Fail(Forbidden);
      }
      var p := s.PeerAt(id);
      if p.userId != x.auth.userId || !TokenMatches(x.auth.peerToken, s.peerSecrets.m, id) || p.state == Revoked {
        return Fail(Forbidden);
      }
      if x.req.incarnation != p.incarnation {
        return Fail(Stale);
      }
      return Ok(id);
    }

    method CheckOwnAgent() returns (r: Result<string>)
      requires InOrder()
      ensures r == OwnAgent(s.View(), x)
    {
      hide Store.View, Store.Valid;
      s.Fields();
      var p := CheckPeer();
      if p.Fail? {
        return Fail(p.code);
      }
      if x.req.agentId !in s.agents.m || s.AgentAt(x.req.agentId).peerId != p.value {
        return Fail(Forbidden);
      }
      return Ok(x.req.agentId);
    }

    method CheckLeader() returns (r: Result<string>)
      requires InOrder()
      ensures r == LeaderGuard(s.View(), x)
    {
      hide Store.View, Store.Valid;
      s.Fields();
      var a := CheckOwnAgent();
      if a.Fail? {
        return Fail(a.code);
      }
      var l := s.LeadershipNow();
      if a.value != l.agentId || x.req.term != l.term || !(x.now < l.leaseUntil) || s.paused {
        return Fail(Stale);
      }
      return Ok(a.value);
    }

    method CheckExecution(tid: string) returns (r: Result<string>)
      requires InOrder()
      requires tid in s.View().tasks && s.View().tasks[tid].attempts != []
      ensures r == ExecutionGuard(s.View(), x, tid)
    {
      hide Store.View, Store.Valid;
      s.Fields();
      var t := s.TaskAt(tid);
      var a := CheckOwnAgent();
      if a.Fail? {
        return Fail(a.code);
      }
      var at := t.attempts[|t.attempts| - 1];
      if at.id != x.req.attemptId || at.agentId != a.value || at.executionId != x.req.executionId
         || !TokenMatches(x.auth.executionToken, s.executionSecrets.m, at.id) {
        return Fail(Forbidden);
      }
      if at.incarnation != x.req.incarnation && x.req.op != Adopt {
        return Fail(Stale);
      }
      return Ok(a.value);
    }

    // Joining and registering.

    /** The session's registration, if it has one. */
    method FindSession() returns (found: Option<string>)
      requires InOrder()
      ensures found.None? <==> Sessions(s.View(), x.auth.userId, x.req.sessionId) == {}
      ensures found.Some? ==> found.value in Sessions(s.View(), x.auth.userId, x.req.sessionId)
      ensures found.Some? && UniqueSessions(s.View()) ==> Sessions(s.View(), x.auth.userId, x.req.sessionId) == {found.value}
    {
      hide Store.View, Store.Valid;
      s.Fields();
      ghost var b := s.View();
      var todo := s.peers.m.Keys;
      while todo != {}
        invariant todo <= s.peers.m.Keys
        invariant Sessions(b, x.auth.userId, x.req.sessionId) <= todo
        decreases |todo|
      {
        var id :| id in todo;
        todo := todo - {id};
        var p := s.PeerAt(id);
        if p.userId == x.auth.userId && p.sessionId == x.req.sessionId {
          assert id in Sessions(b, x.auth.userId, x.req.sessionId);
          assert UniqueSessions(b) ==> Sessions(b, x.auth.userId, x.req.sessionId) == {id};
          return Some(id);
        }
      }
      return None;
    }

    /** A known session comes back: new incarnation and label, agents relabelled and not ready. */
    method RejoinSession(pid: string)
      requires InOrder()
      requires pid in s.peers.m
      modifies s.Repr
      ensures InOrder() && fresh(s.Repr - old(s.Repr))
      ensures pid in old(s.View()).peers && s.View() == Rejoin(old(s.View()), pid, x)
      ensures pid in s.View().peers
    {
      s.Fields();
      hide Store.View, Store.Valid, Mapped, RelabelledAgents;
      var p := s.PeerAt(pid);
      s.SetPeer(pid, p.(incarnation := x.req.incarnation, sessionName := x.req.sessionName, state := Registered,
                        lastSeen := x.now, leaseUntil := x.now + LEASE));
      s.Fields();
      var name := x.req.sessionName;
      var f := (a: Agent) => Relabelled(a, pid, name);
      MapRelabelled(s.View().agents, f, pid, name);
      s.ForEachAgent(f);
    }

    method CreateSession()
      requires InOrder()
      modifies s.Repr
      ensures InOrder() && fresh(s.Repr - old(s.Repr))
      ensures s.View() == AddPeer(old(s.View()), x)
      ensures x.ids.peer in s.View().peers
    {
      hide Store.View, Store.Valid;
      s.Fields();
      var id := x.ids.peer;
      s.AddPeer(id, Peer(id, x.auth.userId, x.req.sessionId, x.req.sessionName, x.req.incarnation,
                         x.now, x.now + LEASE, Registered));
      s.Fields();
      s.SetPeerSecrets(s.peerSecrets.m[id := Hash(x.auth.peerToken)]);
      s.Fields();
    }

    method JoinSession() returns (r: Result<string>)
      requires InOrder()
      modifies s.Repr
      ensures InOrder() && fresh(s.Repr - old(s.Repr))
      ensures r.Ok? ==> r.value in s.View().peers
      ensures UniqueSessions(old(s.View())) ==>
                match JoinBoard(old(s.View()), x)
                case Ok(p) => r == Ok(p.id) && s.View() == p.board
                case Fail(c) => r == Fail(c)
    {
      hide Store.View, Store.Valid, UniqueSessions, ValidId, ValidLabel, Rejoin, AddPeer;
      s.Fields();
      if |x.auth.peerToken| < 32 || |x.auth.peerToken| > 256 || !ValidId(x.req.sessionId)
         || !ValidId(x.req.incarnation) || !ValidLabel(x.req.sessionName) {
        return Fail(Invalid);
      }
      var found := FindSession();
      if found.Some? {
        var pid := found.value;
        assert pid in Sessions(s.View(), x.auth.userId, x.req.sessionId);
        if s.PeerAt(pid).state == Revoked || !TokenMatches(x.auth.peerToken, s.peerSecrets.m, pid) {
          return Fail(Conflict);
        }
        RejoinSession(pid);
        return Ok(pid);
      }
      assert |s.peers.m| == |s.peers.m.Keys| && |s.View().peers| == |s.View().peers.Keys|;
      if |s.peers.m| >= MAX_PEERS {
        return Fail(Capacity);
      }
      CreateSession();
      return Ok(x.ids.peer);
    }

    method FindEndpoint(pid: string, name: string) returns (found: Option<string>)
      requires InOrder()
      ensures found.None? <==> Endpoints(s.View(), pid, name) == {}
      ensures found.Some? ==> found.value in Endpoints(s.View(), pid, name)
      ensures found.Some? && UniqueEndpoints(s.View()) ==> Endpoints(s.View(), pid, name) == {found.value}
    {
      hide Store.View, Store.Valid;
      s.Fields();
      ghost var b := s.View();
      var todo := s.agents.m.Keys;
      while todo != {}
        invariant todo <= s.agents.m.Keys
        invariant Endpoints(b, pid, name) <= todo
        decreases |todo|
      {
        var id :| id in todo;
        todo := todo - {id};
        var a := s.AgentAt(id);
        if a.peerId == pid && a.name == name {
          assert id in Endpoints(b, pid, name);
          assert UniqueEndpoints(b) ==> Endpoints(b, pid, name) == {id};
          return Some(id);
        }
      }
      return None;
    }

    method RegisterEndpoint(pid: string, req: Request) returns (r: Result<string>)
      requires InOrder()
      requires pid in s.View().peers
      modifies s.Repr
      ensures InOrder() && fresh(s.Repr - old(s.Repr))
      ensures UniqueEndpoints(old(s.View())) ==>
                match RegisterAgent(old(s.View()), pid, req, x.ids.agent)
                case Ok(p) => r == Ok(p.id) && s.View() == p.board
                case Fail(c) => r == Fail(c) && s.View() == old(s.View())
    {
      hide Store.View, Store.Valid, UniqueEndpoints, ValidProfile, SameProfile;
      s.Fields();
      if !ValidProfile(req) {
        return Fail(Invalid);
      }
      var found := FindEndpoint(pid, req.name);
      if found.Some? {
        assert found.value in Endpoints(s.View(), pid, req.name);
        if !SameProfile(s.AgentAt(found.value), req) {
          return Fail(Conflict);
        }
        return Ok(found.value);
      }
      assert |s.agents.m| == |s.agents.m.Keys| && |s.View().agents| == |s.View().agents.Keys|;
      if |s.agents.m| >= MAX_AGENTS {
        return Fail(Capacity);
      }
      var id := x.ids.agent;
      s.AddAgent(id, Agent(id, pid, req.name, s.PeerAt(pid).sessionName + "/" + req.name, req.role, req.runner,
                           req.projects, req.capabilities, req.maxActive, false));
      s.Fields();
      return Ok(id);
    }

    /** A new leader and term; every waiting task is re-offered under it. */
    method AppointLeader(aid: string)
      requires InOrder()
      modifies s.Repr, `event
      ensures InOrder() && fresh(s.Repr - old(s.Repr))
      ensures Appointed(old(s.View()), x, aid) == Outcome(s.View(), event)
    {
      hide Store.View, Store.Valid, EventOf, Mapped, RestampedTasks;
      s.Fields();
      ghost var b := s.View();
      var l := s.LeadershipNow().(agentId := aid, term := s.LeadershipNow().term + 1, leaseUntil := x.now + LEASE);
      s.SetLeadership(l);
      s.Fields();
      var now := x.now;
      var f := (t: Task) => Restamped(t, aid, l.term, now);
      MapRestamped(s.View().tasks, f, aid, l.term, now);
      s.ForEachTask(f);
      assert s.View() == Appoint(b, aid, x.now);
      Emit("leader.changed", aid, "", "");
    }

    // Operations on the board.

    method RunInit() returns (err: Option<Code>)
      requires InOrder()
      modifies s.Repr, `event
      ensures InOrder() && fresh(s.Repr - old(s.Repr))
      ensures UniqueSessions(old(s.View())) && UniqueEndpoints(old(s.View())) ==> Outcomes(InitBoard(old(s.View()), x), err, s.View(), event)
    {
      hide Store.View, Store.Valid, UniqueSessions, UniqueEndpoints, JoinBoard, InitLeader;
      s.Fields();
      if !IsAdmin(x.auth) {
        return Some(Forbidden);
      }
      if s.enabled {
        return Some(Conflict);
      }
      ghost var b := s.View();
      var p := JoinSession();
      if p.Fail? {
        return Some(p.code);
      }
      if UniqueSessions(b) && UniqueEndpoints(b) {
        JoinKeepsUnique(b, x);
      }
      err := FoundLeadership(p.value);
    }

    method FoundLeadership(pid: string) returns (err: Option<Code>)
      requires InOrder()
      requires pid in s.View().peers
      modifies s.Repr, `event
      ensures InOrder() && fresh(s.Repr - old(s.Repr))
      ensures UniqueEndpoints(old(s.View())) ==> Outcomes(InitLeader(old(s.View()), pid, x), err, s.View(), event)
    {
      hide Store.View, Store.Valid, UniqueEndpoints, RegisterAgent, Appointed;
      var a := RegisterEndpoint(pid, x.req.(role := "leader", maxActive := 1));
      if a.Fail? {
        return Some(a.code);
      }
      s.Fields();
      s.SetFlags(true, s.paused, x.auth.userId, s.serverTime);
      s.Fields();
      AppointLeader(a.value);
      return None;
    }

    method RunJoin() returns (err: Option<Code>)
      requires InOrder()
      modifies s.Repr, `event
      ensures InOrder() && fresh(s.Repr - old(s.Repr))
      ensures UniqueSessions(old(s.View())) && UniqueEndpoints(old(s.View())) ==> Outcomes(JoinRequest(old(s.View()), x), err, s.View(), event)
    {
      hide Store.View, Store.Valid, UniqueSessions, UniqueEndpoints, JoinBoard, RegisterAgent, EventOf;
      ghost var b := s.View();
      var p := JoinSession();
      if p.Fail? {
        return Some(p.code);
      }
      if UniqueSessions(b) && UniqueEndpoints(b) {
        JoinKeepsUnique(b, x);
      }
      if x.req.name != "" {
        var a := RegisterEndpoint(p.value, x.req);
        if a.Fail? {
          return Some(a.code);
        }
      }
      Emit("peer.joined", "", "", "");
      return None;
    }

    method RunRegister(pid: string) returns (err: Option<Code>)
      requires InOrder()
      requires pid in s.View().peers
      modifies s.Repr, `event
      ensures InOrder() && fresh(s.Repr - old(s.Repr))
      ensures UniqueEndpoints(old(s.View())) ==> Outcomes(RegisterRequest(old(s.View()), x, pid), err, s.View(), event)
    {
      hide Store.View, Store.Valid, UniqueEndpoints, RegisterAgent, EventOf;
      var a := RegisterEndpoint(pid, x.req);
      if a.Fail? {
        return Some(a.code);
      }
      Emit("agent.registered", "", "", "");
      return None;
    }

    method RunHeartbeat(pid: string)
      requires InOrder()
      requires pid in s.View().peers
      modifies s.Repr
      ensures InOrder() && fresh(s.Repr - old(s.Repr))
      ensures s.View() == Beat(old(s.View()), pid, x)
    {
      hide Store.View, Store.Valid, BeatPeers, KeptAliveTasks;
      BeatRecords(pid);
      RenewLeases(pid);
    }

    method BeatRecords(pid: string)
      requires InOrder()
      requires pid in s.View().peers
      modifies s.Repr
      ensures InOrder() && fresh(s.Repr - old(s.Repr))
      ensures pid in s.View().peers && s.View() == BeatPeers(old(s.View()), pid, x)
    {
      hide Store.View, Store.Valid, PolledAgents, Reaffirmed, Seen;
      TouchPeer(pid);
      PollAgents(pid);
      Reaffirm(pid);
    }

    method TouchPeer(pid: string)
      requires InOrder()
      requires pid in s.View().peers
      modifies s.Repr
      ensures InOrder() && fresh(s.Repr - old(s.Repr))
      ensures s.View() == old(s.View()).(peers := old(s.View()).peers[pid := Seen(old(s.View()).peers[pid], x)])
    {
      hide Store.View, Store.Valid;
      s.Fields();
      var p := s.PeerAt(pid);
      s.SetPeer(pid, p.(lastSeen := x.now, leaseUntil := x.now + LEASE, state := if x.req.ready then Ready else Paused));
      s.Fields();
    }

    method PollAgents(pid: string)
      requires InOrder()
      modifies s.Repr
      ensures InOrder() && fresh(s.Repr - old(s.Repr))
      ensures s.View() == old(s.View()).(agents := PolledAgents(old(s.View()).agents, pid, x.req.ready, x.req.activeAgents))
    {
      hide Store.View, Store.Valid, Mapped, PolledAgents;
      var ready, active := x.req.ready, x.req.activeAgents;
      var poll := (a: Agent) => Polled(a, pid, ready, active);
      MapPolled(s.View().agents, poll, pid, ready, active);
      s.ForEachAgent(poll);
    }

    method Reaffirm(pid: string)
      requires InOrder()
      modifies s.Repr
      ensures InOrder() && fresh(s.Repr - old(s.Repr))
      ensures s.View() == old(s.View()).(leadership := Reaffirmed(old(s.View()).leadership, old(s.View()).agents, pid, x))
    {
      hide Store.View, Store.Valid;
      s.Fields();
      var l := s.LeadershipNow();
      if l.agentId in s.agents.m && s.AgentAt(l.agentId).peerId == pid && s.AgentAt(l.agentId).ready && x.req.term == l.term {
        s.SetLeadership(l.(leaseUntil := x.now + LEASE));
        s.Fields();
      }
    }

    /** The heartbeat's pass over the tasks: leases of running executions that have not lapsed. */
    method RenewLeases(pid: string)
      requires InOrder()
      requires pid in s.View().peers
      modifies s.Repr
      ensures InOrder() && fresh(s.Repr - old(s.Repr))
      ensures var b := old(s.View());
              s.View() == b.(tasks := KeptAliveTasks(b.tasks, b.agents, pid, b.peers[pid].incarnation, x))
    {
      s.Fields();
      var agents, incarnation, input := s.agents.View(), s.PeerAt(pid).incarnation, x;
      hide Store.View, Store.Valid, Mapped, KeptAliveTasks;
      var runs := (t: Task) => RunsOn(agents, pid, incarnation, input, t);
      ghost var renew := (t: Task) => KeptAlive(agents, pid, incarnation, input, t);
      MapKept(s.View().tasks, renew, agents, pid, incarnation, input);
      s.ForEachLease(runs, x.now + LEASE, renew);
    }

    /** Whether an active attempt still runs on the peer. */
    method AnyDraining(pid: string) returns (busy: bool)
      requires InOrder()
      ensures busy <==> Draining(s.View(), pid) != {}
    {
      hide Store.View, Store.Valid;
      s.Fields();
      ghost var b := s.View();
      var todo := s.tasks.m.Keys;
      while todo != {}
        invariant todo <= s.tasks.m.Keys && Draining(b, pid) <= todo
        decreases |todo|
      {
        var id :| id in todo;
        todo := todo - {id};
        var t := s.TaskAt(id);
        if |t.attempts| > 0 && Active(t.state) {
          var at := t.attempts[|t.attempts| - 1];
          if at.agentId in s.agents.m && s.AgentAt(at.agentId).peerId == pid {
            assert id in Draining(b, pid);
            return true;
          }
        }
      }
      return false;
    }

    method RunLeave(pid: string) returns (err: Option<Code>)
      requires InOrder()
      requires pid in s.View().peers
      modifies s.Repr, `event
      ensures InOrder() && fresh(s.Repr - old(s.Repr))
      ensures Outcomes(LeaveRequest(old(s.View()), x, pid), err, s.View(), event)
    {
      hide Store.View, Store.Valid, EventOf, Revoke, Draining;
      var busy := AnyDraining(pid);
      if busy {
        return Some(Conflict);
      }
      RevokePeer(pid);
      Emit("peer.left", "", "", "");
      return None;
    }

    method RevokePeer(pid: string)
      requires InOrder()
      requires pid in s.View().peers
      modifies s.Repr
      ensures InOrder() && fresh(s.Repr - old(s.Repr))
      ensures s.View() == Revoke(old(s.View()), pid, x.now)
    {
      hide Store.View, Store.Valid, BenchedAgents, Resigned;
      s.Fields();
      var p := s.PeerAt(pid);
      s.SetPeer(pid, p.(state := Revoked, leaseUntil := x.now));
      s.Fields();
      s.SetPeerSecrets(s.peerSecrets.m - {pid});
      s.Fields();
      BenchAgents(pid);
      Resign(pid);
    }

    method BenchAgents(pid: string)
      requires InOrder()
      modifies s.Repr
      ensures InOrder() && fresh(s.Repr - old(s.Repr))
      ensures s.View() == old(s.View()).(agents := BenchedAgents(old(s.View()).agents, pid))
    {
      hide Store.View, Store.Valid, Mapped, BenchedAgents;
      var bench := (a: Agent) => Benched(a, pid);
      MapBenched(s.View().agents, bench, pid);
      s.ForEachAgent(bench);
    }

    method Resign(pid: string)
      requires InOrder()
      modifies s.Repr
      ensures InOrder() && fresh(s.Repr - old(s.Repr))
      ensures s.View() == old(s.View()).(leadership := Resigned(old(s.View()).leadership, old(s.View()).agents, pid, x.now))
    {
      hide Store.View, Store.Valid;
      s.Fields();
      var l := s.LeadershipNow();
      if l.agentId in s.agents.m && s.AgentAt(l.agentId).peerId == pid {
        s.SetLeadership(l.(leaseUntil := x.now));
        s.Fields();
      }
    }

    method FindCandidate() returns (r: Result<string>)
      requires InOrder()
      ensures r == HandoverTarget(s.View(), x)
    {
      hide Store.View, Store.Valid, LeaderGuard, ResolveAgent;
      s.Fields();
      if !IsAdmin(x.auth) {
        var l := CheckLeader();
        if l.Fail? {
          return Fail(l.code);
        }
      }
      var target := FindAgent(x.req.target);
      if target.Fail? {
        return Fail(target.code);
      }
      var a := s.AgentAt(target.value);
      if a.role != "leader" || a.peerId !in s.peers.m || s.PeerAt(a.peerId).state == Revoked {
        return Fail(Invalid);
      }
      return Ok(target.value);
    }

    method RunHandover() returns (err: Option<Code>)
      requires InOrder()
      modifies s.Repr, `event
      ensures InOrder() && fresh(s.Repr - old(s.Repr))
      ensures Outcomes(HandoverRequest(old(s.View()), x), err, s.View(), event)
    {
      hide Store.View, Store.Valid, HandoverTarget, Appointed;
      var target := FindCandidate();
      if target.Fail? {
        return Some(target.code);
      }
      AppointLeader(target.value);
      return None;
    }

    method CollectStandbys() returns (r: Result<seq<string>>)
      requires InOrder()
      ensures r == StandbyIds(s.View(), x.req.standbys, [])
    {
      hide Store.View, Store.Valid, ResolveAgent;
      s.Fields();
      var ids: seq<string> := [];
      var refs := x.req.standbys;
      for k := 0 to |refs|
        invariant StandbyIds(s.View(), refs, []) == StandbyIds(s.View(), refs[k..], ids)
      {
        DropStep(refs, k);
        var a := FindAgent(refs[k]);
        if a.Fail? {
          return Fail(a.code);
        }
        if s.AgentAt(a.value).role != "leader" {
          return Fail(Invalid);
        }
        if a.value !in ids {
          ids := ids + [a.value];
        }
      }
      return Ok(ids);
    }

    method RunStandbys() returns (err: Option<Code>)
      requires InOrder()
      modifies s.Repr, `event
      ensures InOrder() && fresh(s.Repr - old(s.Repr))
      ensures Outcomes(StandbysRequest(old(s.View()), x), err, s.View(), event)
    {
      hide Store.View, Store.Valid, StandbyIds, EventOf;
      s.Fields();
      if !IsAdmin(x.auth) {
        return Some(Forbidden);
      }
      if |x.req.standbys| > 10 {
        return Some(Invalid);
      }
      var ids := CollectStandbys();
      if ids.Fail? {
        return Some(ids.code);
      }
      s.SetLeadership(s.LeadershipNow().(standbys := ids.value, autoFailover := x.req.autoFailover));
      s.Fields();
      Emit("leader.standbys", "", "", "");
      return None;
    }

    method ChooseStandby() returns (chosen: Option<string>)
      requires InOrder()
      ensures chosen == FirstReady(s.View(), s.View().leadership.standbys, x.now)
    {
      hide Store.View, Store.Valid;
      s.Fields();
      var ids := s.LeadershipNow().standbys;
      for k := 0 to |ids|
        invariant FirstReady(s.View(), ids, x.now) == FirstReady(s.View(), ids[k..], x.now)
      {
        DropStep(ids, k);
        if ids[k] in s.agents.m {
          var v := s.AgentAt(ids[k]);
          if v.ready && v.peerId in s.peers.m && s.PeerAt(v.peerId).state == Ready && x.now < s.PeerAt(v.peerId).leaseUntil {
            return Some(ids[k]);
          }
        }
      }
      return None;
    }

    method RunAcquire() returns (err: Option<Code>)
      requires InOrder()
      modifies s.Repr, `event
      ensures InOrder() && fresh(s.Repr - old(s.Repr))
      ensures Outcomes(AcquireRequest(old(s.View()), x), err, s.View(), event)
    {
      hide Store.View, Store.Valid, OwnAgent, FirstReady, Appointed;
      s.Fields();
      var a := CheckOwnAgent();
      if a.Fail? {
        return Some(a.code);
      }
      if !s.LeadershipNow().autoFailover || x.now < s.LeadershipNow().leaseUntil {
        return Some(Conflict);
      }
      var chosen := ChooseStandby();
      if chosen.None? || chosen.value != a.value {
        return Some(Forbidden);
      }
      AppointLeader(a.value);
      return None;
    }

    method RunBoardPause() returns (err: Option<Code>)
      requires InOrder()
      modifies s.Repr, `event
      ensures InOrder() && fresh(s.Repr - old(s.Repr))
      ensures Outcomes(PauseRequest(old(s.View()), x), err, s.View(), event)
    {
      hide Store.View, Store.Valid, EventOf;
      s.Fields();
      if !IsAdmin(x.auth) {
        return Some(Forbidden);
      }
      s.SetFlags(s.enabled, x.req.paused, s.operatorId, s.serverTime);
      s.Fields();
      Emit("board.paused", "", "", "");
      return None;
    }

    method CheckSendTask(aid: string) returns (r: Result<string>)
      requires InOrder()
      ensures UniqueNumbers(s.View()) ==> r == SendTask(s.View(), x, aid)
      ensures r.Ok? ==> r.value in s.View().tasks
    {
      hide Store.View, Store.Valid, UniqueNumbers, ResolveTask;
      s.Fields();
      var tid := FindTask(x.req.taskId);
      if tid.Fail? {
        return Fail(tid.code);
      }
      var t := s.TaskAt(tid.value);
      if t.agentId != aid && s.LeadershipNow().agentId != aid {
        return Fail(Forbidden);
      }
      if x.req.attemptId != "" && (|t.attempts| == 0 || t.attempts[|t.attempts| - 1].id != x.req.attemptId) {
        return Fail(Stale);
      }
      return Ok(tid.value);
    }

    method FindAbout(aid: string) returns (r: Result<(string, string)>)
      requires InOrder()
      ensures UniqueNumbers(s.View()) ==> r == SendAbout(s.View(), x, aid)
    {
      hide Store.View, Store.Valid, UniqueNumbers, SendTask;
      if x.req.taskId == "" {
        return Ok(("", ""));
      }
      s.Fields();
      var tid := CheckSendTask(aid);
      if tid.Fail? {
        return Fail(tid.code);
      }
      return Ok((tid.value, s.TaskAt(tid.value).threadId));
    }

    method RunSend() returns (err: Option<Code>)
      requires InOrder()
      modifies `event
      ensures InOrder() && s.View() == old(s.View())
      ensures UniqueNumbers(s.View()) ==> Outcomes(SendRequest(s.View(), x), err, s.View(), event)
    {
      hide Store.View, Store.Valid, UniqueNumbers, OwnAgent, ResolveAgent, SendAbout, ValidText, EventOf;
      s.Fields();
      var a := CheckOwnAgent();
      if a.Fail? {
        return Some(a.code);
      }
      var target := FindAgent(x.req.target);
      if target.Fail? {
        return Some(target.code);
      }
      if !ValidText(x.req.text) {
        return Some(Invalid);
      }
      var about := FindAbout(a.value);
      if about.Fail? {
        return Some(about.code);
      }
      var kind := "message";
      if x.req.op == Objective {
        if target.value != s.LeadershipNow().agentId {
          return Some(Invalid);
        }
        kind := "objective";
      }
      Emit(kind, target.value, about.value.0, about.value.1);
      return None;
    }

    // Assigning.

    method CountPending() returns (n: nat)
      requires InOrder()
      ensures n == |Pending(s.View())|
    {
      hide Store.View, Store.Valid, Pending;
      s.Fields();
      ghost var b := s.View();
      n := 0;
      var todo := s.tasks.m.Keys;
      assert todo == b.tasks.Keys;
      PendingAreTasks(b);
      ghost var seen: set<string> := {};
      while todo != {}
        invariant todo <= b.tasks.Keys && n == |seen|
        invariant forall id :: id in seen <==> id in Pending(b) && id !in todo
        decreases |todo|
      {
        var id :| id in todo;
        todo := todo - {id};
        if !Terminal(s.TaskAt(id).state) {
          seen, n := seen + {id}, n + 1;
        }
      }
      assert seen == Pending(b);
    }

    /** Resolves the dependencies and reports whether all of them are completed. */
    method CollectDependencies() returns (r: Result<seq<string>>, ready: bool)
      requires InOrder()
      ensures UniqueNumbers(s.View()) ==> r == DependencyIds(s.View(), x.req.dependencies, [])
      ensures r.Ok? ==> ready == AllCompleted(s.View(), r.value)
    {
      hide Store.View, Store.Valid, UniqueNumbers, ResolveTask;
      s.Fields();
      ghost var b := s.View();
      var deps: seq<string> := [];
      ready := true;
      var refs := x.req.dependencies;
      for k := 0 to |refs|
        invariant UniqueNumbers(b) ==> DependencyIds(b, refs, []) == DependencyIds(b, refs[k..], deps)
        invariant ready == AllCompleted(b, deps)
      {
        DropStep(refs, k);
        var tid := FindTask(refs[k]);
        if tid.Fail? {
          return Fail(tid.code), false;
        }
        var done := s.TaskAt(tid.value).state == Completed;
        AllCompletedSnoc(b, deps, tid.value);
        if tid.value !in deps {
          deps := deps + [tid.value];
        }
        if !done {
          ready := false;
        }
      }
      return Ok(deps), ready;
    }

    method RunAssign() returns (err: Option<Code>)
      requires InOrder()
      modifies s.Repr, `event
      ensures InOrder() && fresh(s.Repr - old(s.Repr))
      ensures UniqueNumbers(old(s.View())) ==> Outcomes(AssignRequest(old(s.View()), x), err, s.View(), event)
    {
      hide Store.View, Store.Valid, UniqueNumbers, LeaderGuard, ResolveAgent, ValidAssignment, DependencyIds, Pending,
           EventOf, AllCompleted;
      s.Fields();
      ghost var b := s.View();
      var leader := CheckLeader();
      if leader.Fail? {
        return Some(leader.code);
      }
      var target := FindAgent(x.req.target);
      if target.Fail? {
        return Some(target.code);
      }
      var a := s.AgentAt(target.value);
      if a.role != "worker" || a.runner != x.req.runner || x.req.project !in a.projects {
        return Some(Invalid);
      }
      if !ValidAssignment(x.req) {
        return Some(Invalid);
      }
      var pending := CountPending();
      if pending >= MAX_PENDING {
        return Some(Capacity);
      }
      var deps, ready := CollectDependencies();
      if deps.Fail? {
        return Some(deps.code);
      }
      PlaceTask(leader.value, target.value, deps.value, ready);
      return None;
    }

    method PlaceTask(leader: string, target: string, deps: seq<string>, ready: bool)
      requires InOrder()
      requires ready == AllCompleted(s.View(), deps)
      modifies s.Repr, `event
      ensures InOrder() && fresh(s.Repr - old(s.Repr))
      ensures var b := old(s.View());
              var t := NewTask(b, x, leader, target, deps);
              s.View() == AddTask(b, t) && event == EventOf(s.View(), x, "task.assigned", target, t.id, t.threadId)
    {
      hide Store.View, Store.Valid, EventOf, AllCompleted;
      s.Fields();
      var number := s.nextTask + 1;
      s.SetNextTask(number);
      s.Fields();
      var state := if ready then Offered else Queued;
      var t := Task(x.ids.task, number, x.req.id, x.req.text, x.req.criteria, x.req.project, x.req.base, x.req.runner,
                    target, leader, s.LeadershipNow().term, 1, state, deps, x.req.maxRuntimeSeconds, x.now, x.now,
                    [NewAttempt(x.ids.attempt, 1, target, state)]);
      s.AddTask(t.id, t);
      s.Fields();
      Emit("task.assigned", target, t.id, t.threadId);
    }

    // Task operations.

    /** The common last step: the task and its current attempt take the new state, or the detail
        is refused after the operation has already changed the copied records. */
    method MoveTask(ghost b: Board, tid: string, state: TaskState, kind: string, to: string, detail: string)
      returns (err: Option<Code>)
      requires InOrder()
      requires tid in b.tasks && tid in s.View().tasks && s.View().tasks[tid].attempts != []
      requires s.View() == PutTask(b, tid, s.View().tasks[tid], s.View().executionSecrets)
      modifies s.Repr, `event
      ensures InOrder() && fresh(s.Repr - old(s.Repr))
      ensures Outcomes(Change(b, x, tid, old(s.View()).tasks[tid], old(s.View()).executionSecrets, state, kind, to, detail),
                       err, s.View(), event)
    {
      hide Store.View, Store.Valid, EventOf, OnlyTask;
      if |detail| > MAX_TEXT {
        return Some(Invalid);
      }
      s.Fields();
      var thread := s.TaskAt(tid).threadId;
      WriteMove(b, tid, state, detail);
      Emit(kind, to, tid, thread);
      return None;
    }

    /** Writes the move into the task, then through the current attempt. */
    method WriteMove(ghost b: Board, tid: string, state: TaskState, detail: string)
      requires InOrder()
      requires tid in b.tasks && tid in s.View().tasks && s.View().tasks[tid].attempts != []
      requires s.View() == PutTask(b, tid, s.View().tasks[tid], s.View().executionSecrets)
      modifies s.Repr
      ensures InOrder() && fresh(s.Repr - old(s.Repr))
      ensures s.View() == PutTask(b, tid, Moved(old(s.View()).tasks[tid], state, detail, x.now), old(s.View()).executionSecrets)
    {
      hide Store.View, Store.Valid, PutTask, Moved, WithCurrent;
      ghost var es := s.View().executionSecrets;
      s.Fields();
      var t := s.TaskAt(tid);
      var t1 := t.(state := state, version := t.version + 1, updatedAt := x.now);
      s.SetTaskCore(tid, t1);
      PutTaskTwice(b, tid, t, es, t1);
      var at := t.attempts[|t.attempts| - 1].(state := state, detail := detail);
      s.SetCurrent(tid, at);
      ghost var t2 := WithCurrent(t1, at);
      PutTaskTwice(b, tid, t1, es, t2);
      WithCurrentTwice(t1, at, at.(endedAt := Some(x.now)));
      MovedIs(t, state, detail, x.now);
      if Terminal(state) || state == ResultSubmitted {
        s.SetEnded(tid, x.now);
        PutTaskTwice(b, tid, t2, es, WithCurrent(t2, at.(endedAt := Some(x.now))));
      }
    }

    method CountActive(aid: string) returns (n: nat)
      requires InOrder()
      ensures n == |ActiveTasks(s.View(), aid)|
    {
      hide Store.View, Store.Valid, ActiveTasks;
      s.Fields();
      ghost var b := s.View();
      n := 0;
      var todo := s.tasks.m.Keys;
      assert todo == b.tasks.Keys;
      ActiveTasksAreTasks(b, aid);
      ghost var seen: set<string> := {};
      while todo != {}
        invariant todo <= b.tasks.Keys && n == |seen|
        invariant forall id :: id in seen <==> id in ActiveTasks(b, aid) && id !in todo
        decreases |todo|
      {
        var id :| id in todo;
        todo := todo - {id};
        var t := s.TaskAt(id);
        if t.agentId == aid && Active(t.state) {
          seen, n := seen + {id}, n + 1;
        }
      }
      assert seen == ActiveTasks(b, aid);
    }

    method DependenciesDone(deps: seq<string>) returns (done: bool)
      requires InOrder()
      ensures done == AllCompleted(s.View(), deps)
    {
      hide Store.View, Store.Valid;
      s.Fields();
      for k := 0 to |deps|
        invariant forall i :: 0 <= i < k ==> deps[i] in s.View().tasks && s.View().tasks[deps[i]].state == Completed
      {
        if deps[k] !in s.tasks.m || s.TaskAt(deps[k]).state != Completed {
          return false;
        }
      }
      return true;
    }

    method CheckClaim(tid: string) returns (r: Result<string>)
      requires InOrder()
      requires tid in s.View().tasks && s.View().tasks[tid].attempts != []
      ensures r == ClaimGuard(s.View(), x, tid)
    {
      hide Store.View, Store.Valid, OwnAgent, AllCompleted, ActiveTasks, ValidId;
      s.Fields();
      var t := s.TaskAt(tid);
      var own := CheckOwnAgent();
      if own.Fail? {
        return Fail(own.code);
      }
      var a := s.AgentAt(own.value);
      var p := s.PeerAt(x.req.peerId);
      if t.agentId != own.value || x.req.attemptId != t.attempts[|t.attempts| - 1].id {
        return Fail(Forbidden);
      }
      if s.paused || !a.ready || p.state != Ready || !(x.now < p.leaseUntil) {
        return Fail(Unavailable);
      }
      if t.version != x.req.taskVersion || (t.state != Offered && t.state != Queued) {
        return Fail(Conflict);
      }
      if t.leaderTerm != s.LeadershipNow().term || !(x.now < s.LeadershipNow().leaseUntil) {
        return Fail(Stale);
      }
      var room := CheckRoom(t, own.value, a.maxActive);
      if room.Some? {
        return Fail(room.value);
      }
      return Ok(own.value);
    }

    /** The last conditions of a claim: dependencies, capacity and the execution's credential. */
    method CheckRoom(t: Task, aid: string, maxActive: int) returns (err: Option<Code>)
      requires InOrder()
      ensures err == if !AllCompleted(s.View(), t.dependencies) then Some(Unavailable)
                     else if |ActiveTasks(s.View(), aid)| >= maxActive then Some(Capacity)
                     else if !ValidId(x.req.executionId) || |x.auth.executionToken| < 32 || |x.auth.executionToken| > 256 then Some(Invalid)
                     else None
    {
      hide Store.View, Store.Valid, AllCompleted, ActiveTasks, ValidId;
      var done := DependenciesDone(t.dependencies);
      if !done {
        return Some(Unavailable);
      }
      var active := CountActive(aid);
      if active >= maxActive {
        return Some(Capacity);
      }
      if !ValidId(x.req.executionId) || |x.auth.executionToken| < 32 || |x.auth.executionToken| > 256 {
        return Some(Invalid);
      }
      return None;
    }

    method RunClaim(tid: string) returns (err: Option<Code>)
      requires InOrder()
      requires tid in s.View().tasks && s.View().tasks[tid].attempts != []
      modifies s.Repr, `event
      ensures InOrder() && fresh(s.Repr - old(s.Repr))
      ensures Outcomes(ClaimRequest(old(s.View()), x, tid), err, s.View(), event)
    {
      hide Store.View, Store.Valid, ClaimGuard, Change, OnlyTask;
      ghost var b := s.View();
      var guard := CheckClaim(tid);
      if guard.Fail? {
        return Some(guard.code);
      }
      s.Fields();
      var t := s.TaskAt(tid);
      var n := |t.attempts| - 1;
      var at := t.attempts[n];
      s.SetCurrent(tid, at.(executionId := x.req.executionId, incarnation := x.req.incarnation, leaseUntil := x.now + LEASE));
      s.Fields();
      s.SetExecutionSecrets(s.executionSecrets.m[at.id := Hash(x.auth.executionToken)]);
      s.Fields();
      err := MoveTask(b, tid, Claimed, "task.claimed", s.LeadershipNow().agentId, "Assignment claimed");
    }

    method RunReview(tid: string) returns (err: Option<Code>)
      requires InOrder()
      requires tid in s.View().tasks && s.View().tasks[tid].attempts != []
      modifies s.Repr, `event
      ensures InOrder() && fresh(s.Repr - old(s.Repr))
      ensures Outcomes(ReviewRequest(old(s.View()), x, tid), err, s.View(), event)
    {
      hide Store.View, Store.Valid, LeaderGuard, Change, OnlyTask;
      ghost var b := s.View();
      var leader := CheckLeader();
      if leader.Fail? {
        return Some(leader.code);
      }
      s.Fields();
      var t := s.TaskAt(tid);
      if t.state != ResultSubmitted || t.version != x.req.taskVersion {
        return Some(Conflict);
      }
      PutTaskBack(b, tid);
      var state := Completed;
      if !x.req.ready {
        state := Failed;
      }
      err := MoveTask(b, tid, state, "task.reviewed", t.agentId, x.req.text);
    }

    method RunCancel(tid: string) returns (err: Option<Code>)
      requires InOrder()
      requires tid in s.View().tasks && s.View().tasks[tid].attempts != []
      modifies s.Repr, `event
      ensures InOrder() && fresh(s.Repr - old(s.Repr))
      ensures Outcomes(CancelRequest(old(s.View()), x, tid), err, s.View(), event)
    {
      hide Store.View, Store.Valid, LeaderGuard, Change, OnlyTask, PutTask;
      ghost var b := s.View();
      var leader := CheckLeader();
      if leader.Fail? && !IsAdmin(x.auth) {
        return Some(leader.code);
      }
      s.Fields();
      var t := s.TaskAt(tid);
      if Terminal(t.state) {
        return Some(Conflict);
      }
      PutTaskBack(b, tid);
      var state := CancelRequested;
      if t.state == Queued || t.state == Offered || t.state == ResultSubmitted {
        state := Cancelled;
      }
      err := MoveTask(b, tid, state, "task.cancel", t.agentId, x.req.text);
    }

    method RunResolve(tid: string) returns (err: Option<Code>)
      requires InOrder()
      requires tid in s.View().tasks && s.View().tasks[tid].attempts != []
      modifies s.Repr, `event
      ensures InOrder() && fresh(s.Repr - old(s.Repr))
      ensures Outcomes(ResolveRequest(old(s.View()), x, tid), err, s.View(), event)
    {
      hide Store.View, Store.Valid, Change, OnlyTask;
      ghost var b := s.View();
      if !IsAdmin(x.auth) || !x.req.confirmStopped {
        return Some(Forbidden);
      }
      s.Fields();
      var t := s.TaskAt(tid);
      if !Active(t.state) {
        return Some(Conflict);
      }
      s.SetExecutionSecrets(s.executionSecrets.m - {t.attempts[|t.attempts| - 1].id});
      s.Fields();
      assert s.View() == PutTask(b, tid, t, s.View().executionSecrets);
      err := MoveTask(b, tid, Failed, "task.resolved", s.LeadershipNow().agentId, RESOLVED_NOTE + x.req.text);
    }

    method CheckRetry(tid: string) returns (r: Result<string>)
      requires InOrder()
      requires tid in s.View().tasks && s.View().tasks[tid].attempts != []
      ensures r == RetryGuard(s.View(), x, tid)
    {
      hide Store.View, Store.Valid, LeaderGuard, ResolveAgent;
      var leader := CheckLeader();
      if leader.Fail? {
        return Fail(leader.code);
      }
      s.Fields();
      var t := s.TaskAt(tid);
      if !Terminal(t.state) || t.state == Completed {
        return Fail(Conflict);
      }
      var target := FindAgent(x.req.target);
      if target.Fail? {
        return Fail(target.code);
      }
      var a := s.AgentAt(target.value);
      if a.role != "worker" || a.runner != t.runner || t.project !in a.projects {
        return Fail(Invalid);
      }
      if |t.attempts| >= MAX_ATTEMPTS {
        return Fail(Capacity);
      }
      return Ok(target.value);
    }

    method RunRetry(tid: string) returns (err: Option<Code>)
      requires InOrder()
      requires tid in s.View().tasks && s.View().tasks[tid].attempts != []
      modifies s.Repr, `event
      ensures InOrder() && fresh(s.Repr - old(s.Repr))
      ensures Outcomes(RetryRequest(old(s.View()), x, tid), err, s.View(), event)
    {
      hide Store.View, Store.Valid, RetryGuard, Change, OnlyTask;
      ghost var b := s.View();
      var guard := CheckRetry(tid);
      if guard.Fail? {
        return Some(guard.code);
      }
      s.Fields();
      var t := s.TaskAt(tid);
      Reoffer(tid, guard.value);
      err := MoveTask(b, tid, Offered, "task.assigned", guard.value, "Explicit retry of " + TaskLabel(t.number));
    }

    /** The task goes to another worker with a new attempt behind the old ones. */
    method Reoffer(tid: string, target: string)
      requires InOrder()
      requires tid in s.View().tasks && s.View().tasks[tid].attempts != []
      modifies s.Repr
      ensures InOrder() && fresh(s.Repr - old(s.Repr))
      ensures var b := old(s.View());
              s.View() == PutTask(b, tid, Reoffered(b.tasks[tid], b.leadership, target, x.ids.attempt),
                                  b.executionSecrets - {Current(b.tasks[tid]).id})
    {
      hide Store.View, Store.Valid;
      ghost var b := s.View();
      s.Fields();
      var t, l := s.TaskAt(tid), s.LeadershipNow();
      s.SetExecutionSecrets(s.executionSecrets.m - {t.attempts[|t.attempts| - 1].id});
      ghost var es := s.View().executionSecrets;
      PutSecrets(b, tid, es);
      hide PutTask;
      s.Fields();
      var t1 := t.(agentId := target, leaderId := l.agentId, leaderTerm := l.term);
      s.SetTaskCore(tid, t1);
      PutTaskTwice(b, tid, t, es, t1);
      s.AppendAttempt(tid, NewAttempt(x.ids.attempt, |t.attempts| + 1, target, Offered));
      PutTaskTwice(b, tid, t1, es, Reoffered(t, l, target, x.ids.attempt));
    }

    method RunStart(tid: string) returns (err: Option<Code>)
      requires InOrder()
      requires tid in s.View().tasks && s.View().tasks[tid].attempts != []
      modifies s.Repr, `event
      ensures InOrder() && fresh(s.Repr - old(s.Repr))
      ensures Outcomes(StartRequest(old(s.View()), x, tid), err, s.View(), event)
    {
      hide Store.View, Store.Valid, Change, OnlyTask, ValidId;
      ghost var b := s.View();
      s.Fields();
      var t := s.TaskAt(tid);
      var n := |t.attempts| - 1;
      var at := t.attempts[n];
      if t.state != Claimed || !(x.now < at.leaseUntil) || !ValidId(x.req.paneId) {
        return Some(Conflict);
      }
      MarkStarted(tid);
      s.Fields();
      err := MoveTask(b, tid, Running, "task.started", s.LeadershipNow().agentId, "Task agent started");
    }

    method MarkStarted(tid: string)
      requires InOrder()
      requires tid in s.View().tasks && s.View().tasks[tid].attempts != []
      modifies s.Repr
      ensures InOrder() && fresh(s.Repr - old(s.Repr))
      ensures var b := old(s.View()); s.View() == PutTask(b, tid, StartedTask(b.tasks[tid], x), b.executionSecrets)
    {
      hide Store.View, Store.Valid, PutTask, WithCurrent;
      ghost var b := s.View();
      s.Fields();
      var t := s.TaskAt(tid);
      var at := t.attempts[|t.attempts| - 1].(paneId := x.req.paneId);
      PutTaskBack(b, tid);
      s.SetCurrent(tid, at);
      PutTaskTwice(b, tid, t, b.executionSecrets, WithCurrent(t, at));
      WithCurrentTwice(t, at, at.(startedAt := Some(x.now)));
      s.SetStarted(tid, x.now);
      PutTaskTwice(b, tid, WithCurrent(t, at), b.executionSecrets, WithCurrent(t, at.(startedAt := Some(x.now))));
    }

    method RunProgress(tid: string) returns (err: Option<Code>)
      requires InOrder()
      requires tid in s.View().tasks && s.View().tasks[tid].attempts != []
      modifies s.Repr, `event
      ensures InOrder() && fresh(s.Repr - old(s.Repr))
      ensures Outcomes(ProgressRequest(old(s.View()), x, tid), err, s.View(), event)
    {
      hide Store.View, Store.Valid, Change, OnlyTask, ValidText;
      ghost var b := s.View();
      s.Fields();
      var t := s.TaskAt(tid);
      if t.state == CancelRequested {
        return Some(Conflict);
      }
      if !(x.now < t.attempts[|t.attempts| - 1].leaseUntil) {
        return Some(Stale);
      }
      var state := ProgressState(x.req.name, t.state);
      if state.None? {
        return Some(Invalid);
      }
      if !ValidText(x.req.text) {
        return Some(Invalid);
      }
      PutTaskBack(b, tid);
      err := MoveTask(b, tid, state.value, "task.progress", s.LeadershipNow().agentId, x.req.text);
    }

    method RunSubmit(tid: string) returns (err: Option<Code>)
      requires InOrder()
      requires tid in s.View().tasks && s.View().tasks[tid].attempts != []
      modifies s.Repr, `event
      ensures InOrder() && fresh(s.Repr - old(s.Repr))
      ensures Outcomes(SubmitRequest(old(s.View()), x, tid), err, s.View(), event)
    {
      hide Store.View, Store.Valid, Change, OnlyTask, ValidText;
      ghost var b := s.View();
      s.Fields();
      var t := s.TaskAt(tid);
      var n := |t.attempts| - 1;
      var at := t.attempts[n];
      if t.state == CancelRequested || !(x.now < at.leaseUntil) {
        return Some(Stale);
      }
      if |x.req.result.raw| == 0 || |x.req.result.raw| > MAX_TEXT {
        return Some(Invalid);
      }
      if x.req.result.summary.None? || !ValidText(x.req.result.summary.value) {
        return Some(Invalid);
      }
      s.SetResult(tid, x.req.result.raw);
      s.Fields();
      err := MoveTask(b, tid, ResultSubmitted, "task.result", s.LeadershipNow().agentId, x.req.result.summary.value);
    }

    method RunAdopt(tid: string)
      requires InOrder()
      requires tid in s.View().tasks && s.View().tasks[tid].attempts != []
      modifies s.Repr
      ensures InOrder() && fresh(s.Repr - old(s.Repr))
      ensures var b := old(s.View()); s.View() == PutTask(b, tid, Adopted(b.tasks[tid], x), b.executionSecrets)
    {
      hide Store.View, Store.Valid;
      s.Fields();
      var t := s.TaskAt(tid);
      var n := |t.attempts| - 1;
      s.SetCurrent(tid, t.attempts[n].(incarnation := x.req.incarnation, leaseUntil := x.now + LEASE));
      s.Fields();
    }

    method RunExecution(tid: string) returns (err: Option<Code>)
      requires InOrder()
      requires tid in s.View().tasks && s.View().tasks[tid].attempts != [] && event == None
      modifies s.Repr, `event
      ensures InOrder() && fresh(s.Repr - old(s.Repr))
      ensures Outcomes(ExecutionRequest(old(s.View()), x, tid), err, s.View(), event)
    {
      hide Store.View, Store.Valid, ExecutionGuard, Change, OnlyTask, StartRequest, ProgressRequest, SubmitRequest,
           PutTask, ValidText, Adopted;
      ghost var b := s.View();
      s.Fields();
      var guard := CheckExecution(tid);
      if guard.Fail? {
        return Some(guard.code);
      }
      var t := s.TaskAt(tid);
      if Terminal(t.state) || t.state == ResultSubmitted {
        return Some(Conflict);
      }
      PutTaskBack(b, tid);
      match x.req.op {
        case Adopt =>
          if !Active(t.state) {
            return Some(Conflict);
          }
          RunAdopt(tid);
          return None;
        case Start =>
          err := RunStart(tid);
        case Progress =>
          err := RunProgress(tid);
        case SubmitResult =>
          err := RunSubmit(tid);
        case ReportFailure =>
          if !ValidText(x.req.text) {
            return Some(Invalid);
          }
          err := MoveTask(b, tid, Failed, "task.failed", s.LeadershipNow().agentId, x.req.text);
        case ConfirmCancelled =>
          if t.state != CancelRequested {
            return Some(Conflict);
          }
          err := MoveTask(b, tid, Cancelled, "task.cancelled", s.LeadershipNow().agentId, "Local runner confirmed stopped");
        case Uncertain =>
          err := MoveTask(b, tid, NeedsReconciliation, "task.uncertain", s.LeadershipNow().agentId, x.req.text);
        case _ =>
          return Some(Invalid);
      }
    }

    method RunTask() returns (err: Option<Code>)
      requires InOrder()
      requires event == None
      modifies s.Repr, `event
      ensures InOrder() && fresh(s.Repr - old(s.Repr))
      ensures UniqueNumbers(old(s.View())) ==> Outcomes(TaskRequest(old(s.View()), x), err, s.View(), event)
    {
      hide Store.View, Store.Valid, UniqueNumbers, ResolveTask, ClaimRequest, ReviewRequest, CancelRequest, ResolveRequest,
           RetryRequest, ExecutionRequest, OnlyTask;
      s.Fields();
      var tid := FindTask(x.req.taskId);
      if tid.Fail? {
        return Some(tid.code);
      }
      if |s.TaskAt(tid.value).attempts| == 0 {
        return Some(Conflict);
      }
      match x.req.op {
        case Claim =>
          err := RunClaim(tid.value);
        case Review =>
          err := RunReview(tid.value);
        case Cancel =>
          err := RunCancel(tid.value);
        case Resolve =>
          err := RunResolve(tid.value);
        case Retry =>
          err := RunRetry(tid.value);
        case _ =>
          err := RunExecution(tid.value);
      }
    }

    // Dispatch.

    method RunPeerRequest(pid: string) returns (err: Option<Code>)
      requires InOrder()
      requires pid in s.View().peers && event == None
      modifies s.Repr, `event
      ensures InOrder() && fresh(s.Repr - old(s.Repr))
      ensures UniqueEndpoints(old(s.View())) && UniqueNumbers(old(s.View())) ==> Outcomes(PeerRequest(old(s.View()), x, pid), err, s.View(), event)
    {
      hide Store.View, Store.Valid, UniqueEndpoints, UniqueNumbers, RegisterRequest, Beat, LeaveRequest, HandoverRequest,
           StandbysRequest, AcquireRequest, PauseRequest, SendRequest, AssignRequest, TaskRequest;
      match x.req.op {
        case Register =>
          err := RunRegister(pid);
        case Heartbeat =>
          RunHeartbeat(pid);
          return None;
        case Leave =>
          err := RunLeave(pid);
        case Handover =>
          err := RunHandover();
        case Standbys =>
          err := RunStandbys();
        case Acquire =>
          err := RunAcquire();
        case BoardPause =>
          err := RunBoardPause();
        case Send =>
          err := RunSend();
        case Objective =>
          err := RunSend();
        case Assign =>
          err := RunAssign();
        case UnknownOp(_) =>
          return Some(Invalid);
        case _ =>
          err := RunTask();
      }
    }

    method Run() returns (err: Option<Code>)
      requires InOrder()
      requires event == None
      modifies s.Repr, `event
      ensures InOrder() && fresh(s.Repr - old(s.Repr))
      ensures Keyed(old(s.View())) ==> Outcomes(Operate(old(s.View()), x), err, s.View(), event)
    {
      hide Store.View, Store.Valid, Keyed, UniqueSessions, UniqueEndpoints, UniqueNumbers, InitBoard, JoinRequest, PeerRequest,
           PeerGuard;
      s.Fields();
      if Keyed(s.View()) {
        KeyedIsUnique(s.View());
      }
      if x.req.op == Init {
        err := RunInit();
        return;
      }
      if !s.enabled {
        return Some(NotFound);
      }
      if x.req.op == Join {
        err := RunJoin();
        return;
      }
      var p := CheckPeer();
      if p.Fail? {
        return Some(p.code);
      }
      err := RunPeerRequest(p.value);
    }
  }

  lemma PutTaskTwice(b: Board, tid: string, t: Task, es: map<string, Secret>, t': Task)
    requires tid in b.tasks
    ensures PutTask(b, tid, t, es).(tasks := PutTask(b, tid, t, es).tasks[tid := t']) == PutTask(b, tid, t', es)
    ensures tid in PutTask(b, tid, t', es).tasks && PutTask(b, tid, t', es).tasks[tid] == t'
    ensures PutTask(b, tid, t', es).executionSecrets == es
  {
    assert b.tasks[tid := t][tid := t'] == b.tasks[tid := t'];
  }

  /** A task moved field by field, then its current attempt, is the task moved. */
  lemma MovedIs(t: Task, state: TaskState, detail: string, now: int)
    requires t.attempts != []
    ensures var t1 := t.(state := state, version := t.version + 1, updatedAt := now);
            var at := Current(t).(state := state, detail := detail);
            Moved(t, state, detail, now)
            == if Terminal(state) || state == ResultSubmitted then WithCurrent(t1, at.(endedAt := Some(now))) else WithCurrent(t1, at)
  {
  }

  lemma PutSecrets(b: Board, tid: string, es: map<string, Secret>)
    requires tid in b.tasks
    ensures PutTask(b, tid, b.tasks[tid], es) == b.(executionSecrets := es)
  {
  }

  lemma WithCurrentTwice(t: Task, at: Attempt, later: Attempt)
    requires t.attempts != []
    ensures WithCurrent(t, at).attempts != [] && Current(WithCurrent(t, at)) == at && WithCurrent(WithCurrent(t, at), later) == WithCurrent(t, later)
  {
  }

  lemma PutTaskBack(b: Board, tid: string)
    requires tid in b.tasks
    ensures PutTask(b, tid, b.tasks[tid], b.executionSecrets) == b
  {
  }

  /** The store a request is worked out on: no object of it is shared with the original. */
  method WorkingCopy(original: Store?) returns (copy: Store)
    requires original != null ==> original.Valid()
    ensures fresh(copy.Repr) && copy.Valid() && (original == null ==> Keyed(copy.View()))
    ensures copy.View() == if original == null then NEW_BOARD else original.View()
  {
    hide Store.View, Store.Valid, Keyed;
    if original == null {
      EmptyIsKeyed();
      copy := new Store();
    } else {
      copy := CloneStore(original);
    }
  }

  /** Runs the operation on a working copy and stamps the time. */
  method Reduce(copy: Store, x: Input) returns (err: Option<Code>, event: Option<Event>)
    requires copy.Valid()
    modifies copy.Repr
    ensures copy.Valid() && fresh(copy.Repr - old(copy.Repr))
    ensures Keyed(old(copy.View())) ==>
              match Operate(old(copy.View()), x)
              case Fail(code) => err == Some(code)
              case Ok(out) => err == None && event == out.event && copy.View() == out.board.(serverTime := x.now)
  {
    hide Store.View, Store.Valid, Keyed, Operate;
    copy.Reach();
    var reducer := new Transition(copy, x);
    err := reducer.Run();
    event := reducer.event;
    if err.None? {
      copy.Fields();
      copy.Reach();
      copy.SetFlags(copy.enabled, copy.paused, copy.operatorId, x.now);
    }
  }

  /** One request against a stored board. The original and everything in it stay as they are, whatever
      happens; a refused request returns it, and an accepted one returns a store that shares no
      object with it at any depth and holds exactly the specified board. */
  method Apply(original: Store?, x: Input) returns (result: Store?, err: Option<Code>, event: Option<Event>)
    requires original != null ==> original.Valid()
    ensures original != null ==> unchanged(original) && unchanged(original.Repr)
    ensures err.Some? ==> result == original
    ensures err.None? ==> result != null && result.Valid() && fresh(result.Repr) && AllNew(result)
    ensures (original != null ==> Keyed(original.View())) ==>
              var r := Step(if original == null then NEW_BOARD else original.View(), x);
              r == if err.Some? then Fail(err.value) else Ok(Outcome(result.View(), event))
  {
    hide Store.View, Store.Valid, Keyed, Operate, ValidId, AllNew;
    event := None;
    if x.req.schemaVersion != VERSION {
      return original, Some(Version), None;
    }
    if !ValidId(x.req.id) {
      return original, Some(Invalid), None;
    }
    if x.auth.userId == "" || x.auth.workspaceRole == "" || x.auth.workspaceRole == "observer" {
      return original, Some(Forbidden), None;
    }
    var copy := WorkingCopy(original);
    err, event := Reduce(copy, x);
    if err.Some? {
      return original, err, None;
    }
    NewThroughout(copy);
    return copy, None, event;
  }

  lemma EmptyIsKeyed()
    ensures Keyed(NEW_BOARD)
  {
  }

  lemma AllCompletedSnoc(b: Board, deps: seq<string>, id: string)
    requires id in b.tasks
    ensures AllCompleted(b, deps + [id]) <==> AllCompleted(b, deps) && b.tasks[id].state == Completed
    ensures id in deps && AllCompleted(b, deps) ==> b.tasks[id].state == Completed
  {
    var all := deps + [id];
    if AllCompleted(b, all) {
      forall i | 0 <= i < |deps| ensures deps[i] in b.tasks && b.tasks[deps[i]].state == Completed {
        assert all[i] == deps[i];
      }
      assert all[|deps|] == id;
    }
  }

  lemma MapRelabelled(m: map<string, Agent>, f: Agent -> Agent, pid: string, name: string)
    requires forall a :: f(a) == Relabelled(a, pid, name)
    ensures Mapped(m, f) == RelabelledAgents(m, pid, name)
  {
  }

  lemma MapPolled(m: map<string, Agent>, f: Agent -> Agent, pid: string, ready: bool, active: seq<string>)
    requires forall a :: f(a) == Polled(a, pid, ready, active)
    ensures Mapped(m, f) == PolledAgents(m, pid, ready, active)
  {
  }

  lemma MapBenched(m: map<string, Agent>, f: Agent -> Agent, pid: string)
    requires forall a :: f(a) == Benched(a, pid)
    ensures Mapped(m, f) == BenchedAgents(m, pid)
  {
  }

  lemma MapRestamped(m: map<string, Task>, f: Task -> Task, aid: string, term: int, now: int)
    requires forall t :: f(t) == Restamped(t, aid, term, now)
    ensures Mapped(m, f) == RestampedTasks(m, aid, term, now)
  {
  }

  lemma MapKept(m: map<string, Task>, f: Task -> Task, agents: map<string, Agent>, pid: string, incarnation: string, x: Input)
    requires forall t :: f(t) == KeptAlive(agents, pid, incarnation, x, t)
    ensures Mapped(m, f) == KeptAliveTasks(m, agents, pid, incarnation, x)
  {
  }

  lemma JoinKeepsUnique(b: Board, x: Input)
    requires UniqueEndpoints(b) && JoinBoard(b, x).Ok?
    ensures UniqueEndpoints(JoinBoard(b, x).value.board)
  {
    hide ValidId, ValidLabel, TokenMatches, UniqueEndpoints, Rejoin, Sessions;
    var pid := JoinBoard(b, x).value.id;
    if Sessions(b, x.auth.userId, x.req.sessionId) == {} {
      SameAgentsUnique(b, AddPeer(b, x));
    } else {
      SessionsArePeers(b, x.auth.userId, x.req.sessionId);
      RejoinKeepsUnique(b, pid, x);
    }
  }

  lemma SessionsArePeers(b: Board, userId: string, sessionId: string)
    ensures Sessions(b, userId, sessionId) <= b.peers.Keys
  {
  }

  lemma SameAgentsUnique(b: Board, c: Board)
    requires UniqueEndpoints(b) && c.agents == b.agents
    ensures UniqueEndpoints(c)
  {
  }

  lemma RejoinKeepsUnique(b: Board, pid: string, x: Input)
    requires UniqueEndpoints(b) && pid in b.peers
    ensures UniqueEndpoints(Rejoin(b, pid, x))
  {
  }
}
