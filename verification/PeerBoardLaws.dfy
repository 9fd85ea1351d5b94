/** What the requests about peers, agents and leadership need and leave, in terms of the records. */
module PeerBoardLaws {
  import opened Basics
  import opened PeerState
  import opened PeerStep
  import opened PeerInvariant
  import opened PeerLaws

  /** Only these parts of the board changed, and the time. */
  ghost predicate OnlyPeers(b: Board, c: Board) {
    c == b.(peers := c.peers, peerSecrets := c.peerSecrets, agents := c.agents, leadership := c.leadership, serverTime := c.serverTime)
  }

  /** The event of a request that is about no task. */
  ghost predicate Told(b: Board, x: Input, kind: string, told: string, event: Option<Event>) {
    event == Some(Event(x.req.id, kind, x.req.agentId, told, "", NoTask(b), x.req.id, x.now))
  }

  /** No attempt, as long as no task has the empty id. */
  ghost function NoTask(b: Board): string {
    if "" in b.tasks && b.tasks[""].attempts != [] then Last(b.tasks[""]).id else ""
  }

  /** The same last attempt under the empty id, or none. */
  ghost predicate SameNone(b: Board, c: Board) {
    ("" in b.tasks <==> "" in c.tasks) && ("" in b.tasks ==> c.tasks[""].attempts == b.tasks[""].attempts)
  }

  lemma BoardEvent(b: Board, c: Board, x: Input, kind: string, told: string)
    requires SameNone(b, c)
    ensures Told(b, x, kind, told, EventOf(c, x, kind, told, "", ""))
  {
  }

  // Heartbeats.

  ghost predicate AgentPolled(x: Input, a: Agent, c: Agent) {
    c == if a.peerId == x.req.peerId then a.(ready := x.req.ready && a.id in x.req.activeAgents) else a
  }

  /** The heartbeat's own peer runs the execution, says so, and its lease has not run out. */
  ghost predicate Alive(b: Board, x: Input, t: Task) {
    && t.attempts != [] && Underway(t.state) && x.req.peerId in b.peers
    && Last(t).incarnation == b.peers[x.req.peerId].incarnation
    && Last(t).agentId in b.agents && b.agents[Last(t).agentId].peerId == x.req.peerId
    && Last(t).executionId in x.req.running && x.now < Last(t).leaseUntil
  }

  /** The last attempt's lease is extended, and nothing else of the task changes. */
  ghost predicate Extended(x: Input, t: Task, u: Task) {
    t.attempts != [] && var n := |t.attempts| - 1;
    u == t.(attempts := t.attempts[n := t.attempts[n].(leaseUntil := x.now + 30_000_000_000)])
  }

  ghost predicate HeartbeatDone(b: Board, x: Input, out: Outcome) {
    var c, pid, l := out.board, x.req.peerId, b.leadership;
    && pid in b.peers && out.event == None
    && c == b.(peers := c.peers, agents := c.agents, leadership := c.leadership, tasks := c.tasks, serverTime := c.serverTime)
    && c.peers == b.peers[pid := b.peers[pid].(lastSeen := x.now, leaseUntil := x.now + 30_000_000_000, state := if x.req.ready then Ready else Paused)]
    && c.agents.Keys == b.agents.Keys && (forall id :: id in b.agents ==> AgentPolled(x, b.agents[id], c.agents[id]))
    && c.leadership == (if l.agentId in b.agents && b.agents[l.agentId].peerId == pid && c.agents[l.agentId].ready && x.req.term == l.term
                        then l.(leaseUntil := x.now + 30_000_000_000) else l)
    && c.tasks.Keys == b.tasks.Keys
    && (forall id :: id in b.tasks ==>
          if Alive(b, x, b.tasks[id]) then Extended(x, b.tasks[id], c.tasks[id]) else c.tasks[id] == b.tasks[id])
  }

  lemma BeatTask(b: Board, x: Input, id: string)
    requires x.req.peerId in b.peers && id in b.tasks
    ensures var c := Beat(b, x.req.peerId, x);
            id in c.tasks && if Alive(b, x, b.tasks[id]) then Extended(x, b.tasks[id], c.tasks[id]) else c.tasks[id] == b.tasks[id]
  {
    StatesAre(b.tasks[id].state);
  }

  lemma BeatDoes(b: Board, x: Input)
    requires x.req.peerId in b.peers
    ensures HeartbeatDone(b, x, Outcome(Beat(b, x.req.peerId, x), None))
  {
    hide Alive, Extended;
    forall id | id in b.tasks
      ensures var c := Beat(b, x.req.peerId, x);
              id in c.tasks && if Alive(b, x, b.tasks[id]) then Extended(x, b.tasks[id], c.tasks[id]) else c.tasks[id] == b.tasks[id]
    {
      BeatTask(b, x, id);
    }
    hide KeptAlive;
  }

  /** A heartbeat is taken from every admitted peer. It renews the peer's lease, the leader's if it is
      the peer's own and ready in its term, and exactly the leases of the executions it reports alive. */
  lemma Heartbeats(b: Board, x: Input)
    requires x.req.op == Heartbeat
    ensures Step(b, x).Ok? <==> Admitted(b, x)
    ensures Step(b, x).Ok? ==> HeartbeatDone(b, x, Step(b, x).value) && Step(b, x).value.board.serverTime == x.now
  {
    hide Step, Beat, Admitted, HeartbeatDone;
    StepIs(b, x);
    if Admitted(b, x) {
      AdmittedPeer(b, x);
      BeatDoes(b, x);
      AnyTime(b, x, Outcome(Beat(b, x.req.peerId, x), None), x.now);
    }
  }

  lemma AdmittedPeer(b: Board, x: Input)
    requires Admitted(b, x)
    ensures x.req.peerId in b.peers
  {
  }

  lemma AnyTime(b: Board, x: Input, out: Outcome, now: int)
    requires HeartbeatDone(b, x, out)
    ensures HeartbeatDone(b, x, out.(board := out.board.(serverTime := now)))
  {
    hide AgentPolled, Alive, Extended;
  }

  // Leaving.

  ghost predicate RunsHere(b: Board, x: Input, t: Task) {
    t.attempts != [] && Underway(t.state) && Last(t).agentId in b.agents && b.agents[Last(t).agentId].peerId == x.req.peerId
  }

  ghost predicate LeaveDone(b: Board, x: Input, out: Outcome) {
    var c, pid, l := out.board, x.req.peerId, b.leadership;
    && pid in b.peers && OnlyPeers(b, c) && Told(b, x, "peer.left", "", out.event)
    && c.peers == b.peers[pid := b.peers[pid].(state := Revoked, leaseUntil := x.now)] && c.peerSecrets == b.peerSecrets - {pid}
    && c.agents.Keys == b.agents.Keys
    && (forall id :: id in b.agents ==> c.agents[id] == if b.agents[id].peerId == pid then b.agents[id].(ready := false) else b.agents[id])
    && c.leadership == (if l.agentId in b.agents && b.agents[l.agentId].peerId == pid then l.(leaseUntil := x.now) else l)
  }

  lemma DrainingIs(b: Board, x: Input)
    ensures Draining(b, x.req.peerId) == {} <==> forall id :: id in b.tasks ==> !RunsHere(b, x, b.tasks[id])
  {
    forall id | id in b.tasks ensures id in Draining(b, x.req.peerId) <==> RunsHere(b, x, b.tasks[id]) {
      StatesAre(b.tasks[id].state);
    }
  }

  /** A peer may leave exactly when nothing is under way on it; it loses its token, its agents are not
      ready and a leader among them has no lease any more. */
  lemma Leaving(b: Board, x: Input)
    requires x.req.op == Leave
    ensures Step(b, x).Ok? <==> Admitted(b, x) && forall id :: id in b.tasks ==> !RunsHere(b, x, b.tasks[id])
    ensures Step(b, x).Ok? ==> LeaveDone(b, x, Step(b, x).value) && Step(b, x).value.board.serverTime == x.now
  {
    hide Step, Draining, RunsHere, Admitted, EventOf;
    StepIs(b, x);
    DrainingIs(b, x);
    if Admitted(b, x) {
      AdmittedPeer(b, x);
      BoardEvent(b, Revoke(b, x.req.peerId, x.now), x, "peer.left", "");
    }
  }

  // Leadership.

  ghost predicate OfferedAnew(b: Board, x: Input, aid: string, t: Task, u: Task) {
    u == if Waiting(t.state) then t.(leaderId := aid, leaderTerm := b.leadership.term + 1, version := t.version + 1, updatedAt := x.now) else t
  }

  /** A new term under the given agent; all that waits is offered again under it. */
  ghost predicate AppointDone(b: Board, x: Input, aid: string, out: Outcome) {
    var c := out.board;
    && c == b.(leadership := c.leadership, tasks := c.tasks, serverTime := c.serverTime) && Told(b, x, "leader.changed", aid, out.event)
    && c.leadership == b.leadership.(agentId := aid, term := b.leadership.term + 1, leaseUntil := x.now + 30_000_000_000)
    && c.tasks.Keys == b.tasks.Keys && (forall id :: id in b.tasks ==> OfferedAnew(b, x, aid, b.tasks[id], c.tasks[id]))
  }

  lemma AppointDoes(b: Board, x: Input, aid: string)
    ensures AppointDone(b, x, aid, Appointed(b, x, aid))
  {
    hide Told, EventOf, Waiting;
    BoardEvent(b, Appoint(b, aid, x.now), x, "leader.changed", aid);
    forall id | id in b.tasks ensures OfferedAnew(b, x, aid, b.tasks[id], Appoint(b, aid, x.now).tasks[id]) {
      StatesAre(b.tasks[id].state);
    }
  }

  lemma AppointAnyTime(b: Board, x: Input, aid: string, out: Outcome, now: int)
    requires AppointDone(b, x, aid, out)
    ensures AppointDone(b, x, aid, out.(board := out.board.(serverTime := now)))
  {
    hide OfferedAnew, Told;
  }

  /** An endpoint that may lead: of that role, on a peer that has not left. */
  ghost predicate MayLead(b: Board, aid: string) {
    aid in b.agents && b.agents[aid].role == "leader" && b.agents[aid].peerId in b.peers && b.peers[b.agents[aid].peerId].state != Revoked
  }

  lemma HandoverTargetIs(b: Board, x: Input)
    requires Authentic(b, x)
    ensures HandoverTarget(b, x).Ok? <==>
            (Operator(x) || Leads(b, x)) && ResolveAgent(b, x.req.target).Ok? && MayLead(b, ResolveAgent(b, x.req.target).value)
    ensures HandoverTarget(b, x).Ok? ==> HandoverTarget(b, x) == ResolveAgent(b, x.req.target)
  {
    hide LeaderGuard, ResolveAgent, Authentic, Leads;
    LeaderGuardIs(b, x);
  }

  /** Handing over is for operators and the current leader. */
  lemma Handovers(b: Board, x: Input)
    requires x.req.op == Handover
    ensures Step(b, x).Ok? <==>
            Admitted(b, x) && (Operator(x) || Leads(b, x)) && ResolveAgent(b, x.req.target).Ok? && MayLead(b, ResolveAgent(b, x.req.target).value)
    ensures Step(b, x).Ok? ==>
              AppointDone(b, x, ResolveAgent(b, x.req.target).value, Step(b, x).value) && Step(b, x).value.board.serverTime == x.now
  {
    hide Step, HandoverTarget, ResolveAgent, MayLead, Leads, Operator, AppointDone, Appointed, Authentic, WellMade;
    StepIs(b, x);
    if Authentic(b, x) {
      AuthenticPeer(b, x);
      HandoverTargetIs(b, x);
      if HandoverTarget(b, x).Ok? {
        var aid := HandoverTarget(b, x).value;
        AppointDoes(b, x, aid);
        AppointAnyTime(b, x, aid, Appointed(b, x, aid), x.now);
      }
    }
  }

  ghost predicate CanStandIn(b: Board, x: Input, id: string) {
    && id in b.agents && b.agents[id].ready && b.agents[id].peerId in b.peers
    && b.peers[b.agents[id].peerId].state == Ready && x.now < b.peers[b.agents[id].peerId].leaseUntil
  }

  /** The first on the list who can stand in. */
  ghost predicate StandsIn(b: Board, x: Input, id: string) {
    exists k :: 0 <= k < |b.leadership.standbys| && b.leadership.standbys[k] == id && CanStandIn(b, x, id)
                && forall j :: 0 <= j < k ==> !CanStandIn(b, x, b.leadership.standbys[j])
  }

  lemma {:induction false} FirstReadyIs(b: Board, x: Input, ids: seq<string>, id: string)
    ensures FirstReady(b, ids, x.now) == Some(id) <==>
            exists k :: 0 <= k < |ids| && ids[k] == id && CanStandIn(b, x, id) && forall j :: 0 <= j < k ==> !CanStandIn(b, x, ids[j])
  {
    if ids != [] {
      assert ReadyStandby(b, ids[0], x.now) <==> CanStandIn(b, x, ids[0]);
      hide ReadyStandby, CanStandIn;
      FirstReadyIs(b, x, ids[1..], id);
      if k :| 0 <= k < |ids[1..]| && ids[1..][k] == id && CanStandIn(b, x, id) && forall j :: 0 <= j < k ==> !CanStandIn(b, x, ids[1..][j]) {
        if !CanStandIn(b, x, ids[0]) {
          assert ids[k + 1] == id;
          forall j | 0 <= j < k + 1 ensures !CanStandIn(b, x, ids[j]) {
            if j > 0 {
              assert ids[1..][j - 1] == ids[j];
            }
          }
        }
      }
      if k :| 0 <= k < |ids| && ids[k] == id && CanStandIn(b, x, id) && forall j :: 0 <= j < k ==> !CanStandIn(b, x, ids[j]) {
        if k > 0 {
          assert ids[1..][k - 1] == id;
          assert forall j :: 0 <= j < k - 1 ==> ids[1..][j] == ids[j + 1];
        }
      }
    }
  }

  /** Leadership is acquired only by the first standby that can stand in, where that is allowed and the
      leader's lease has run out. */
  lemma Acquisitions(b: Board, x: Input)
    requires x.req.op == Acquire
    ensures Step(b, x).Ok? <==>
            Admitted(b, x) && Owns(b, x) && b.leadership.autoFailover && b.leadership.leaseUntil <= x.now && StandsIn(b, x, x.req.agentId)
    ensures Step(b, x).Ok? ==> AppointDone(b, x, x.req.agentId, Step(b, x).value) && Step(b, x).value.board.serverTime == x.now
  {
    hide Step, OwnAgent, FirstReady, CanStandIn, Owns, AppointDone, Appointed, Authentic, WellMade;
    StepIs(b, x);
    OwnAgentIs(b, x);
    FirstReadyIs(b, x, b.leadership.standbys, x.req.agentId);
    AppointDoes(b, x, x.req.agentId);
    AppointAnyTime(b, x, x.req.agentId, Appointed(b, x, x.req.agentId), x.now);
    if Authentic(b, x) {
      AuthenticPeer(b, x);
    }
  }

  /** Pausing is for operators. */
  lemma Pauses(b: Board, x: Input)
    requires x.req.op == BoardPause
    ensures Step(b, x).Ok? <==> Admitted(b, x) && Operator(x)
    ensures Step(b, x).Ok? ==>
              Step(b, x).value.board == b.(paused := x.req.paused, serverTime := x.now) && Told(b, x, "board.paused", "", Step(b, x).value.event)
  {
    hide Step, Admitted, EventOf;
    StepIs(b, x);
    BoardEvent(b, b.(paused := x.req.paused), x, "board.paused", "");
    if Admitted(b, x) {
      AdmittedPeer(b, x);
    }
  }

  // Standbys.

  /** A reference names an agent that may be put on the list. */
  ghost predicate NamesLeader(b: Board, ref: string) {
    ResolveAgent(b, ref).Ok? && b.agents[ResolveAgent(b, ref).value].role == "leader"
  }

  ghost predicate FirstAt(named: seq<string>, i: int, id: string) {
    0 <= i < |named| && named[i] == id && forall k :: 0 <= k < i ==> named[k] != id
  }

  /** Those named, each once, in the order in which they are first named. */
  ghost predicate OnceEach(named: seq<string>, ids: seq<string>) {
    && (forall i, j :: 0 <= i < j < |ids| ==> ids[i] != ids[j])
    && (forall id :: id in ids <==> id in named)
    && (forall i, j, p, q :: 0 <= i < j < |ids| && FirstAt(named, p, ids[i]) && FirstAt(named, q, ids[j]) ==> p < q)
  }

  lemma NoneNamed()
    ensures OnceEach([], [])
  {
  }

  lemma OnceEachSnoc(named: seq<string>, id: string, ids: seq<string>)
    requires OnceEach(named, ids)
    ensures OnceEach(named + [id], if id in ids then ids else ids + [id])
  {
    hide FirstAt;
    var all, now := named + [id], if id in ids then ids else ids + [id];
    forall i, j, p, q | 0 <= i < j < |now| && FirstAt(all, p, now[i]) && FirstAt(all, q, now[j]) ensures p < q {
      assert ids[i] in ids;
      FirstAtSnoc(named, id, p, now[i]);
      FirstAtSnoc(named, id, q, now[j]);
      if j < |ids| {
        assert ids[j] in ids;
      }
    }
  }

  lemma FirstAtSnoc(named: seq<string>, id: string, p: int, x: string)
    ensures x in named ==> (FirstAt(named + [id], p, x) <==> FirstAt(named, p, x)) && (FirstAt(named + [id], p, x) ==> 0 <= p < |named|)
    ensures x !in named && FirstAt(named + [id], p, x) ==> p == |named|
  {
    var all := named + [id];
    assert forall k :: 0 <= k < |named| ==> all[k] == named[k];
    assert all[|named|] == id;
  }

  ghost predicate AgentsNamed(b: Board, refs: seq<string>) {
    forall i :: 0 <= i < |refs| ==> ResolveAgent(b, refs[i]).Ok?
  }

  ghost function NamedAgents(b: Board, refs: seq<string>): seq<string>
    requires AgentsNamed(b, refs)
  {
    seq(|refs|, i requires 0 <= i < |refs| => ResolveAgent(b, refs[i]).value)
  }

  /** One reference at a time, at the end of the list. */
  lemma {:induction false} StandbyIdsSnoc(b: Board, refs: seq<string>, ref: string, ids: seq<string>)
    ensures var r := StandbyIds(b, refs + [ref], ids);
            var before := StandbyIds(b, refs, ids);
            && (r.Ok? <==> before.Ok? && NamesLeader(b, ref))
            && (r.Ok? ==> var id := ResolveAgent(b, ref).value;
                          r.value == if id in before.value then before.value else before.value + [id])
    decreases |refs|
  {
    hide ResolveAgent;
    var all := refs + [ref];
    if refs == [] {
      assert all == [ref] && [ref][1..] == [];
    } else {
      assert all[0] == refs[0] && all[1..] == refs[1..] + [ref];
      var found := ResolveAgent(b, refs[0]);
      if found.Ok? {
        StandbyIdsSnoc(b, refs[1..], ref, if found.value in ids then ids else ids + [found.value]);
      }
    }
  }

  lemma {:induction false} StandbysAre(b: Board, refs: seq<string>)
    ensures StandbyIds(b, refs, []).Ok? <==> forall i :: 0 <= i < |refs| ==> NamesLeader(b, refs[i])
    ensures StandbyIds(b, refs, []).Ok? ==> AgentsNamed(b, refs) && OnceEach(NamedAgents(b, refs), StandbyIds(b, refs, []).value)
    decreases |refs|
  {
    hide ResolveAgent, OnceEach;
    if refs == [] {
      NoneNamed();
      assert NamedAgents(b, refs) == [];
    } else {
      var n := |refs| - 1;
      var init := refs[..n];
      assert refs == init + [refs[n]];
      StandbysAre(b, init);
      StandbyIdsSnoc(b, init, refs[n], []);
      assert forall i :: 0 <= i < n ==> init[i] == refs[i];
      hide StandbyIds;
      if StandbyIds(b, refs, []).Ok? {
        OnceEachSnoc(NamedAgents(b, init), ResolveAgent(b, refs[n]).value, StandbyIds(b, init, []).value);
        assert NamedAgents(b, refs) == NamedAgents(b, init) + [ResolveAgent(b, refs[n]).value];
      }
    }
  }

  /** The standbys are for operators to approve: at most ten references, all to agents of the leading role. */
  lemma StandbyLists(b: Board, x: Input)
    requires x.req.op == Standbys
    ensures Step(b, x).Ok? <==>
            Admitted(b, x) && Operator(x) && |x.req.standbys| <= 10 && forall i :: 0 <= i < |x.req.standbys| ==> NamesLeader(b, x.req.standbys[i])
    ensures Step(b, x).Ok? ==>
              var c := Step(b, x).value.board;
              && AgentsNamed(b, x.req.standbys) && OnceEach(NamedAgents(b, x.req.standbys), c.leadership.standbys)
              && c == b.(leadership := b.leadership.(standbys := c.leadership.standbys, autoFailover := x.req.autoFailover), serverTime := x.now)
              && Told(b, x, "leader.standbys", "", Step(b, x).value.event)
  {
    hide Step, Admitted, EventOf, StandbyIds, NamesLeader, OnceEach, NamedAgents, AgentsNamed;
    StepIs(b, x);
    StandbysAre(b, x.req.standbys);
    if Admitted(b, x) {
      AdmittedPeer(b, x);
      if StandbyIds(b, x.req.standbys, []).Ok? {
        BoardEvent(b, b.(leadership := b.leadership.(standbys := StandbyIds(b, x.req.standbys, []).value, autoFailover := x.req.autoFailover)),
                   x, "leader.standbys", "");
      }
    }
  }

  // Messages.

  /** What a message may be about: no task, or one whose worker or leader speaks, in its current attempt if it names one. */
  ghost predicate MaySpeak(b: Board, x: Input) {
    x.req.taskId != "" ==>
      && ResolveTask(b, x.req.taskId).Ok?
      && var t := b.tasks[ResolveTask(b, x.req.taskId).value];
         && (t.agentId == x.req.agentId || b.leadership.agentId == x.req.agentId)
         && (x.req.attemptId != "" ==> t.attempts != [] && Last(t).id == x.req.attemptId)
  }

  ghost predicate MessageSent(b: Board, x: Input, event: Option<Event>)
    requires ResolveAgent(b, x.req.target).Ok? && MaySpeak(b, x)
  {
    var about := if x.req.taskId == "" then None else Some(ResolveTask(b, x.req.taskId).value);
    var thread := if about.None? then "" else b.tasks[about.value].threadId;
    event == Some(Event(x.req.id, if x.req.op == Objective then "objective" else "message", x.req.agentId,
                        ResolveAgent(b, x.req.target).value, if about.None? then "" else about.value,
                        if about.None? then NoTask(b) else if b.tasks[about.value].attempts != [] then Last(b.tasks[about.value]).id else "",
                        if thread == "" then x.req.id else thread, x.now))
  }

  /** A message changes nothing but the time; an objective is for the leader. */
  lemma Messages(b: Board, x: Input)
    requires (x.req.op == Send || x.req.op == Objective)
    ensures Step(b, x).Ok? <==>
            Admitted(b, x) && Owns(b, x) && ResolveAgent(b, x.req.target).Ok? && ValidText(x.req.text) && MaySpeak(b, x)
            && (x.req.op == Objective ==> ResolveAgent(b, x.req.target).value == b.leadership.agentId)
    ensures Step(b, x).Ok? ==> Step(b, x).value.board == b.(serverTime := x.now) && MessageSent(b, x, Step(b, x).value.event)
  {
    hide Step, OwnAgent, ResolveAgent, ResolveTask, Owns, ValidText, Authentic, WellMade;
    StepIs(b, x);
    OwnAgentIs(b, x);
    if Authentic(b, x) {
      AuthenticPeer(b, x);
    }
  }

  // Assigning.

  ghost predicate TasksNamed(b: Board, refs: seq<string>) {
    forall i :: 0 <= i < |refs| ==> ResolveTask(b, refs[i]).Ok?
  }

  ghost function NamedTasks(b: Board, refs: seq<string>): seq<string>
    requires TasksNamed(b, refs)
  {
    seq(|refs|, i requires 0 <= i < |refs| => ResolveTask(b, refs[i]).value)
  }

  lemma {:induction false} DependencyIdsSnoc(b: Board, refs: seq<string>, ref: string, ids: seq<string>)
    ensures var r := DependencyIds(b, refs + [ref], ids);
            var before := DependencyIds(b, refs, ids);
            && (r.Ok? <==> before.Ok? && ResolveTask(b, ref).Ok?)
            && (r.Ok? ==> var id := ResolveTask(b, ref).value;
                          r.value == if id in before.value then before.value else before.value + [id])
    decreases |refs|
  {
    hide ResolveTask;
    var all := refs + [ref];
    if refs == [] {
      assert all == [ref] && [ref][1..] == [];
    } else {
      assert all[0] == refs[0] && all[1..] == refs[1..] + [ref];
      var found := ResolveTask(b, refs[0]);
      if found.Ok? {
        DependencyIdsSnoc(b, refs[1..], ref, if found.value in ids then ids else ids + [found.value]);
      }
    }
  }

  lemma {:induction false} DependenciesAreNamed(b: Board, refs: seq<string>)
    ensures DependencyIds(b, refs, []).Ok? <==> TasksNamed(b, refs)
    ensures DependencyIds(b, refs, []).Ok? ==> OnceEach(NamedTasks(b, refs), DependencyIds(b, refs, []).value)
    decreases |refs|
  {
    hide ResolveTask, OnceEach;
    if refs == [] {
      NoneNamed();
      assert DependencyIds(b, refs, []) == Ok([]);
      assert NamedTasks(b, refs) == [];
    } else {
      var n := |refs| - 1;
      var init := refs[..n];
      assert refs == init + [refs[n]];
      DependenciesAreNamed(b, init);
      DependencyIdsSnoc(b, init, refs[n], []);
      assert forall i :: 0 <= i < n ==> init[i] == refs[i];
      hide DependencyIds;
      if DependencyIds(b, refs, []).Ok? {
        OnceEachSnoc(NamedTasks(b, init), ResolveTask(b, refs[n]).value, DependencyIds(b, init, []).value);
        assert NamedTasks(b, refs) == NamedTasks(b, init) + [ResolveTask(b, refs[n]).value];
      }
    }
  }

  function Unfinished(b: Board): set<string> {
    set id | id in b.tasks && b.tasks[id].state !in {Completed, Failed, Cancelled, Expired}
  }

  /** A worker for the runner and the project. */
  ghost predicate Offers(b: Board, aid: string, runner: string, project: string) {
    aid in b.agents && b.agents[aid].role == "worker" && b.agents[aid].runner == runner && project in b.agents[aid].projects
  }

  ghost predicate WellDescribed(r: Request) {
    && ValidText(r.text) && ValidText(r.criteria) && ValidName(r.project) && |r.base| <= 256
    && 30 <= r.maxRuntimeSeconds <= 86400 && |r.dependencies| <= 100
  }

  /** The new task, field by field: offered if all it depends on is completed, else queued. */
  ghost predicate TaskMade(b: Board, x: Input, t: Task)
    requires ResolveAgent(b, x.req.target).Ok? && TasksNamed(b, x.req.dependencies)
  {
    var r := x.req;
    && t.id == x.ids.task && t.number == b.nextTask + 1 && t.threadId == r.id && t.objective == r.text && t.criteria == r.criteria
    && t.project == r.project && t.base == r.base && t.runner == r.runner && t.agentId == ResolveAgent(b, r.target).value
    && t.leaderId == r.agentId && t.leaderTerm == b.leadership.term && t.version == 1
    && t.maxRuntimeSeconds == r.maxRuntimeSeconds && t.createdAt == x.now && t.updatedAt == x.now
    && OnceEach(NamedTasks(b, r.dependencies), t.dependencies)
    && t.state == (if DependenciesDone(b, t) then Offered else Queued)
    && t.attempts == [Attempt(x.ids.attempt, 1, t.agentId, "", "", t.state, 0, "", None, None, "", "")]
  }

  ghost predicate AssignDone(b: Board, x: Input, out: Outcome)
    requires ResolveAgent(b, x.req.target).Ok? && TasksNamed(b, x.req.dependencies)
  {
    var c, tid := out.board, x.ids.task;
    && tid in c.tasks && c == b.(nextTask := b.nextTask + 1, tasks := b.tasks[tid := c.tasks[tid]], serverTime := c.serverTime)
    && TaskMade(b, x, c.tasks[tid])
    && out.event == Some(Event(x.req.id, "task.assigned", x.req.agentId, c.tasks[tid].agentId, tid, x.ids.attempt,
                               if x.req.id == "" then x.req.id else c.tasks[tid].threadId, x.now))
  }

  lemma UnfinishedIs(b: Board)
    ensures Pending(b) == Unfinished(b)
  {
  }

  lemma AssignRequestDoes(b: Board, x: Input)
    requires Authentic(b, x)
    ensures var r := AssignRequest(b, x);
            && (r.Ok? <==>
                Leads(b, x) && ResolveAgent(b, x.req.target).Ok? && Offers(b, ResolveAgent(b, x.req.target).value, x.req.runner, x.req.project)
                && WellDescribed(x.req) && |Unfinished(b)| < 500 && TasksNamed(b, x.req.dependencies))
            && (r.Ok? ==> AssignDone(b, x, r.value))
  {
    hide LeaderGuard, ResolveAgent, Authentic, Leads, ValidText, ValidName, DependencyIds, Pending, Unfinished, OnceEach, TasksNamed, NamedTasks,
         AllCompleted, DependenciesDone;
    LeaderGuardIs(b, x);
    UnfinishedIs(b);
    DependenciesAreNamed(b, x.req.dependencies);
    if AssignRequest(b, x).Ok? {
      var deps := DependencyIds(b, x.req.dependencies, []).value;
      DependenciesAre(b, NewTask(b, x, x.req.agentId, ResolveAgent(b, x.req.target).value, deps));
    }
  }

  /** Tasks are assigned by the current leader, to a worker that offers the runner and the project. */
  lemma Assignments(b: Board, x: Input)
    requires x.req.op == Assign
    ensures Step(b, x).Ok? <==>
            && Admitted(b, x) && Leads(b, x) && ResolveAgent(b, x.req.target).Ok?
            && Offers(b, ResolveAgent(b, x.req.target).value, x.req.runner, x.req.project)
            && WellDescribed(x.req) && |Unfinished(b)| < 500 && TasksNamed(b, x.req.dependencies)
    ensures Step(b, x).Ok? ==> AssignDone(b, x, Step(b, x).value) && Step(b, x).value.board.serverTime == x.now
  {
    hide Step, AssignRequest, Leads, ResolveAgent, Offers, WellDescribed, Unfinished, TasksNamed, TaskMade, Authentic, WellMade;
    StepIs(b, x);
    if Authentic(b, x) {
      AuthenticPeer(b, x);
      AssignRequestDoes(b, x);
    }
  }

  // Registering and joining.

  ghost predicate WellProfiled(r: Request) {
    && ValidName(r.name) && (r.role == "worker" || r.role == "leader") && (r.runner == "claude" || r.runner == "codex")
    && 1 <= r.maxActive <= 16 && |r.projects| <= 32 && |r.capabilities| <= 32
    && (forall p :: p in r.projects ==> ValidName(p)) && (forall c :: c in r.capabilities ==> ValidName(c))
  }

  ghost predicate RegisteredAs(b: Board, pid: string, r: Request, aid: string) {
    && aid in b.agents && b.agents[aid].peerId == pid && b.agents[aid].name == r.name
  }

  ghost predicate SameOffer(a: Agent, r: Request) {
    a.role == r.role && a.runner == r.runner && a.projects == r.projects && a.capabilities == r.capabilities && a.maxActive == r.maxActive
  }

  ghost predicate Unregistered(b: Board, pid: string, r: Request) {
    forall aid :: !RegisteredAs(b, pid, r, aid)
  }

  /** A proper profile, and room for a new endpoint or the same offer as the known one of that name. */
  ghost predicate MayRegister(b: Board, pid: string, r: Request) {
    WellProfiled(r) && if Unregistered(b, pid, r) then |b.agents| < 100
                       else exists aid :: RegisteredAs(b, pid, r, aid) && SameOffer(b.agents[aid], r)
  }

  /** One endpoint of the peer's goes by a name, at most. */
  ghost predicate OneEndpoint(b: Board, pid: string, name: string) {
    forall a, c | a in b.agents && c in b.agents && b.agents[a].peerId == pid && b.agents[c].peerId == pid ::
      b.agents[a].name == name && b.agents[c].name == name ==> a == c
  }

  /** A new endpoint is filed under its id; a known one is left as it is. */
  ghost predicate EndpointFiled(b: Board, pid: string, r: Request, id: string, c: Board, aid: string)
    requires pid in b.peers
  {
    if Unregistered(b, pid, r) then
      aid == id && c == b.(agents := b.agents[id := Agent(id, pid, r.name, b.peers[pid].sessionName + "/" + r.name, r.role, r.runner,
                                                          r.projects, r.capabilities, r.maxActive, false)])
    else RegisteredAs(b, pid, r, aid) && SameOffer(b.agents[aid], r) && c == b
  }

  lemma RegisterAgentDoes(b: Board, pid: string, r: Request, id: string)
    requires pid in b.peers && OneEndpoint(b, pid, r.name)
    ensures var placed := RegisterAgent(b, pid, r, id);
            && (placed.Ok? <==> MayRegister(b, pid, r))
            && (placed.Ok? ==> EndpointFiled(b, pid, r, id, placed.value.board, placed.value.id))
  {
    hide ValidName;
    assert forall aid :: aid in Endpoints(b, pid, r.name) <==> RegisteredAs(b, pid, r, aid);
    assert Endpoints(b, pid, r.name) == {} <==> Unregistered(b, pid, r);
    assert ValidProfile(r) <==> WellProfiled(r);
    hide Endpoints, ValidProfile, WellProfiled;
    if Endpoints(b, pid, r.name) != {} {
      forall a, c | RegisteredAs(b, pid, r, a) && RegisteredAs(b, pid, r, c) ensures a == c {
      }
    }
  }

  lemma KeyedEndpoints(b: Board, pid: string, name: string)
    requires Keyed(b)
    ensures OneEndpoint(b, pid, name)
  {
  }

  /** Registering an endpoint of one's own peer. */
  lemma Registrations(b: Board, x: Input)
    requires x.req.op == Register && Keyed(b)
    ensures Step(b, x).Ok? <==>
            Admitted(b, x) && MayRegister(b, x.req.peerId, x.req)
    ensures Step(b, x).Ok? ==>
              var out := Step(b, x).value;
              && x.req.peerId in b.peers
              && (exists c, aid :: EndpointFiled(b, x.req.peerId, x.req, x.ids.agent, c, aid) && out.board == c.(serverTime := x.now))
              && Told(b, x, "agent.registered", "", out.event)
  {
    hide Step, Admitted, EventOf, RegisterAgent, EndpointFiled, MayRegister, OneEndpoint, Keyed;
    StepIs(b, x);
    if Admitted(b, x) {
      AdmittedPeer(b, x);
      KeyedEndpoints(b, x.req.peerId, x.req.name);
      RegisterAgentDoes(b, x.req.peerId, x.req, x.ids.agent);
      var placed := RegisterAgent(b, x.req.peerId, x.req, x.ids.agent);
      if placed.Ok? {
        assert EndpointFiled(b, x.req.peerId, x.req, x.ids.agent, placed.value.board, placed.value.id);
        BoardEvent(b, placed.value.board, x, "agent.registered", "");
      }
    }
  }

  // Joining, and founding the board.

  ghost predicate HasSession(b: Board, x: Input, pid: string) {
    pid in b.peers && b.peers[pid].userId == x.auth.userId && b.peers[pid].sessionId == x.req.sessionId
  }

  ghost predicate NewSession(b: Board, x: Input) {
    forall pid :: !HasSession(b, x, pid)
  }

  ghost predicate OneSession(b: Board, x: Input) {
    forall p, q :: HasSession(b, x, p) && HasSession(b, x, q) ==> p == q
  }

  /** A token, a session and an incarnation in proper form, and room or the token the session came with. */
  ghost predicate MayJoin(b: Board, x: Input) {
    && 32 <= |x.auth.peerToken| <= 256 && ValidId(x.req.sessionId) && ValidId(x.req.incarnation) && ValidLabel(x.req.sessionName)
    && if NewSession(b, x) then |b.peers| < 100 else exists pid :: HasSession(b, x, pid) && ItsToken(b, x, pid)
  }

  ghost predicate ItsToken(b: Board, x: Input, pid: string) {
    pid in b.peers && b.peers[pid].state != Revoked && pid in b.peerSecrets && b.peerSecrets[pid] == Hash(x.auth.peerToken)
  }

  ghost predicate Renamed(x: Input, pid: string, a: Agent, c: Agent) {
    c == if a.peerId == pid then a.(displayLabel := x.req.sessionName + "/" + a.name, ready := false) else a
  }

  /** A new peer with its token, or the known one under its new incarnation and name, with its agents not ready. */
  ghost predicate Joined(b: Board, x: Input, c: Board, pid: string) {
    if NewSession(b, x) then
      && pid == x.ids.peer
      && c == b.(peers := b.peers[pid := Peer(pid, x.auth.userId, x.req.sessionId, x.req.sessionName, x.req.incarnation, x.now,
                                              x.now + 30_000_000_000, Registered)],
                 peerSecrets := b.peerSecrets[pid := Hash(x.auth.peerToken)])
    else
      && HasSession(b, x, pid) && ItsToken(b, x, pid) && c == b.(peers := c.peers, agents := c.agents)
      && c.peers == b.peers[pid := b.peers[pid].(incarnation := x.req.incarnation, sessionName := x.req.sessionName,
                                                 state := Registered, lastSeen := x.now, leaseUntil := x.now + 30_000_000_000)]
      && c.agents.Keys == b.agents.Keys && forall id :: id in b.agents ==> Renamed(x, pid, b.agents[id], c.agents[id])
  }

  lemma JoinBoardDoes(b: Board, x: Input)
    requires OneSession(b, x)
    ensures JoinBoard(b, x).Ok? <==> MayJoin(b, x)
    ensures JoinBoard(b, x).Ok? ==> Joined(b, x, JoinBoard(b, x).value.board, JoinBoard(b, x).value.id)
  {
    hide ValidId, ValidLabel;
    assert forall pid :: pid in Sessions(b, x.auth.userId, x.req.sessionId) <==> HasSession(b, x, pid);
    assert Sessions(b, x.auth.userId, x.req.sessionId) == {} <==> NewSession(b, x);
    hide Sessions, HasSession;
    if !NewSession(b, x) {
      var pid :| HasSession(b, x, pid);
      assert forall q :: HasSession(b, x, q) ==> q == pid;
      TokenIs(x.auth.peerToken, b.peerSecrets, pid);
    }
  }

  lemma KeyedSessions(b: Board, x: Input)
    requires Keyed(b)
    ensures OneSession(b, x)
  {
  }

  lemma JoinedEndpoints(b: Board, x: Input, c: Board, pid: string, name: string)
    requires Keyed(b) && x.ids.peer !in b.peers && Joined(b, x, c, pid)
    ensures pid in c.peers && OneEndpoint(c, pid, name)
  {
    KeyedEndpoints(b, pid, name);
  }

  lemma JoinedOnce(b: Board, x: Input, c: Board, pid: string, d: Board, qid: string)
    requires OneSession(b, x) && Joined(b, x, c, pid) && Joined(b, x, d, qid)
    ensures c == d && pid == qid
  {
    if !NewSession(b, x) {
      forall id | id in b.agents ensures c.agents[id] == d.agents[id] {
        assert Renamed(x, pid, b.agents[id], c.agents[id]) && Renamed(x, pid, b.agents[id], d.agents[id]);
      }
      assert c.agents == d.agents;
    }
  }

  /** The peer that joins, on the board it makes; then its endpoint, if it names one. */
  ghost predicate JoinedAs(x: Input, mid: Board, pid: string, c: Board) {
    if x.req.name == "" then c == mid
    else pid in mid.peers && exists aid :: EndpointFiled(mid, pid, x.req, x.ids.agent, c, aid)
  }

  ghost predicate MayJoinAs(b: Board, x: Input, r: Request) {
    exists mid, pid :: Joined(b, x, mid, pid) && MayRegister(mid, pid, r)
  }

  ghost predicate JoinDone(b: Board, x: Input, c: Board) {
    exists mid, pid :: Joined(b, x, mid, pid) && JoinedAs(x, mid, pid, c)
  }

  lemma JoinRequestDoes(b: Board, x: Input)
    requires Keyed(b) && x.ids.peer !in b.peers
    ensures var r := JoinRequest(b, x);
            && (r.Ok? <==> MayJoin(b, x) && (x.req.name != "" ==> MayJoinAs(b, x, x.req)))
            && (r.Ok? ==> JoinDone(b, x, r.value.board) && Told(b, x, "peer.joined", "", r.value.event))
  {
    hide JoinBoard, RegisterAgent, EventOf, MayJoin, Joined, OneSession, OneEndpoint, Keyed, MayRegister, EndpointFiled;
    KeyedSessions(b, x);
    JoinBoardDoes(b, x);
    if JoinBoard(b, x).Ok? {
      var p := JoinBoard(b, x).value;
      JoinedTasks(b, x, p.board, p.id);
      BoardEvent(b, p.board, x, "peer.joined", "");
      JoinedEndpoints(b, x, p.board, p.id, x.req.name);
      RegisterAgentDoes(p.board, p.id, x.req, x.ids.agent);
      var a := RegisterAgent(p.board, p.id, x.req, x.ids.agent);
      OnlyJoin(b, x, x.req, p.board, p.id);
      if x.req.name == "" {
        assert JoinedAs(x, p.board, p.id, p.board);
      } else if a.Ok? {
        assert JoinedAs(x, p.board, p.id, a.value.board);
        BoardEvent(b, a.value.board, x, "peer.joined", "");
      }
    }
  }

  lemma JoinedTasks(b: Board, x: Input, c: Board, pid: string)
    requires Joined(b, x, c, pid)
    ensures c.tasks == b.tasks
  {
  }

  lemma OnlyJoin(b: Board, x: Input, r: Request, mid: Board, pid: string)
    requires OneSession(b, x) && Joined(b, x, mid, pid)
    ensures MayJoinAs(b, x, r) <==> MayRegister(mid, pid, r)
  {
    hide Joined, OneSession, MayRegister;
    if MayJoinAs(b, x, r) {
      var c, q :| Joined(b, x, c, q) && MayRegister(c, q, r);
      JoinedOnce(b, x, mid, pid, c, q);
    }
  }

  ghost predicate AtTime(c: Board, now: int, d: Board) {
    d == c.(serverTime := now)
  }

  /** Joining needs no earlier admission, but the token the session came with if it is known; it may
      register an endpoint at once. */
  lemma Joins(b: Board, x: Input)
    requires x.req.op == Join && Keyed(b) && x.ids.peer !in b.peers
    ensures Step(b, x).Ok? <==> WellMade(x) && b.enabled && MayJoin(b, x) && (x.req.name != "" ==> MayJoinAs(b, x, x.req))
    ensures Step(b, x).Ok? ==>
              && Told(b, x, "peer.joined", "", Step(b, x).value.event)
              && exists c :: JoinDone(b, x, c) && AtTime(c, x.now, Step(b, x).value.board)
  {
    hide ValidId, JoinRequest, Keyed, MayJoin, MayJoinAs, JoinDone, Told;
    JoinRequestDoes(b, x);
    if Step(b, x).Ok? {
      assert AtTime(JoinRequest(b, x).value.board, x.now, Step(b, x).value.board);
    }
  }

  ghost function AsLeader(r: Request): Request {
    r.(role := "leader", maxActive := 1)
  }

  ghost predicate FoundedAs(x: Input, mid: Board, pid: string, c: Board, aid: string, out: Outcome) {
    && pid in mid.peers && EndpointFiled(mid, pid, AsLeader(x.req), x.ids.agent, c, aid)
    && AppointDone(c.(enabled := true, operatorId := x.auth.userId), x, aid, out)
  }

  ghost predicate FoundDone(b: Board, x: Input, out: Outcome) {
    exists mid, pid, c, aid :: Joined(b, x, mid, pid) && FoundedAs(x, mid, pid, c, aid, out)
  }

  lemma InitBoardDoes(b: Board, x: Input)
    requires Keyed(b) && x.ids.peer !in b.peers
    ensures var r := InitBoard(b, x);
            && (r.Ok? <==> Operator(x) && !b.enabled && MayJoin(b, x) && MayJoinAs(b, x, AsLeader(x.req)))
            && (r.Ok? ==> FoundDone(b, x, r.value.(board := r.value.board.(serverTime := x.now))))
  {
    hide JoinBoard, RegisterAgent, Appointed, MayJoin, Joined, OneSession, OneEndpoint, Keyed, MayRegister, EndpointFiled, AppointDone;
    KeyedSessions(b, x);
    JoinBoardDoes(b, x);
    if JoinBoard(b, x).Ok? {
      var p := JoinBoard(b, x).value;
      var r := AsLeader(x.req);
      JoinedEndpoints(b, x, p.board, p.id, r.name);
      RegisterAgentDoes(p.board, p.id, r, x.ids.agent);
      OnlyJoin(b, x, r, p.board, p.id);
      var a := RegisterAgent(p.board, p.id, r, x.ids.agent);
      if a.Ok? {
        var founded := a.value.board.(enabled := true, operatorId := x.auth.userId);
        AppointDoes(founded, x, a.value.id);
        AppointAnyTime(founded, x, a.value.id, Appointed(founded, x, a.value.id), x.now);
        if InitBoard(b, x).Ok? {
          var out := Appointed(founded, x, a.value.id);
          assert FoundedAs(x, p.board, p.id, a.value.board, a.value.id, out.(board := out.board.(serverTime := x.now)));
        }
      }
    }
  }

  /** The board is founded once, by an operator, whose session's endpoint is made the first leader. */
  lemma Founds(b: Board, x: Input)
    requires x.req.op == Init && Keyed(b) && x.ids.peer !in b.peers
    ensures Step(b, x).Ok? <==> WellMade(x) && Operator(x) && !b.enabled && MayJoin(b, x) && MayJoinAs(b, x, AsLeader(x.req))
    ensures Step(b, x).Ok? ==> FoundDone(b, x, Step(b, x).value) && Step(b, x).value.board.serverTime == x.now
  {
    hide ValidId, InitBoard, Keyed, MayJoin, MayJoinAs, FoundDone, AsLeader;
    InitBoardDoes(b, x);
  }
}
