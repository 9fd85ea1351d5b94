/** What every reachable board satisfies, and what no request can change. */
module PeerInvariant {
  import opened PeerState
  import opened PeerStep

  // The invariant.

  /** Records are filed under their ids, and the pairs the lookups search by are unique. */
  ghost predicate Keyed(b: Board) {
    && (forall id :: id in b.peers ==> b.peers[id].id == id)
    && (forall id :: id in b.agents ==> b.agents[id].id == id && b.agents[id].peerId in b.peers)
    && (forall id :: id in b.tasks ==> b.tasks[id].id == id && 1 <= b.tasks[id].number <= b.nextTask)
    && (forall p, q | p in b.peers && q in b.peers && p != q ::
          b.peers[p].userId != b.peers[q].userId || b.peers[p].sessionId != b.peers[q].sessionId)
    && (forall a, c | a in b.agents && c in b.agents && a != c ::
          b.agents[a].peerId != b.agents[c].peerId || b.agents[a].name != b.agents[c].name)
    && (forall s, t | s in b.tasks && t in b.tasks && s != t :: b.tasks[s].number != b.tasks[t].number)
  }

  ghost predicate HasExecution(at: Attempt) {
    at.executionId != ""
  }

  ghost predicate EverClaimed(t: Task) {
    exists i :: 0 <= i < |t.attempts| && HasExecution(t.attempts[i])
  }

  /** Attempts are numbered 1..n with n at most 20, the last one mirrors the task, every earlier
      one is terminal and not completed, and a result is submitted under a live lease. */
  ghost predicate AttemptsOk(t: Task) {
    && 1 <= |t.attempts| <= MAX_ATTEMPTS
    && (forall i :: 0 <= i < |t.attempts| ==> t.attempts[i].number == i + 1)
    && Current(t).state == t.state && Current(t).agentId == t.agentId
    && (forall i :: 0 <= i < |t.attempts| - 1 ==>
          Terminal(t.attempts[i].state) && t.attempts[i].state != Completed)
    && (Claimable(t.state) ==> !HasExecution(Current(t)))
    && (!Claimable(t.state) && t.state != Cancelled ==> HasExecution(Current(t)))
    && (t.state == ResultSubmitted ==> Current(t).endedAt.Some? && Current(t).endedAt.value < Current(t).leaseUntil)
  }

  ghost predicate UniqueAttempts(b: Board) {
    forall s, t, i, j | s in b.tasks && t in b.tasks && 0 <= i < |b.tasks[s].attempts| && 0 <= j < |b.tasks[t].attempts| ::
      b.tasks[s].attempts[i].id == b.tasks[t].attempts[j].id ==> s == t && i == j
  }

  /** Dependencies point to smaller task numbers, and only a task whose dependencies are completed was ever claimed. */
  ghost predicate DependenciesOk(b: Board, t: Task) {
    && (forall i :: 0 <= i < |t.dependencies| ==>
          t.dependencies[i] in b.tasks && b.tasks[t.dependencies[i]].number < t.number)
    && (EverClaimed(t) ==> AllCompleted(b, t.dependencies))
  }

  /** The task's worker exists; while the task is active, on a peer that is not revoked. */
  ghost predicate WorkerOk(b: Board, t: Task) {
    && t.agentId in b.agents
    && (Active(t.state) ==> b.agents[t.agentId].peerId in b.peers && b.peers[b.agents[t.agentId].peerId].state != Revoked)
  }

  ghost predicate StampOk(b: Board, t: Task) {
    Claimable(t.state) ==> t.leaderId == b.leadership.agentId && t.leaderTerm == b.leadership.term
  }

  ghost predicate TaskOk(b: Board, t: Task) {
    AttemptsOk(t) && DependenciesOk(b, t) && WorkerOk(b, t) && StampOk(b, t)
  }

  ghost predicate TasksOk(b: Board) {
    forall id :: id in b.tasks ==> TaskOk(b, b.tasks[id])
  }

  ghost predicate CapacityOk(b: Board) {
    forall a :: a in b.agents ==> |ActiveTasks(b, a)| <= b.agents[a].maxActive
  }

  ghost predicate HoldsSecret(b: Board, tid: string, k: string) {
    tid in b.tasks && b.tasks[tid].attempts != [] && Current(b.tasks[tid]).id == k && HasExecution(Current(b.tasks[tid]))
  }

  /** Peer secrets exist exactly for peers that are not revoked, execution secrets only for
      claimed current attempts. */
  ghost predicate SecretsOk(b: Board) {
    && (forall id :: id in b.peerSecrets <==> id in b.peers && b.peers[id].state != Revoked)
    && (forall k :: k in b.executionSecrets ==> exists tid :: HoldsSecret(b, tid, k))
  }

  /** Before initialization the board is empty; after it there is a leader of a positive term. */
  ghost predicate LeadershipOk(b: Board) {
    && (!b.enabled ==> b.peers == map[] && b.agents == map[] && b.tasks == map[] && b.leadership.term == 0)
    && (b.enabled ==> b.leadership.agentId in b.agents && b.leadership.term > 0)
  }

  ghost predicate Inv(b: Board) {
    && Keyed(b) && UniqueAttempts(b) && TasksOk(b) && CapacityOk(b) && SecretsOk(b) && LeadershipOk(b)
  }

  /** The ids a request draws are not in use: what a random generator is relied on for. */
  ghost predicate FreshFor(b: Board, ids: FreshIds) {
    && ids.peer !in b.peers && ids.agent !in b.agents && ids.task !in b.tasks
    && ids.peer !in b.peerSecrets
    && (forall t, i :: t in b.tasks && 0 <= i < |b.tasks[t].attempts| ==> b.tasks[t].attempts[i].id != ids.attempt)
  }

  // What no request can undo.

  /** A later form of a task: completed means frozen, superseded attempts are frozen, an
      execution id once set stays, and attempts are only ever appended. */
  ghost predicate TaskEvolves(t: Task, u: Task) {
    && u.id == t.id && u.number == t.number && u.dependencies == t.dependencies && u.threadId == t.threadId
    && u.runner == t.runner && u.project == t.project
    && u.version >= t.version && |u.attempts| >= |t.attempts|
    && (t.state == Completed ==> u == t)
    && (forall i :: 0 <= i < |t.attempts| - 1 ==> u.attempts[i] == t.attempts[i])
    && (forall i :: 0 <= i < |t.attempts| ==>
          && u.attempts[i].id == t.attempts[i].id && u.attempts[i].agentId == t.attempts[i].agentId
          && (HasExecution(t.attempts[i]) ==> u.attempts[i].executionId == t.attempts[i].executionId))
  }

  ghost predicate AgentEvolves(a: Agent, c: Agent) {
    c.id == a.id && c.peerId == a.peerId && c.name == a.name && c.role == a.role && c.runner == a.runner
    && c.projects == a.projects && c.capabilities == a.capabilities && c.maxActive == a.maxActive
  }

  ghost predicate PeerEvolves(p: Peer, q: Peer) {
    q.id == p.id && q.userId == p.userId && q.sessionId == p.sessionId && (p.state == Revoked ==> q.state == Revoked)
  }

  /** The term never decreases and is never held by two agents. */
  ghost predicate LeadershipEvolves(l: Leadership, m: Leadership) {
    l.term <= m.term && (l.term == m.term ==> l.agentId == m.agentId)
  }

  ghost predicate Evolves(b: Board, c: Board) {
    && (b.enabled ==> c.enabled && LeadershipEvolves(b.leadership, c.leadership))
    && b.nextTask <= c.nextTask && b.leadership.term <= c.leadership.term
    && (forall id :: id in b.peers ==> id in c.peers && PeerEvolves(b.peers[id], c.peers[id]))
    && (forall id :: id in b.agents ==> id in c.agents && AgentEvolves(b.agents[id], c.agents[id]))
    && (forall id :: id in b.tasks ==> id in c.tasks && TaskEvolves(b.tasks[id], c.tasks[id]))
  }

  lemma EvolvesReflexive(b: Board)
    ensures Evolves(b, b)
  {
  }

  lemma TaskEvolvesTransitive(t: Task, u: Task, v: Task)
    requires TaskEvolves(t, u) && TaskEvolves(u, v)
    ensures TaskEvolves(t, v)
  {
    forall i | 0 <= i < |t.attempts| - 1 ensures v.attempts[i] == t.attempts[i] {
      assert u.attempts[i] == t.attempts[i];
    }
  }

  lemma EvolvesTransitive(b: Board, c: Board, d: Board)
    requires Evolves(b, c) && Evolves(c, d)
    ensures Evolves(b, d)
  {
    forall id | id in b.tasks ensures id in d.tasks && TaskEvolves(b.tasks[id], d.tasks[id]) {
      TaskEvolvesTransitive(b.tasks[id], c.tasks[id], d.tasks[id]);
    }
  }

  // Carrying task facts to a changed board.

  /** Everything a task's own invariant looks at on the rest of the board is still there. */
  ghost predicate Carries(b: Board, c: Board) {
    && (forall d :: d in b.tasks ==>
          d in c.tasks && c.tasks[d].number == b.tasks[d].number && (b.tasks[d].state == Completed ==> c.tasks[d].state == Completed))
    && (forall a :: a in b.agents ==> a in c.agents && c.agents[a].peerId == b.agents[a].peerId)
    && (forall p :: p in b.peers ==> p in c.peers && (c.peers[p].state == Revoked ==> b.peers[p].state == Revoked))
    && c.leadership.agentId == b.leadership.agentId && c.leadership.term == b.leadership.term
  }

  lemma CarriedTask(b: Board, c: Board, t: Task)
    requires TaskOk(b, t) && Carries(b, c)
    ensures TaskOk(c, t)
  {
    assert DependenciesOk(b, t);
    forall i | 0 <= i < |t.dependencies|
      ensures t.dependencies[i] in c.tasks && c.tasks[t.dependencies[i]].number < t.number
    {
      assert t.dependencies[i] in b.tasks;
    }
    if EverClaimed(t) {
      assert AllCompleted(b, t.dependencies);
    }
  }

  // Replacing one task.

  lemma UpdateKeepsUnique(b: Board, tid: string, t: Task, secrets: map<string, Secret>)
    requires tid in b.tasks && UniqueAttempts(b) && |b.tasks[tid].attempts| <= |t.attempts| <= |b.tasks[tid].attempts| + 1
    requires forall i :: 0 <= i < |b.tasks[tid].attempts| ==> t.attempts[i].id == b.tasks[tid].attempts[i].id
    requires NewAttemptsFresh(b, tid, t)
    ensures UniqueAttempts(PutTask(b, tid, t, secrets))
  {
    var c := PutTask(b, tid, t, secrets);
    var prior := b.tasks[tid];
    forall s, u, i, j | s in c.tasks && u in c.tasks && 0 <= i < |c.tasks[s].attempts| && 0 <= j < |c.tasks[u].attempts|
                        && c.tasks[s].attempts[i].id == c.tasks[u].attempts[j].id
      ensures s == u && i == j
    {
      if s == tid && i < |prior.attempts| {
        assert t.attempts[i].id == prior.attempts[i].id;
      }
      if u == tid && j < |prior.attempts| {
        assert t.attempts[j].id == prior.attempts[j].id;
      }
    }
  }

  /** Attempts beyond those the task had carry ids no attempt on the board has. */
  ghost predicate NewAttemptsFresh(b: Board, tid: string, t: Task)
    requires tid in b.tasks
  {
    forall i, s, j | |b.tasks[tid].attempts| <= i < |t.attempts| && s in b.tasks && 0 <= j < |b.tasks[s].attempts| ::
      t.attempts[i].id != b.tasks[s].attempts[j].id
  }

  lemma UpdateKeepsTasks(b: Board, tid: string, t: Task, secrets: map<string, Secret>)
    requires tid in b.tasks && TasksOk(b) && TaskOk(b, t)
    requires t.number == b.tasks[tid].number && (b.tasks[tid].state == Completed ==> t.state == Completed)
    ensures TasksOk(PutTask(b, tid, t, secrets))
  {
    var c := PutTask(b, tid, t, secrets);
    forall id | id in c.tasks ensures TaskOk(c, c.tasks[id]) {
      assert TaskOk(b, c.tasks[id]);
      CarriedTask(b, c, c.tasks[id]);
    }
  }

  /** The update starts no activity, or there is room for it. */
  ghost predicate RoomFor(b: Board, tid: string, t: Task)
    requires tid in b.tasks
  {
    Active(t.state) ==>
      || (Active(b.tasks[tid].state) && t.agentId == b.tasks[tid].agentId)
      || (t.agentId in b.agents && |ActiveTasks(b, t.agentId)| < b.agents[t.agentId].maxActive)
  }

  lemma UpdateKeepsCapacity(b: Board, tid: string, t: Task, secrets: map<string, Secret>)
    requires tid in b.tasks && CapacityOk(b) && RoomFor(b, tid, t)
    ensures CapacityOk(PutTask(b, tid, t, secrets))
  {
    var c := PutTask(b, tid, t, secrets);
    forall a | a in c.agents ensures |ActiveTasks(c, a)| <= c.agents[a].maxActive {
      var before, after := ActiveTasks(b, a), ActiveTasks(c, a);
      if a == t.agentId && Active(t.state) && tid !in before {
        assert after == before + {tid};
      } else {
        SubsetSize(after, before);
      }
    }
  }

  lemma {:induction false} SubsetSize<T>(a: set<T>, b: set<T>)
    requires a <= b
    ensures |a| <= |b|
  {
    if a != {} {
      var x :| x in a;
      SubsetSize(a - {x}, b - {x});
    }
  }

  /** Every secret the update leaves is the task's own, or was another task's before. */
  ghost predicate SecretsStay(b: Board, tid: string, t: Task, secrets: map<string, Secret>)
    requires tid in b.tasks && b.tasks[tid].attempts != [] && t.attempts != []
  {
    forall k | k in secrets ::
      || (k == Current(t).id && HasExecution(Current(t)))
      || (k in b.executionSecrets && k != Current(b.tasks[tid]).id)
  }

  lemma UpdateKeepsSecrets(b: Board, tid: string, t: Task, secrets: map<string, Secret>)
    requires tid in b.tasks && b.tasks[tid].attempts != [] && t.attempts != []
    requires SecretsOk(b) && SecretsStay(b, tid, t, secrets)
    ensures SecretsOk(PutTask(b, tid, t, secrets))
  {
    var c := PutTask(b, tid, t, secrets);
    forall k | k in secrets ensures exists id :: HoldsSecret(c, id, k) {
      if k == Current(t).id && HasExecution(Current(t)) {
        assert HoldsSecret(c, tid, k);
      } else {
        var id :| HoldsSecret(b, id, k);
        assert HoldsSecret(c, id, k);
      }
    }
  }

  /** One good task update keeps the whole invariant and undoes nothing. */
  lemma UpdateKeepsInv(b: Board, tid: string, t: Task, secrets: map<string, Secret>)
    requires Inv(b) && tid in b.tasks && b.tasks[tid].attempts != [] && TaskEvolves(b.tasks[tid], t) && TaskOk(b, t)
    requires |t.attempts| <= |b.tasks[tid].attempts| + 1 && NewAttemptsFresh(b, tid, t)
    requires RoomFor(b, tid, t) && SecretsStay(b, tid, t, secrets)
    ensures Inv(PutTask(b, tid, t, secrets)) && Evolves(b, PutTask(b, tid, t, secrets))
  {
    UpdateKeepsUnique(b, tid, t, secrets);
    UpdateKeepsTasks(b, tid, t, secrets);
    UpdateKeepsCapacity(b, tid, t, secrets);
    UpdateKeepsSecrets(b, tid, t, secrets);
    UpdateKeepsKeys(b, tid, t, secrets);
    UpdateEvolves(b, tid, t, secrets);
  }

  lemma UpdateKeepsKeys(b: Board, tid: string, t: Task, secrets: map<string, Secret>)
    requires Keyed(b) && LeadershipOk(b) && tid in b.tasks && t.id == b.tasks[tid].id && t.number == b.tasks[tid].number
    ensures Keyed(PutTask(b, tid, t, secrets)) && LeadershipOk(PutTask(b, tid, t, secrets))
  {
  }

  lemma UpdateEvolves(b: Board, tid: string, t: Task, secrets: map<string, Secret>)
    requires tid in b.tasks && TaskEvolves(b.tasks[tid], t)
    ensures Evolves(b, PutTask(b, tid, t, secrets))
  {
  }
}
