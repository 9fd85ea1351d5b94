/** The coordination board: peers, agents, leadership, tasks and their attempts, the
    requests made of it, and the lookups every operation shares. */
module PeerState {
  import opened Basics
  import opened Decimal

  datatype Code = Version | Invalid | Forbidden | NotFound | Ambiguous | Stale | Conflict | Capacity | Unavailable

  datatype Result<+T> = Ok(value: T) | Fail(code: Code) {
    predicate IsFailure() { Fail? }
    function PropagateFailure<U>(): Result<U> requires Fail? { Fail(code) }
    function Extract(): T requires Ok? { value }
  }

  const VERSION := 1
  /** Thirty seconds, with time counted in nanoseconds. */
  const LEASE := 30_000_000_000
  const MAX_PEERS := 100
  const MAX_AGENTS := 100
  const MAX_PENDING := 500
  const MAX_TEXT := 16384
  const MAX_ATTEMPTS := 20

  /** A token's hash, compared but never inverted; hashing is taken to be injective. */
  datatype Secret = Hash(token: string)

  datatype PeerStatus = Registered | Ready | Paused | Revoked

  datatype Peer = Peer(id: string, userId: string, sessionId: string, sessionName: string,
                       incarnation: string, lastSeen: int, leaseUntil: int, state: PeerStatus)

  datatype Agent = Agent(id: string, peerId: string, name: string, displayLabel: string, role: string, runner: string,
                         projects: seq<string>, capabilities: seq<string>, maxActive: int, ready: bool)

  datatype Leadership = Leadership(agentId: string, term: int, leaseUntil: int, standbys: seq<string>, autoFailover: bool)

  datatype TaskState =
    | Offered | Queued | Claimed | Starting | Running | Blocked | WaitingLocalInput
    | CancelRequested | NeedsReconciliation | ResultSubmitted
    | Completed | Failed | Cancelled | Expired

  datatype Attempt = Attempt(id: string, number: int, agentId: string, executionId: string, incarnation: string,
                             state: TaskState, leaseUntil: int, paneId: string, startedAt: Option<int>,
                             endedAt: Option<int>, result: string, detail: string)

  datatype Task = Task(id: string, number: nat, threadId: string, objective: string, criteria: string,
                       project: string, base: string, runner: string, agentId: string, leaderId: string,
                       leaderTerm: int, version: int, state: TaskState, dependencies: seq<string>,
                       maxRuntimeSeconds: int, createdAt: int, updatedAt: int, attempts: seq<Attempt>)

  datatype Board = Board(enabled: bool, paused: bool, operatorId: string, leadership: Leadership,
                         peers: map<string, Peer>, agents: map<string, Agent>, tasks: map<string, Task>,
                         nextTask: nat, serverTime: int,
                         peerSecrets: map<string, Secret>, executionSecrets: map<string, Secret>)

  const NEW_BOARD := Board(false, false, "", Leadership("", 0, 0, [], false), map[], map[], map[], 0, 0, map[], map[])

  predicate Terminal(s: TaskState) {
    s.Completed? || s.Failed? || s.Cancelled? || s.Expired?
  }

  predicate Active(s: TaskState) {
    s.Claimed? || s.Starting? || s.Running? || s.Blocked? || s.WaitingLocalInput? || s.CancelRequested? || s.NeedsReconciliation?
  }

  /** Offered or queued: waiting for its worker to claim it. */
  predicate Claimable(s: TaskState) {
    s.Offered? || s.Queued?
  }

  function Current(t: Task): Attempt
    requires t.attempts != []
  {
    t.attempts[|t.attempts| - 1]
  }

  // Requests.

  datatype Op =
    | Init | Join | Register | Heartbeat | Leave | Handover | Standbys | Acquire | BoardPause | Send | Objective
    | Assign | Claim | Review | Cancel | Resolve | Retry
    | Adopt | Start | Progress | SubmitResult | ReportFailure | ConfirmCancelled | Uncertain
    | UnknownTaskOp(name: string) | UnknownOp(name: string)

  /** A result document: its raw bytes and the summary it decodes to, when it is valid JSON that has one. */
  datatype ResultDoc = ResultDoc(raw: string, summary: Option<string>)

  datatype Request = Request(
    schemaVersion: int, id: string, op: Op, peerId: string, agentId: string, sessionId: string, sessionName: string,
    incarnation: string, name: string, role: string, runner: string, projects: seq<string>, capabilities: seq<string>,
    maxActive: int, ready: bool, activeAgents: seq<string>, running: seq<string>, confirmStopped: bool, target: string,
    term: int, taskId: string, attemptId: string, taskVersion: int, executionId: string, paneId: string, text: string,
    criteria: string, project: string, base: string, dependencies: seq<string>, maxRuntimeSeconds: int,
    result: ResultDoc, standbys: seq<string>, autoFailover: bool, paused: bool)

  datatype Auth = Auth(userId: string, workspaceRole: string, peerToken: string, executionToken: string)

  /** The ids a random generator would hand out during one request. */
  datatype FreshIds = FreshIds(peer: string, agent: string, task: string, attempt: string)

  datatype Input = Input(auth: Auth, req: Request, now: int, ids: FreshIds)

  datatype Event = Event(id: string, kind: string, senderId: string, recipientId: string, taskId: string,
                         attemptId: string, threadId: string, createdAt: int)

  // Validation of request fields.

  predicate NameChar(c: char) {
    'a' <= c <= 'z' || '0' <= c <= '9'
  }

  predicate ValidName(s: string) {
    && 1 <= |s| <= 64 && NameChar(s[0])
    && forall i :: 0 < i < |s| ==> NameChar(s[i]) || s[i] == '_' || s[i] == '-'
  }

  predicate HexChar(c: char) {
    '0' <= c <= '9' || 'a' <= c <= 'f'
  }

  predicate DashAt(i: int) {
    i == 8 || i == 13 || i == 18 || i == 23
  }

  /** A canonical, non-nil UUID. */
  predicate ValidId(s: string) {
    && |s| == 36
    && (forall i :: 0 <= i < 36 ==> if DashAt(i) then s[i] == '-' else HexChar(s[i]))
    && (exists i :: 0 <= i < 36 && !DashAt(i) && s[i] != '0')
  }

  predicate NotBlank(s: string) {
    exists i :: 0 <= i < |s| && !IsSpace(s[i])
  }

  predicate IsControl(c: char) {
    c < ' ' || c == 0x7F as char
  }

  predicate ValidLabel(s: string) {
    NotBlank(s) && |s| <= 128 && forall i :: 0 <= i < |s| ==> !IsControl(s[i])
  }

  predicate ValidText(s: string) {
    NotBlank(s) && |s| <= MAX_TEXT && forall i :: 0 <= i < |s| ==> s[i] != 0 as char
  }

  predicate TokenMatches(token: string, secrets: map<string, Secret>, id: string) {
    |token| >= 32 && id in secrets && secrets[id] == Hash(token)
  }

  predicate IsAdmin(a: Auth) {
    a.workspaceRole == "owner" || a.workspaceRole == "admin"
  }

  // Lookups by id or by display name.

  function TaskLabel(number: nat): string {
    "T-" + Digits(number)
  }

  /** A reference matches a task label without regard to the case of its one letter. */
  predicate MatchesLabel(number: nat, ref: string) {
    ref == TaskLabel(number) || ref == "t-" + Digits(number)
  }

  function AgentsLabelled(b: Board, ref: string): set<string> {
    set id | id in b.agents && b.agents[id].displayLabel == ref
  }

  ghost function ResolveAgent(b: Board, ref: string): (r: Result<string>)
    ensures r.Ok? ==> r.value in b.agents && (r.value == ref || b.agents[r.value].displayLabel == ref)
  {
    if ref in b.agents then Ok(ref)
    else if |AgentsLabelled(b, ref)| >= 2 then Fail(Ambiguous)
    else if AgentsLabelled(b, ref) == {} then Fail(NotFound)
    else var id :| id in AgentsLabelled(b, ref); Ok(id)
  }

  function TasksLabelled(b: Board, ref: string): set<string> {
    set id | id in b.tasks && MatchesLabel(b.tasks[id].number, ref)
  }

  ghost function ResolveTask(b: Board, ref: string): (r: Result<string>)
    ensures r.Ok? ==> r.value in b.tasks && (r.value == ref || MatchesLabel(b.tasks[r.value].number, ref))
  {
    if ref in b.tasks then Ok(ref)
    else if TasksLabelled(b, ref) == {} then Fail(NotFound)
    else var id :| id in TasksLabelled(b, ref); Ok(id)
  }

  lemma LabelsDistinct(m: nat, n: nat, ref: string)
    requires MatchesLabel(m, ref) && MatchesLabel(n, ref)
    ensures m == n
  {
    assert ref[2..] == Digits(m) && ref[2..] == Digits(n);
    DigitsInjective(m, n);
  }
}
