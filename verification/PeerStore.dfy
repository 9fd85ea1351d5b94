/** The board as it is held in memory, where every record, list, map and time stamp is an object of
    its own; and the deep copy that isolates a request from the store it was given. */
module PeerStore {
  import opened Basics
  import opened PeerState
  import opened PeerStep

  /** A list of names. The program replaces such a list but never writes into one. */
  class Names {
    const items: seq<string>
    constructor (items: seq<string>) ensures this.items == items { this.items := items; }
  }

  /** The raw bytes of a result. */
  class Bytes {
    const items: string
    constructor (items: string) ensures this.items == items { this.items := items; }
  }

  /** A point in time behind a pointer. */
  class Stamp {
    const at: int
    constructor (at: int) ensures this.at == at { this.at := at; }
  }

  /** An attempt as it lies in its list: plain fields, and pointers to its result and stamps. */
  datatype Cell = Cell(core: Attempt, result: Bytes, startedAt: Stamp?, endedAt: Stamp?)

  function StampValue(s: Stamp?): Option<int> {
    if s == null then None else Some(s.at)
  }

  function CellValue(c: Cell): Attempt {
    c.core.(result := c.result.items, startedAt := StampValue(c.startedAt), endedAt := StampValue(c.endedAt))
  }

  function CellValues(cs: seq<Cell>): (vs: seq<Attempt>)
    ensures |vs| == |cs| && forall i :: 0 <= i < |cs| ==> vs[i] == CellValue(cs[i])
  {
    seq(|cs|, i requires 0 <= i < |cs| => CellValue(cs[i]))
  }

  /** The objects an attempt points to. */
  ghost predicate CellWithin(c: Cell, repr: set<object>) {
    c.result in repr && (c.startedAt != null ==> c.startedAt in repr) && (c.endedAt != null ==> c.endedAt in repr)
  }

  /** The attempts of a task: one array, written through by whoever holds the current attempt. */
  class Attempts {
    var cells: seq<Cell>
    constructor (cells: seq<Cell>) ensures this.cells == cells { this.cells := cells; }
  }

  class PeerRef {
    var v: Peer
    constructor (v: Peer) ensures this.v == v { this.v := v; }
  }

  class AgentRef {
    var core: Agent
    const projects: Names
    const capabilities: Names

    constructor (core: Agent, projects: Names, capabilities: Names)
      ensures this.core == core && this.projects == projects && this.capabilities == capabilities
    {
      this.core, this.projects, this.capabilities := core, projects, capabilities;
    }

    function Value(): Agent
      reads this
    {
      core.(projects := projects.items, capabilities := capabilities.items)
    }

    ghost predicate Within(repr: set<object>) {
      this in repr && projects in repr && capabilities in repr
    }
  }

  class TaskRef {
    var core: Task
    const dependencies: Names
    const attempts: Attempts

    constructor (core: Task, dependencies: Names, attempts: Attempts)
      ensures this.core == core && this.dependencies == dependencies && this.attempts == attempts
    {
      this.core, this.dependencies, this.attempts := core, dependencies, attempts;
    }

    function Value(): Task
      reads this, attempts
    {
      core.(dependencies := dependencies.items, attempts := CellValues(attempts.cells))
    }

    /** The task's objects, down to the results and stamps of its attempts, are in the set. */
    ghost predicate Within(repr: set<object>)
      reads attempts
    {
      this in repr && dependencies in repr && attempts in repr && forall c :: c in attempts.cells ==> CellWithin(c, repr)
    }

    lemma WithinMore(repr: set<object>, more: set<object>)
      requires Within(repr) && repr <= more
      ensures Within(more)
    {
    }

    method SetCore(t: Task)
      requires t.attempts == Value().attempts && t.dependencies == Value().dependencies
      modifies this
      ensures Value() == t
    {
      core := t;
    }

    /** Writes over the current attempt, where it lies. */
    method WriteLast(c: Cell, ghost repr: set<object>)
      requires attempts.cells != [] && Within(repr) && CellWithin(c, repr)
      modifies attempts
      ensures Within(repr) && attempts.cells == old(attempts.cells)[|old(attempts.cells)| - 1 := c]
      ensures Value() == WithCurrent(old(Value()), CellValue(c))
    {
      var n := |attempts.cells| - 1;
      attempts.cells := attempts.cells[n := c];
      assert CellValues(attempts.cells) == old(CellValues(attempts.cells))[n := CellValue(c)];
    }

    /** Adds an attempt behind the others. */
    method Append(c: Cell, ghost repr: set<object>)
      requires Within(repr) && CellWithin(c, repr)
      modifies attempts
      ensures Within(repr) && attempts.cells == old(attempts.cells) + [c]
      ensures Value() == old(Value()).(attempts := old(Value()).attempts + [CellValue(c)])
    {
      attempts.cells := attempts.cells + [c];
      assert CellValues(attempts.cells) == old(CellValues(attempts.cells)) + [CellValue(c)];
    }
  }

  /** A map of which all but the ids still to come have been changed. */
  function Changed<T>(m: map<string, T>, todo: set<string>, f: T -> T): map<string, T> {
    map id | id in m :: if id in todo then m[id] else f(m[id])
  }

  function Mapped<T>(m: map<string, T>, f: T -> T): map<string, T> {
    map id | id in m :: f(m[id])
  }

  lemma OneMoreChanged<T>(m: map<string, T>, todo: set<string>, f: T -> T, id: string)
    requires id in todo && id in m
    ensures Changed(m, todo, f)[id] == m[id]
    ensures Changed(m, todo, f)[id := f(m[id])] == Changed(m, todo - {id}, f)
  {
  }

  lemma ChangedEnds<T>(m: map<string, T>, f: T -> T)
    ensures Changed(m, m.Keys, f) == m && Changed(m, {}, f) == Mapped(m, f)
  {
  }

  /** Peers by id. */
  class PeerMap {
    var m: map<string, PeerRef>

    constructor (m: map<string, PeerRef>) ensures this.m == m { this.m := m; }

    ghost predicate Distinct()
      reads this
    {
      forall i, j | i in m && j in m && i != j :: m[i] != m[j]
    }

    ghost predicate Within(repr: set<object>)
      reads this
    {
      forall id :: id in m ==> m[id] in repr
    }

    lemma WithinMore(repr: set<object>, more: set<object>)
      requires Within(repr) && repr <= more
      ensures Within(more)
    {
    }

    function View(): map<string, Peer>
      reads this, m.Values
    {
      map id | id in m :: m[id].v
    }

    method Set(id: string, p: Peer)
      requires Distinct() && id in m
      modifies m[id]
      ensures View() == old(View())[id := p]
    {
      m[id].v := p;
    }

    method Add(id: string, p: Peer, ghost repr: set<object>) returns (ghost parts: set<object>)
      requires Distinct() && Within(repr) && this in repr
      modifies this
      ensures fresh(parts) && Distinct() && Within(repr + parts)
      ensures View() == old(View())[id := p]
    {
      var r := new PeerRef(p);
      m := m[id := r];
      parts := {r};
    }

    method Clone() returns (c: PeerMap, ghost parts: set<object>)
      ensures fresh(parts) && c in parts && c.Distinct() && c.Within(parts) && c.View() == View()
    {
      c := new PeerMap(map[]);
      parts := {c};
      var todo := m.Keys;
      while todo != {}
        invariant todo <= m.Keys && c in parts && fresh(parts) && c.Distinct() && c.Within(parts)
        invariant c.View().Keys == m.Keys - todo && forall id :: id in c.View() ==> c.View()[id] == m[id].v
        decreases |todo|
      {
        var id :| id in todo;
        todo := todo - {id};
        ghost var p := c.Add(id, m[id].v, parts);
        parts := parts + p;
      }
    }
  }

  /** Agents by id. */
  class AgentMap {
    var m: map<string, AgentRef>

    constructor (m: map<string, AgentRef>) ensures this.m == m { this.m := m; }

    ghost predicate Distinct()
      reads this
    {
      forall i, j | i in m && j in m && i != j :: m[i] != m[j]
    }

    ghost predicate Within(repr: set<object>)
      reads this
    {
      forall id :: id in m ==> m[id].Within(repr)
    }

    lemma WithinMore(repr: set<object>, more: set<object>)
      requires Within(repr) && repr <= more
      ensures Within(more)
    {
    }

    function View(): map<string, Agent>
      reads this, m.Values
    {
      map id | id in m :: m[id].Value()
    }

    method SetCore(id: string, a: Agent)
      requires Distinct() && id in m && a.projects == m[id].projects.items && a.capabilities == m[id].capabilities.items
      modifies m[id]
      ensures View() == old(View())[id := a]
    {
      m[id].core := a;
    }

    lemma ViewKeys()
      ensures View().Keys == m.Keys
    {
    }

    /** One pass over the agents, in no particular order; their lists stay. */
    method ForEach(f: Agent -> Agent)
      requires Distinct() && forall a :: f(a).projects == a.projects && f(a).capabilities == a.capabilities
      modifies m.Values
      ensures View() == Mapped(old(View()), f)
    {
      ghost var before := View();
      hide *;
      ViewKeys();
      ChangedEnds(before, f);
      var todo := m.Keys;
      while todo != {}
        invariant todo <= m.Keys && View() == Changed(before, todo, f)
        decreases |todo|
      {
        var id :| id in todo;
        OneMoreChanged(before, todo, f, id);
        Entry(id);
        SetCore(id, f(m[id].Value()));
        todo := todo - {id};
      }
    }

    lemma Entry(id: string)
      requires id in m
      ensures id in View() && View()[id] == m[id].Value()
      ensures m[id].Value().projects == m[id].projects.items && m[id].Value().capabilities == m[id].capabilities.items
    {
    }

    method Add(id: string, a: Agent, ghost repr: set<object>) returns (ghost parts: set<object>)
      requires Distinct() && Within(repr) && this in repr
      modifies this
      ensures fresh(parts) && Distinct() && Within(repr + parts)
      ensures View() == old(View())[id := a]
    {
      var r, p := NewAgentRef(a);
      m := m[id := r];
      parts := p;
    }

    method Clone() returns (c: AgentMap, ghost parts: set<object>)
      ensures fresh(parts) && c in parts && c.Distinct() && c.Within(parts) && c.View() == View()
    {
      hide Distinct, Within, AgentRef.Value;
      c := NewAgentMap();
      parts := {c};
      var todo := m.Keys;
      while todo != {}
        invariant todo <= m.Keys && c in parts && fresh(parts) && c.Distinct() && c.Within(parts)
        invariant c.View().Keys == m.Keys - todo && forall id :: id in c.View() ==> c.View()[id] == m[id].Value()
        decreases |todo|
      {
        var id :| id in todo;
        todo := todo - {id};
        ghost var p := c.Add(id, m[id].Value(), parts);
        parts := parts + p;
      }
    }
  }

  method NewAgentMap() returns (c: AgentMap)
    ensures fresh(c) && c.m == map[] && c.Distinct() && c.Within({c}) && c.View() == map[]
  {
    c := new AgentMap(map[]);
  }

  method NewAgentRef(a: Agent) returns (r: AgentRef, ghost parts: set<object>)
    ensures fresh(parts) && r.Within(parts) && r.Value() == a
  {
    var projects := new Names(a.projects);
    var capabilities := new Names(a.capabilities);
    r := new AgentRef(a, projects, capabilities);
    parts := {r, projects, capabilities};
  }

  method NewStamp(at: Option<int>) returns (s: Stamp?, ghost parts: set<object>)
    ensures StampValue(s) == at && fresh(parts) && (s != null ==> s in parts)
  {
    if at.None? {
      return null, {};
    }
    s := new Stamp(at.value);
    parts := {s};
  }

  method NewCell(at: Attempt) returns (c: Cell, ghost parts: set<object>)
    ensures CellValue(c) == at && fresh(parts) && CellWithin(c, parts)
  {
    var result := new Bytes(at.result);
    var startedAt, p := NewStamp(at.startedAt);
    var endedAt, q := NewStamp(at.endedAt);
    c, parts := Cell(at, result, startedAt, endedAt), {result} + p + q;
  }

  method NewCells(ats: seq<Attempt>) returns (cells: seq<Cell>, ghost parts: set<object>)
    ensures CellValues(cells) == ats && fresh(parts) && forall c :: c in cells ==> CellWithin(c, parts)
  {
    cells, parts := [], {};
    for i := 0 to |ats|
      invariant |cells| == i && forall k :: 0 <= k < i ==> CellValue(cells[k]) == ats[k]
      invariant fresh(parts) && forall c :: c in cells ==> CellWithin(c, parts)
    {
      var c, p := NewCell(ats[i]);
      cells, parts := cells + [c], parts + p;
    }
  }

  method NewTaskRef(t: Task) returns (r: TaskRef, ghost parts: set<object>)
    ensures fresh(parts) && r.Within(parts) && r.Value() == t
  {
    var cells, p := NewCells(t.attempts);
    var dependencies := new Names(t.dependencies);
    var attempts := new Attempts(cells);
    r := new TaskRef(t, dependencies, attempts);
    parts := p + {r, dependencies, attempts};
  }

  /** A task whose current attempt's lease runs on, when it has one and is chosen. */
  function LeaseRenewed(t: Task, chosen: Task -> bool, until: int): Task {
    if t.attempts != [] && chosen(t) then WithCurrent(t, Current(t).(leaseUntil := until)) else t
  }

  /** Tasks by id. */
  class TaskMap {
    var m: map<string, TaskRef>

    constructor (m: map<string, TaskRef>) ensures this.m == m { this.m := m; }

    ghost function Lists(): set<Attempts>
      reads this
    {
      set id | id in m :: m[id].attempts
    }

    ghost predicate Distinct()
      reads this
    {
      forall i, j | i in m && j in m && i != j :: m[i] != m[j] && m[i].attempts != m[j].attempts
    }

    ghost predicate Within(repr: set<object>)
      reads this, Lists()
    {
      forall id :: id in m ==> m[id].Within(repr)
    }

    lemma WithinMore(repr: set<object>, more: set<object>)
      requires Within(repr) && repr <= more
      ensures Within(more) && Lists() <= more
    {
      forall id | id in m ensures m[id].Within(more) {
        m[id].WithinMore(repr, more);
      }
    }

    function View(): map<string, Task>
      reads this, m.Values, Lists()
    {
      map id | id in m :: m[id].Value()
    }

    /** The fields of a task other than its lists. */
    method SetCore(id: string, t: Task)
      requires Distinct() && id in m
      requires t.attempts == m[id].Value().attempts && t.dependencies == m[id].Value().dependencies
      modifies m[id]
      ensures View() == old(View())[id := t]
    {
      hide TaskRef.Value, TaskRef.Within;
      m[id].SetCore(t);
    }

    method WriteLast(id: string, c: Cell, ghost repr: set<object>)
      requires Distinct() && id in m && m[id].attempts.cells != [] && Within(repr) && CellWithin(c, repr)
      modifies m[id].attempts
      ensures Within(repr) && m[id].attempts.cells == old(m[id].attempts.cells)[|old(m[id].attempts.cells)| - 1 := c]
      ensures View() == old(View())[id := WithCurrent(old(m[id].Value()), CellValue(c))]
    {
      hide TaskRef.Value, TaskRef.Within, CellValue;
      m[id].WriteLast(c, repr);
    }

    method Append(id: string, c: Cell, ghost repr: set<object>)
      requires Distinct() && id in m && Within(repr) && CellWithin(c, repr)
      modifies m[id].attempts
      ensures Within(repr) && m[id].attempts.cells == old(m[id].attempts.cells) + [c]
      ensures var t := old(m[id].Value()); View() == old(View())[id := t.(attempts := t.attempts + [CellValue(c)])]
    {
      hide TaskRef.Value, TaskRef.Within, CellValue;
      m[id].Append(c, repr);
    }

    lemma Entry(id: string)
      requires id in m
      ensures id in View() && View()[id] == m[id].Value() && |m[id].Value().attempts| == |m[id].attempts.cells|
    {
    }

    lemma ViewKeys()
      ensures View().Keys == m.Keys
    {
    }

    /** One pass over the tasks, in no particular order; their lists stay. */
    method ForEachCore(f: Task -> Task)
      requires Distinct() && forall t :: f(t).attempts == t.attempts && f(t).dependencies == t.dependencies
      modifies m.Values
      ensures View() == Mapped(old(View()), f)
    {
      ghost var before := View();
      hide *;
      ViewKeys();
      ChangedEnds(before, f);
      var todo := m.Keys;
      while todo != {}
        invariant todo <= m.Keys && View() == Changed(before, todo, f)
        decreases |todo|
      {
        var id :| id in todo;
        OneMoreChanged(before, todo, f, id);
        Entry(id);
        SetCore(id, f(m[id].Value()));
        todo := todo - {id};
      }
    }

    /** One pass over the current attempts; those chosen have their lease run on, where they lie. */
    method ForEachLease(chosen: Task -> bool, until: int, ghost f: Task -> Task, ghost lists: set<Attempts>, ghost repr: set<object>)
      requires Distinct() && Within(repr) && lists == Lists() && forall t :: f(t) == LeaseRenewed(t, chosen, until)
      modifies lists
      ensures Within(repr) && View() == Mapped(old(View()), f)
    {
      ghost var before := View();
      hide *;
      ViewKeys();
      ChangedEnds(before, f);
      var todo := m.Keys;
      while todo != {}
        invariant todo <= m.Keys && View() == Changed(before, todo, f) && Within(repr)
        decreases |todo|
      {
        var id :| id in todo;
        OneMoreChanged(before, todo, f, id);
        InLists(id);
        RenewOne(id, chosen, until, f, repr);
        todo := todo - {id};
      }
    }

    lemma InLists(id: string)
      requires id in m
      ensures m[id].attempts in Lists() && id in View()
    {
    }

    method RenewOne(id: string, chosen: Task -> bool, until: int, ghost f: Task -> Task, ghost repr: set<object>)
      requires Distinct() && Within(repr) && id in m && f(View()[id]) == LeaseRenewed(View()[id], chosen, until)
      modifies m[id].attempts
      ensures Within(repr) && View() == old(View())[id := f(old(View())[id])]
    {
      hide View, Within, Distinct;
      Entry(id);
      var list := m[id].attempts;
      if |list.cells| > 0 && chosen(m[id].Value()) {
        var c := list.cells[|list.cells| - 1];
        LastCell(id, repr);
        WriteLast(id, c.(core := c.core.(leaseUntil := until)), repr);
      } else {
        assert View() == View()[id := View()[id]];
      }
    }

    lemma LastCell(id: string, repr: set<object>)
      requires Within(repr) && id in m && m[id].attempts.cells != []
      ensures var c := m[id].attempts.cells[|m[id].attempts.cells| - 1];
              CellWithin(c, repr) && m[id].Value().attempts != [] && Current(m[id].Value()) == CellValue(c)
    {
    }

    method Add(id: string, t: Task, ghost repr: set<object>) returns (ghost parts: set<object>)
      requires Distinct() && Within(repr) && this in repr
      modifies this
      ensures fresh(parts) && Distinct() && Within(repr + parts)
      ensures View() == old(View())[id := t]
    {
      hide TaskRef.Value, TaskRef.Within;
      var r, p := NewTaskRef(t);
      forall k | k in m ensures m[k].Within(repr + p) {
        m[k].WithinMore(repr, repr + p);
      }
      r.WithinMore(p, repr + p);
      NewAmong(r, p, repr);
      m := m[id := r];
      parts := p;
    }

    lemma NewAmong(r: TaskRef, p: set<object>, repr: set<object>)
      requires r.Within(p) && p !! repr && Within(repr)
      ensures forall k :: k in m ==> m[k] != r && m[k].attempts != r.attempts
    {
    }

    method Clone() returns (c: TaskMap, ghost parts: set<object>)
      ensures fresh(parts) && c in parts && c.Distinct() && c.Within(parts) && c.View() == View()
    {
      hide Distinct, Within, TaskRef.Value;
      c := NewTaskMap();
      parts := {c};
      var todo := m.Keys;
      while todo != {}
        invariant todo <= m.Keys && c in parts && fresh(parts) && c.Distinct() && c.Within(parts)
        invariant c.View().Keys == m.Keys - todo && forall id :: id in c.View() ==> c.View()[id] == m[id].Value()
        decreases |todo|
      {
        var id :| id in todo;
        todo := todo - {id};
        ghost var p := c.Add(id, m[id].Value(), parts);
        parts := parts + p;
      }
    }
  }

  method NewTaskMap() returns (c: TaskMap)
    ensures fresh(c) && c.m == map[] && c.Distinct() && c.Within({c}) && c.View() == map[]
  {
    c := new TaskMap(map[]);
  }

  /** Hashed credentials by id. */
  class Secrets {
    var m: map<string, Secret>
    constructor (m: map<string, Secret>) ensures this.m == m { this.m := m; }
  }

  /** The store: plain fields, and the maps behind pointers. */
  class Store {
    var enabled: bool
    var paused: bool
    var operatorId: string
    var lead: Leadership
    var standbys: Names
    const peers: PeerMap
    const agents: AgentMap
    const tasks: TaskMap
    var nextTask: nat
    var serverTime: int
    const peerSecrets: Secrets
    const executionSecrets: Secrets
    /** Every object the store is made of, at any depth. */
    ghost var Repr: set<object>

    /** All its objects are in the footprint, and no record or list of attempts is filed twice. */
    ghost predicate Valid()
      reads this, Repr
    {
      && this in Repr && {peers, agents, tasks, peerSecrets, executionSecrets, standbys} <= Repr
      && peerSecrets != executionSecrets
      && peers.Distinct() && peers.Within(Repr)
      && agents.Distinct() && agents.Within(Repr)
      && tasks.Distinct() && tasks.Lists() <= Repr && tasks.Within(Repr)
    }

    function LeadershipNow(): Leadership
      reads this
    {
      lead.(standbys := standbys.items)
    }

    /** The board the store holds. */
    ghost function View(): Board
      requires Valid()
      reads this, Repr
    {
      Board(enabled, paused, operatorId, LeadershipNow(), peers.View(), agents.View(), tasks.View(), nextTask, serverTime,
            peerSecrets.m, executionSecrets.m)
    }

    constructor ()
      ensures Valid() && fresh(Repr) && View() == NEW_BOARD
    {
      enabled, paused, operatorId, lead := false, false, "", Leadership("", 0, 0, [], false);
      standbys := new Names([]);
      peers := new PeerMap(map[]);
      agents := new AgentMap(map[]);
      tasks := new TaskMap(map[]);
      nextTask, serverTime := 0, 0;
      peerSecrets := new Secrets(map[]);
      executionSecrets := new Secrets(map[]);
      new;
      Repr := {this, standbys, peers, agents, tasks, peerSecrets, executionSecrets};
    }

    /** The struct copy of a store around copied maps. */
    constructor Copy(src: Store, standbys: Names, peers: PeerMap, agents: AgentMap, tasks: TaskMap,
                     peerSecrets: Secrets, executionSecrets: Secrets, ghost parts: set<object>)
      requires src.Valid() && standbys.items == src.standbys.items && peers.View() == src.peers.View()
      requires agents.View() == src.agents.View() && tasks.View() == src.tasks.View()
      requires peerSecrets.m == src.peerSecrets.m && executionSecrets.m == src.executionSecrets.m
      requires {peers, agents, tasks, peerSecrets, executionSecrets, standbys} <= parts && peerSecrets != executionSecrets
      requires peers.Distinct() && peers.Within(parts) && agents.Distinct() && agents.Within(parts)
      requires tasks.Distinct() && tasks.Within(parts)
      ensures Repr == parts + {this} && Valid() && View() == src.View()
    {
      hide PeerMap.View, AgentMap.View, TaskMap.View, PeerMap.Distinct, AgentMap.Distinct, TaskMap.Distinct, PeerMap.Within,
           AgentMap.Within, AgentRef.Within, TaskRef.Within, CellWithin;
      enabled, paused, operatorId, lead := src.enabled, src.paused, src.operatorId, src.lead;
      this.standbys := standbys;
      this.peers, this.agents, this.tasks := peers, agents, tasks;
      nextTask, serverTime := src.nextTask, src.serverTime;
      this.peerSecrets, this.executionSecrets := peerSecrets, executionSecrets;
      new;
      peers.WithinMore(parts, parts + {this});
      agents.WithinMore(parts, parts + {this});
      tasks.WithinMore(parts, parts + {this});
      Repr := parts + {this};
    }

    function PeerAt(id: string): (p: Peer)
      requires Valid() && id in peers.m
      reads this, Repr
      ensures id in View().peers && p == View().peers[id]
    {
      peers.m[id].v
    }

    function AgentAt(id: string): (a: Agent)
      requires Valid() && id in agents.m
      reads this, Repr
      ensures id in View().agents && a == View().agents[id]
    {
      agents.m[id].Value()
    }

    function TaskAt(id: string): (t: Task)
      requires Valid() && id in tasks.m
      reads this, Repr
      ensures id in View().tasks && t == View().tasks[id]
    {
      tasks.m[id].Value()
    }

    lemma Fields()
      requires Valid()
      ensures View().peers.Keys == peers.m.Keys && View().agents.Keys == agents.m.Keys && View().tasks.Keys == tasks.m.Keys
      ensures View().enabled == enabled && View().paused == paused && View().leadership == LeadershipNow()
      ensures View().serverTime == serverTime && View().operatorId == operatorId && View().nextTask == nextTask
      ensures View().peerSecrets == peerSecrets.m && View().executionSecrets == executionSecrets.m
    {
    }

    /** The objects that are written into belong to the store. */
    lemma Reach()
      requires Valid()
      ensures this in Repr && peers.m.Values <= Repr && agents.m.Values <= Repr && tasks.m.Values <= Repr && tasks.Lists() <= Repr
      ensures forall id :: id in peers.m ==> peers.m[id] in peers.m.Values
      ensures forall id :: id in tasks.m ==> tasks.m[id] in tasks.m.Values && tasks.m[id].attempts in tasks.Lists()
    {
    }

    /** A larger footprint holds what a smaller one does. */
    lemma StillWithin(more: set<object>)
      requires Valid() && Repr <= more
      ensures peers.Within(more) && agents.Within(more) && tasks.Within(more) && tasks.Lists() <= more
    {
      hide *;
      ValidParts();
      peers.WithinMore(Repr, more);
      agents.WithinMore(Repr, more);
      tasks.WithinMore(Repr, more);
    }

    lemma ValidParts()
      requires Valid()
      ensures peers.Within(Repr) && agents.Within(Repr) && tasks.Within(Repr)
    {
    }

    // Changes to the store's own fields.

    /** A changed list of standbys is a new list. */
    method SetLeadership(l: Leadership)
      requires Valid()
      modifies Repr
      ensures Valid() && fresh(Repr - old(Repr)) && View() == old(View()).(leadership := l)
    {
      hide PeerMap.View, AgentMap.View, TaskMap.View, PeerMap.Distinct, AgentMap.Distinct, TaskMap.Distinct, PeerMap.Within,
           AgentMap.Within, TaskMap.Within, TaskMap.Lists, AgentRef.Within, TaskRef.Within, CellWithin;
      Reach();
      lead := l;
      if l.standbys != standbys.items {
        var list := new Names(l.standbys);
        GrowRepr({list});
        standbys := list;
      }
    }

    /** New objects join the footprint. */
    ghost method GrowRepr(parts: set<object>)
      requires Valid()
      modifies `Repr
      ensures Valid() && Repr == old(Repr) + parts && View() == old(View())
    {
      StillWithin(Repr + parts);
      hide PeerMap.View, AgentMap.View, TaskMap.View, PeerMap.Distinct, AgentMap.Distinct, TaskMap.Distinct, PeerMap.Within,
           AgentMap.Within, TaskMap.Within, TaskMap.Lists, AgentRef.Within, TaskRef.Within, CellWithin;
      Repr := Repr + parts;
    }

    method SetFlags(enabled: bool, paused: bool, operatorId: string, serverTime: int)
      requires Valid()
      modifies Repr
      ensures Valid() && Repr == old(Repr)
      ensures View() == old(View()).(enabled := enabled, paused := paused, operatorId := operatorId, serverTime := serverTime)
    {
      hide PeerMap.View, AgentMap.View, TaskMap.View, PeerMap.Distinct, AgentMap.Distinct, TaskMap.Distinct, PeerMap.Within,
           AgentMap.Within, TaskMap.Within, TaskMap.Lists, AgentRef.Within, TaskRef.Within, CellWithin;
      Reach();
      this.enabled, this.paused, this.operatorId, this.serverTime := enabled, paused, operatorId, serverTime;
    }

    method SetNextTask(n: nat)
      requires Valid()
      modifies Repr
      ensures Valid() && Repr == old(Repr) && View() == old(View()).(nextTask := n)
    {
      hide PeerMap.View, AgentMap.View, TaskMap.View, PeerMap.Distinct, AgentMap.Distinct, TaskMap.Distinct, PeerMap.Within,
           AgentMap.Within, TaskMap.Within, TaskMap.Lists, AgentRef.Within, TaskRef.Within, CellWithin;
      Reach();
      nextTask := n;
    }

    // Changes written into a map or a record.

    method SetPeerSecrets(m: map<string, Secret>)
      requires Valid()
      modifies Repr
      ensures Valid() && Repr == old(Repr) && View() == old(View()).(peerSecrets := m)
    {
      hide PeerMap.View, AgentMap.View, TaskMap.View, PeerMap.Distinct, AgentMap.Distinct, TaskMap.Distinct, PeerMap.Within,
           AgentMap.Within, TaskMap.Within, TaskMap.Lists, AgentRef.Within, TaskRef.Within, CellWithin;
      Reach();
      peerSecrets.m := m;
    }

    method SetExecutionSecrets(m: map<string, Secret>)
      requires Valid()
      modifies Repr
      ensures Valid() && Repr == old(Repr) && View() == old(View()).(executionSecrets := m)
    {
      hide PeerMap.View, AgentMap.View, TaskMap.View, PeerMap.Distinct, AgentMap.Distinct, TaskMap.Distinct, PeerMap.Within,
           AgentMap.Within, TaskMap.Within, TaskMap.Lists, AgentRef.Within, TaskRef.Within, CellWithin;
      Reach();
      executionSecrets.m := m;
    }

    method SetPeer(id: string, p: Peer)
      requires Valid() && id in peers.m
      modifies Repr
      ensures Valid() && Repr == old(Repr) && View() == old(View()).(peers := old(View()).peers[id := p])
    {
      hide PeerMap.View, AgentMap.View, TaskMap.View, PeerMap.Distinct, AgentMap.Distinct, TaskMap.Distinct, PeerMap.Within,
           AgentMap.Within, TaskMap.Within, TaskMap.Lists, AgentRef.Within, TaskRef.Within, CellWithin;
      Reach();
      peers.Set(id, p);
    }

    method AddPeer(id: string, p: Peer)
      requires Valid()
      modifies Repr
      ensures Valid() && fresh(Repr - old(Repr)) && View() == old(View()).(peers := old(View()).peers[id := p])
    {
      hide PeerMap.View, AgentMap.View, TaskMap.View, PeerMap.Distinct, AgentMap.Distinct, TaskMap.Distinct, PeerMap.Within,
           AgentMap.Within, TaskMap.Within, TaskMap.Lists, AgentRef.Within, TaskRef.Within, CellWithin;
      Reach();
      ghost var parts := peers.Add(id, p, Repr);
      agents.WithinMore(Repr, Repr + parts);
      tasks.WithinMore(Repr, Repr + parts);
      peers.WithinMore(Repr + parts, Repr + parts);
      Repr := Repr + parts;
    }

    method ForEachAgent(f: Agent -> Agent)
      requires Valid() && forall a :: f(a).projects == a.projects && f(a).capabilities == a.capabilities
      modifies Repr
      ensures Valid() && Repr == old(Repr) && View() == old(View()).(agents := Mapped(old(View()).agents, f))
    {
      hide PeerMap.View, AgentMap.View, TaskMap.View, PeerMap.Distinct, AgentMap.Distinct, TaskMap.Distinct, PeerMap.Within,
           AgentMap.Within, TaskMap.Within, TaskMap.Lists, AgentRef.Within, TaskRef.Within, CellWithin;
      Reach();
      agents.ForEach(f);
    }

    method AddAgent(id: string, a: Agent)
      requires Valid()
      modifies Repr
      ensures Valid() && fresh(Repr - old(Repr)) && View() == old(View()).(agents := old(View()).agents[id := a])
    {
      hide PeerMap.View, AgentMap.View, TaskMap.View, PeerMap.Distinct, AgentMap.Distinct, TaskMap.Distinct, PeerMap.Within,
           AgentMap.Within, TaskMap.Within, TaskMap.Lists, AgentRef.Within, TaskRef.Within, CellWithin;
      Reach();
      ghost var parts := agents.Add(id, a, Repr);
      peers.WithinMore(Repr, Repr + parts);
      tasks.WithinMore(Repr, Repr + parts);
      agents.WithinMore(Repr + parts, Repr + parts);
      Repr := Repr + parts;
    }

    method SetTaskCore(id: string, t: Task)
      requires Valid() && id in tasks.m
      requires t.attempts == View().tasks[id].attempts && t.dependencies == View().tasks[id].dependencies
      modifies Repr
      ensures Valid() && Repr == old(Repr) && View() == old(View()).(tasks := old(View()).tasks[id := t])
    {
      hide PeerMap.View, AgentMap.View, TaskMap.View, PeerMap.Distinct, AgentMap.Distinct, TaskMap.Distinct, PeerMap.Within,
           AgentMap.Within, TaskMap.Within, TaskMap.Lists, AgentRef.Within, TaskRef.Within, CellWithin;
      Reach();
      tasks.Entry(id);
      tasks.SetCore(id, t);
    }

    method ForEachTask(f: Task -> Task)
      requires Valid() && forall t :: f(t).attempts == t.attempts && f(t).dependencies == t.dependencies
      modifies Repr
      ensures Valid() && Repr == old(Repr) && View() == old(View()).(tasks := Mapped(old(View()).tasks, f))
    {
      hide PeerMap.View, AgentMap.View, TaskMap.View, PeerMap.Distinct, AgentMap.Distinct, TaskMap.Distinct, PeerMap.Within,
           AgentMap.Within, TaskMap.Within, TaskMap.Lists, AgentRef.Within, TaskRef.Within, CellWithin;
      Reach();
      tasks.ForEachCore(f);
    }

    method ForEachLease(chosen: Task -> bool, until: int, ghost f: Task -> Task)
      requires Valid() && forall t :: f(t) == LeaseRenewed(t, chosen, until)
      modifies Repr
      ensures Valid() && Repr == old(Repr) && View() == old(View()).(tasks := Mapped(old(View()).tasks, f))
    {
      hide PeerMap.View, AgentMap.View, TaskMap.View, PeerMap.Distinct, AgentMap.Distinct, TaskMap.Distinct, PeerMap.Within,
           AgentMap.Within, TaskMap.Within, TaskMap.Lists, AgentRef.Within, TaskRef.Within, CellWithin;
      Reach();
      tasks.ForEachLease(chosen, until, f, tasks.Lists(), Repr);
    }

    method AddTask(id: string, t: Task)
      requires Valid()
      modifies Repr
      ensures Valid() && fresh(Repr - old(Repr)) && View() == old(View()).(tasks := old(View()).tasks[id := t])
    {
      hide PeerMap.View, AgentMap.View, TaskMap.View, PeerMap.Distinct, AgentMap.Distinct, TaskMap.Distinct, PeerMap.Within,
           AgentMap.Within, TaskMap.Within, TaskMap.Lists, AgentRef.Within, TaskRef.Within, CellWithin;
      Reach();
      ghost var parts := tasks.Add(id, t, Repr);
      peers.WithinMore(Repr, Repr + parts);
      agents.WithinMore(Repr, Repr + parts);
      tasks.WithinMore(Repr + parts, Repr + parts);
      Repr := Repr + parts;
    }

    /** Writes over the current attempt of a task, where it lies. */
    method WriteCurrent(id: string, c: Cell)
      requires Valid() && id in tasks.m && tasks.m[id].attempts.cells != [] && CellWithin(c, Repr)
      modifies Repr
      ensures Valid() && Repr == old(Repr)
      ensures id in old(View()).tasks && old(View()).tasks[id].attempts != []
      ensures View() == old(View()).(tasks := old(View()).tasks[id := WithCurrent(old(View()).tasks[id], CellValue(c))])
    {
      hide PeerMap.View, AgentMap.View, TaskMap.View, PeerMap.Distinct, AgentMap.Distinct, TaskMap.Distinct, PeerMap.Within,
           AgentMap.Within, TaskMap.Within, TaskMap.Lists, AgentRef.Within, TaskRef.Within, CellWithin, TaskRef.Value;
      Reach();
      tasks.Entry(id);
      tasks.WriteLast(id, c, Repr);
    }

    /** The cell that holds the current attempt. */
    method CurrentCell(id: string) returns (c: Cell)
      requires Valid() && id in View().tasks && View().tasks[id].attempts != []
      ensures id in tasks.m && tasks.m[id].attempts.cells != []
      ensures CellWithin(c, Repr) && CellValue(c) == Current(View().tasks[id])
    {
      tasks.Entry(id);
      tasks.LastCell(id, Repr);
      c := tasks.m[id].attempts.cells[|tasks.m[id].attempts.cells| - 1];
    }

    /** The current attempt with its plain fields rewritten; result and stamps stay where they are. */
    method SetCurrent(id: string, at: Attempt)
      requires Valid() && id in View().tasks && View().tasks[id].attempts != []
      requires at.result == Current(View().tasks[id]).result && at.startedAt == Current(View().tasks[id]).startedAt
      requires at.endedAt == Current(View().tasks[id]).endedAt
      modifies Repr
      ensures Valid() && Repr == old(Repr)
      ensures View() == old(View()).(tasks := old(View()).tasks[id := WithCurrent(old(View()).tasks[id], at)])
    {
      hide Valid, View;
      var c := CurrentCell(id);
      WriteCurrent(id, c.(core := at));
    }

    /** The current attempt with a result of its own. */
    method SetResult(id: string, result: string)
      requires Valid() && id in View().tasks && View().tasks[id].attempts != []
      modifies Repr
      ensures Valid() && fresh(Repr - old(Repr))
      ensures View() == old(View()).(tasks := old(View()).tasks[id :=
                WithCurrent(old(View()).tasks[id], Current(old(View()).tasks[id]).(result := result))])
    {
      hide Valid, View;
      Reach();
      var bytes := new Bytes(result);
      GrowRepr({bytes});
      var c := CurrentCell(id);
      WriteCurrent(id, c.(result := bytes));
    }

    method SetStarted(id: string, at: int)
      requires Valid() && id in View().tasks && View().tasks[id].attempts != []
      modifies Repr
      ensures Valid() && fresh(Repr - old(Repr))
      ensures View() == old(View()).(tasks := old(View()).tasks[id :=
                WithCurrent(old(View()).tasks[id], Current(old(View()).tasks[id]).(startedAt := Some(at)))])
    {
      hide Valid, View;
      Reach();
      var stamp := new Stamp(at);
      GrowRepr({stamp});
      var c := CurrentCell(id);
      WriteCurrent(id, c.(startedAt := stamp));
    }

    method SetEnded(id: string, at: int)
      requires Valid() && id in View().tasks && View().tasks[id].attempts != []
      modifies Repr
      ensures Valid() && fresh(Repr - old(Repr))
      ensures View() == old(View()).(tasks := old(View()).tasks[id :=
                WithCurrent(old(View()).tasks[id], Current(old(View()).tasks[id]).(endedAt := Some(at)))])
    {
      hide Valid, View;
      Reach();
      var stamp := new Stamp(at);
      GrowRepr({stamp});
      var c := CurrentCell(id);
      WriteCurrent(id, c.(endedAt := stamp));
    }

    method AppendAttempt(id: string, at: Attempt)
      requires Valid() && id in View().tasks
      modifies Repr
      ensures Valid() && fresh(Repr - old(Repr))
      ensures View() == old(View()).(tasks := old(View()).tasks[id :=
                old(View()).tasks[id].(attempts := old(View()).tasks[id].attempts + [at])])
    {
      hide Valid, View;
      Fields();
      Reach();
      var c, parts := NewCell(at);
      GrowRepr(parts);
      CellWithinMore(c, parts, Repr);
      AppendCell(id, c);
    }

    method AppendCell(id: string, c: Cell)
      requires Valid() && id in tasks.m && CellWithin(c, Repr)
      modifies Repr
      ensures Valid() && Repr == old(Repr) && id in old(View()).tasks
      ensures View() == old(View()).(tasks := old(View()).tasks[id :=
                old(View()).tasks[id].(attempts := old(View()).tasks[id].attempts + [CellValue(c)])])
    {
      hide PeerMap.View, AgentMap.View, TaskMap.View, PeerMap.Distinct, AgentMap.Distinct, TaskMap.Distinct, PeerMap.Within,
           AgentMap.Within, TaskMap.Within, TaskMap.Lists, AgentRef.Within, TaskRef.Within, CellWithin, TaskRef.Value;
      Reach();
      tasks.Entry(id);
      tasks.Append(id, c, Repr);
    }
  }

  lemma CellWithinMore(c: Cell, repr: set<object>, more: set<object>)
    requires CellWithin(c, repr) && repr <= more
    ensures CellWithin(c, more)
  {
  }

  method CloneSecrets(src: Secrets) returns (c: Secrets)
    ensures fresh(c) && c.m == src.m
  {
    c := new Secrets(src.m);
  }

  /** The deep copy: the same board in objects that are all new. */
  method CloneStore(src: Store) returns (dst: Store)
    requires src.Valid()
    ensures dst.Valid() && fresh(dst.Repr) && dst.View() == src.View()
  {
    hide *;
    var standbys := new Names(src.standbys.items);
    var peerSecrets := CloneSecrets(src.peerSecrets);
    var executionSecrets := CloneSecrets(src.executionSecrets);
    var peers, p := src.peers.Clone();
    var agents, a := src.agents.Clone();
    var tasks, t := src.tasks.Clone();
    ghost var parts := {standbys, peerSecrets, executionSecrets} + p + a + t;
    tasks.WithinMore(t, parts);
    peers.WithinMore(p, parts);
    agents.WithinMore(a, parts);
    dst := new Store.Copy(src, standbys, peers, agents, tasks, peerSecrets, executionSecrets, parts);
  }

  /** Every object of the store is new, at every depth: the maps, the records, their lists, and the
      results and stamps of every attempt. */
  twostate predicate AllNew(new s: Store)
    reads s, s.Repr
  {
    && s.Valid() && fresh(s) && fresh(s.standbys) && fresh(s.peerSecrets) && fresh(s.executionSecrets)
    && fresh(s.peers) && (forall id :: id in s.peers.m ==> fresh(s.peers.m[id]))
    && fresh(s.agents) && (forall id :: id in s.agents.m ==>
                             fresh(s.agents.m[id]) && fresh(s.agents.m[id].projects) && fresh(s.agents.m[id].capabilities))
    && fresh(s.tasks) && (forall id :: id in s.tasks.m ==>
                            fresh(s.tasks.m[id]) && fresh(s.tasks.m[id].dependencies) && fresh(s.tasks.m[id].attempts))
    && (forall id, c :: id in s.tasks.m && c in s.tasks.m[id].attempts.cells ==>
          fresh(c.result) && (c.startedAt != null ==> fresh(c.startedAt)) && (c.endedAt != null ==> fresh(c.endedAt)))
  }

  twostate lemma NewThroughout(new s: Store)
    requires s.Valid() && fresh(s.Repr)
    ensures AllNew(s)
  {
  }
}
