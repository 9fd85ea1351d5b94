/** One inbox for all requests: a reply is routed to the waiter its subject names. Each method's
    locked section, and each channel operation, is one atomic step; steps of different callers
    interleave freely. */
module ReplyMux {
  import opened Basics

  /** The request counter is an unsigned 64-bit integer. */
  const WRAP := 0x1_0000_0000_0000_0000

  function Digit36(d: nat): char
    requires d < 36
  {
    if d < 10 then '0' + d as char else 'a' + (d - 10) as char
  }

  function Value36(c: char): nat {
    if '0' <= c <= '9' then c as int - '0' as int else if 'a' <= c <= 'z' then c as int - 'a' as int + 10 else 0
  }

  function Base36(n: nat): string {
    if n < 36 then [Digit36(n)] else Base36(n / 36) + [Digit36(n % 36)]
  }

  function Read36(s: string): nat {
    if s == "" then 0 else 36 * Read36(s[..|s| - 1]) + Value36(s[|s| - 1])
  }

  lemma {:induction false} ReadBase36(n: nat)
    ensures Read36(Base36(n)) == n && '.' !in Base36(n)
  {
    if n >= 36 {
      ReadBase36(n / 36);
      assert Base36(n)[..|Base36(n)| - 1] == Base36(n / 36);
    } else {
      assert [Digit36(n)][..0] == "";
    }
  }

  /** The token of the k-th registration, counted from zero; the counter is bumped before use. */
  function Token(k: nat): string {
    Base36((k + 1) % WRAP)
  }

  /** Tokens repeat exactly when the counter has gone all the way round. */
  lemma TokensRepeatIff(i: nat, j: nat)
    ensures Token(i) == Token(j) <==> i % WRAP == j % WRAP
  {
    ReadBase36((i + 1) % WRAP);
    ReadBase36((j + 1) % WRAP);
    CountsOn(i);
    CountsOn(j);
    hide Base36;
  }

  lemma CountsOn(n: nat)
    ensures (n + 1) % WRAP == if n % WRAP == WRAP - 1 then 0 else n % WRAP + 1
  {
  }

  datatype Msg = Msg(subject: string, data: string)

  /** What follows the last dot of a subject. */
  function LastToken(subject: string): string {
    if subject == "" then ""
    else
      var n := |subject| - 1;
      if subject[n] == '.' then "" else LastToken(subject[..n]) + [subject[n]]
  }

  lemma {:induction false} LastTokenOf(prefix: string, token: string)
    requires '.' !in token
    ensures LastToken(prefix + "." + token) == token
    decreases |token|
  {
    var s := prefix + "." + token;
    if token != "" {
      assert s[..|s| - 1] == prefix + "." + token[..|token| - 1];
      LastTokenOf(prefix, token[..|token| - 1]);
    }
  }

  // The protocol.

  /** Who waits under which token, the replies taken but not yet sent on, and each waiter's channel
      and what came out of it. */
  datatype State = State(next: nat, wait: map<string, nat>, handed: seq<(nat, Msg)>, buffers: seq<seq<Msg>>, received: seq<seq<Msg>>)

  const IDLE := State(0, map[], [], [], [])

  datatype Step = Register | Take(m: Msg) | Send(i: nat) | Receive(k: nat) | Release(k: nat)

  function Without<T>(s: seq<T>, i: nat): seq<T>
    requires i < |s|
  {
    s[..i] + s[i + 1..]
  }

  ghost predicate Shaped(s: State) {
    && |s.buffers| == s.next && |s.received| == s.next
    && (forall t :: t in s.wait ==> s.wait[t] < s.next && t == Token(s.wait[t]))
    && (forall i :: 0 <= i < |s.handed| ==> s.handed[i].0 < s.next)
  }

  /** One step; none where a channel operation has to wait, or there is no such step. */
  function Next(s: State, step: Step): Option<State>
    requires Shaped(s)
  {
    match step
    case Register =>
      Some(State(s.next + 1, s.wait[Token(s.next) := s.next], s.handed, s.buffers + [[]], s.received + [[]]))
    case Take(m) =>
      var t := LastToken(m.subject);
      Some(if t in s.wait then s.(wait := s.wait - {t}, handed := s.handed + [(s.wait[t], m)]) else s)
    case Send(i) =>
      if i < |s.handed| && |s.buffers[s.handed[i].0]| < 1 then
        var (k, m) := s.handed[i];
        Some(s.(handed := Without(s.handed, i), buffers := s.buffers[k := s.buffers[k] + [m]]))
      else None
    case Receive(k) =>
      if k < s.next && s.buffers[k] != [] then
        Some(s.(buffers := s.buffers[k := s.buffers[k][1..]], received := s.received[k := s.received[k] + [s.buffers[k][0]]]))
      else None
    case Release(k) =>
      if k < s.next then Some(s.(wait := s.wait - {Token(k)})) else None
  }

  predicate Waiting(s: State, k: nat) {
    Token(k) in s.wait && s.wait[Token(k)] == k
  }

  function HandedTo(handed: seq<(nat, Msg)>, k: nat): nat {
    if handed == [] then 0
    else HandedTo(handed[..|handed| - 1], k) + if handed[|handed| - 1].0 == k then 1 else 0
  }

  /** How many replies a waiter has had, has coming, or may still get. */
  ghost function Load(s: State, k: nat): nat
    requires Shaped(s) && k < s.next
  {
    (if Waiting(s, k) then 1 else 0) + HandedTo(s.handed, k) + |s.buffers[k]| + |s.received[k]|
  }

  ghost predicate OneEach(s: State)
    requires Shaped(s)
  {
    forall k :: 0 <= k < s.next ==> Load(s, k) <= 1
  }

  predicate For(m: Msg, k: nat) {
    LastToken(m.subject) == Token(k)
  }

  /** Every reply on its way is for the waiter it is on its way to. */
  ghost predicate Addressed(s: State)
    requires Shaped(s)
  {
    && (forall i :: 0 <= i < |s.handed| ==> For(s.handed[i].1, s.handed[i].0))
    && (forall k :: 0 <= k < s.next ==> forall m :: m in s.buffers[k] ==> For(m, k))
    && (forall k :: 0 <= k < s.next ==> forall m :: m in s.received[k] ==> For(m, k))
  }

  ghost predicate Inv(s: State) {
    Shaped(s) && OneEach(s) && Addressed(s)
  }

  lemma {:induction false} HandedSnoc(handed: seq<(nat, Msg)>, x: (nat, Msg), k: nat)
    ensures HandedTo(handed + [x], k) == HandedTo(handed, k) + if x.0 == k then 1 else 0
  {
    assert (handed + [x])[..|handed|] == handed;
  }

  lemma {:induction false} HandedWithout(handed: seq<(nat, Msg)>, i: nat, k: nat)
    requires i < |handed|
    ensures HandedTo(handed, k) == HandedTo(Without(handed, i), k) + if handed[i].0 == k then 1 else 0
  {
    var n := |handed| - 1;
    var rest := Without(handed, i);
    if i < n {
      HandedWithout(handed[..n], i, k);
      assert rest[..n - 1] == Without(handed[..n], i) && rest[n - 1] == handed[n];
    } else {
      assert rest == handed[..n];
    }
  }

  lemma {:induction false} NoneHanded(handed: seq<(nat, Msg)>, k: nat)
    requires forall i :: 0 <= i < |handed| ==> handed[i].0 < k
    ensures HandedTo(handed, k) == 0
  {
    if handed != [] {
      NoneHanded(handed[..|handed| - 1], k);
    }
  }

  lemma {:induction false} HandedIsCounted(handed: seq<(nat, Msg)>, i: nat)
    requires i < |handed|
    ensures HandedTo(handed, handed[i].0) >= 1
  {
    HandedWithout(handed, i, handed[i].0);
  }

  lemma StepShapes(s: State, step: Step)
    requires Shaped(s) && Next(s, step).Some?
    ensures Shaped(Next(s, step).value)
  {
    hide Token, LastToken;
  }

  lemma StepAddresses(s: State, step: Step)
    requires Shaped(s) && Next(s, step).Some? && Shaped(Next(s, step).value) && Addressed(s)
    ensures Addressed(Next(s, step).value)
  {
    hide Token, LastToken;
  }

  lemma StepLoads(s: State, step: Step, k: nat)
    requires Shaped(s) && OneEach(s) && Next(s, step).Some? && Shaped(Next(s, step).value) && k < Next(s, step).value.next
    ensures Load(Next(s, step).value, k) <= 1
  {
    hide Token, LastToken;
    match step
    case Register =>
      if k == s.next {
        NoneHanded(s.handed, k);
      } else {
        assert Load(s, k) <= 1;
      }
    case Take(m) =>
      assert Load(s, k) <= 1;
      var t := LastToken(m.subject);
      if t in s.wait {
        HandedSnoc(s.handed, (s.wait[t], m), k);
      }
    case Send(i) =>
      assert Load(s, k) <= 1;
      HandedWithout(s.handed, i, k);
    case Receive(j) =>
      assert Load(s, k) <= 1;
    case Release(j) =>
      assert Load(s, k) <= 1;
  }

  lemma StepKeepsInv(s: State, step: Step)
    requires Inv(s) && Next(s, step).Some?
    ensures Inv(Next(s, step).value)
  {
    hide Shaped, Addressed, Next, Load;
    StepShapes(s, step);
    StepAddresses(s, step);
    forall k | 0 <= k < Next(s, step).value.next ensures Load(Next(s, step).value, k) <= 1 {
      StepLoads(s, step, k);
    }
  }

  /** The states of an interleaving: each step was possible where it was made. */
  ghost predicate Run(states: seq<State>, steps: seq<Step>) {
    && |states| == |steps| + 1 && Shaped(states[0])
    && forall i :: 0 <= i < |steps| ==> Shaped(states[i]) && Next(states[i], steps[i]) == Some(states[i + 1])
  }

  lemma {:induction false} RunKeepsInv(states: seq<State>, steps: seq<Step>, n: nat)
    requires Run(states, steps) && Inv(states[0]) && n < |states|
    ensures Inv(states[n])
  {
    if n > 0 {
      RunKeepsInv(states, steps, n - 1);
      assert Next(states[n - 1], steps[n - 1]) == Some(states[n]);
      hide Inv, Next;
      StepKeepsInv(states[n - 1], steps[n - 1]);
    }
  }

  /** In every interleaving from the start: no waiter ever receives twice, or a reply not for it. */
  lemma AtMostOneReply(states: seq<State>, steps: seq<Step>, n: nat, k: nat)
    requires Run(states, steps) && states[0] == IDLE && n < |states| && k < states[n].next
    ensures Shaped(states[n]) && |states[n].received[k]| <= 1
    ensures forall m :: m in states[n].received[k] ==> For(m, k)
  {
    RunKeepsInv(states, steps, n);
    assert Load(states[n], k) <= 1;
    hide HandedTo, Token, LastToken;
  }

  /** The send on a waiter's channel never has to wait. */
  lemma SendNeverBlocks(states: seq<State>, steps: seq<Step>, n: nat, i: nat)
    requires Run(states, steps) && states[0] == IDLE && n < |states| && i < |states[n].handed|
    ensures Shaped(states[n]) && Next(states[n], Send(i)).Some?
  {
    RunKeepsInv(states, steps, n);
    var s := states[n];
    assert Load(s, s.handed[i].0) <= 1;
    HandedIsCounted(s.handed, i);
    hide HandedTo, Token, LastToken;
  }

  // A reply that finds its waiter.

  /** The waiter has the reply, or it is on its way. */
  ghost predicate Has(s: State, k: nat, m: Msg)
    requires Shaped(s)
  {
    k < s.next && ((k, m) in s.handed || m in s.buffers[k] || m in s.received[k])
  }

  /** A reply for a waiting waiter is taken for it, and ends the wait. */
  lemma TakenForWaiter(s: State, m: Msg, k: nat)
    requires Inv(s) && Waiting(s, k) && For(m, k)
    ensures var t := Next(s, Take(m)).value; Shaped(t) && Has(t, k, m) && !Waiting(t, k)
  {
    StepShapes(s, Take(m));
    var t := Next(s, Take(m)).value;
    assert t.handed[|s.handed|] == (k, m);
  }

  lemma HandedStays(handed: seq<(nat, Msg)>, i: nat, x: (nat, Msg))
    requires i < |handed| && x in handed && handed[i] != x
    ensures x in Without(handed, i)
  {
    var j :| 0 <= j < |handed| && handed[j] == x;
    if j < i {
      assert Without(handed, i)[j] == x;
    } else {
      assert Without(handed, i)[j - 1] == x;
    }
  }

  /** No later step loses it. */
  lemma NeverLost(s: State, step: Step, k: nat, m: Msg)
    requires Shaped(s) && Has(s, k, m) && Next(s, step).Some? && Shaped(Next(s, step).value)
    ensures Has(Next(s, step).value, k, m)
  {
    hide Token, LastToken;
    var t := Next(s, step).value;
    match step
    case Send(i) =>
      if (k, m) in s.handed && s.handed[i] != (k, m) {
        HandedStays(s.handed, i, (k, m));
      } else if s.handed[i] == (k, m) {
        assert t.buffers[k][|s.buffers[k]|] == m;
      }
    case Receive(j) =>
      if j == k && m in s.buffers[k] {
        if m == s.buffers[k][0] {
          assert t.received[k][|s.received[k]|] == m;
        } else {
          assert m in s.buffers[k][1..];
        }
      }
    case _ =>
  }

  /** So it is the one reply the waiter can ever receive. */
  lemma OnlyThatReply(s: State, k: nat, m: Msg, other: Msg)
    requires Inv(s) && Has(s, k, m) && other in s.received[k]
    ensures other == m
  {
    assert Load(s, k) <= 1;
    if (k, m) in s.handed {
      var i :| 0 <= i < |s.handed| && s.handed[i] == (k, m);
      HandedIsCounted(s.handed, i);
    }
    hide HandedTo, Token, LastToken;
  }

  /** What ends a wait: a reply, the waiter's own release, or another caller on the same token. */
  predicate Disturbs(s: State, step: Step, k: nat) {
    match step
    case Register => Token(s.next) == Token(k)
    case Take(m) => For(m, k)
    case Send(i) => false
    case Receive(j) => false
    case Release(j) => Token(j) == Token(k)
  }

  lemma WaitEndsIff(s: State, step: Step, k: nat)
    requires Shaped(s) && Waiting(s, k) && Next(s, step).Some?
    ensures Waiting(Next(s, step).value, k) <==> !Disturbs(s, step, k)
  {
    assert k < s.next;
    hide Token, LastToken;
  }

  /** Before the counter has gone round, that other caller can only be the waiter itself. */
  lemma NoOtherDisturbs(s: State, step: Step, k: nat)
    requires Shaped(s) && s.next < WRAP && k < s.next && Next(s, step).Some? && Disturbs(s, step, k)
    ensures step == Release(k) || (step.Take? && For(step.m, k))
  {
    hide Token;
    SmallIsItself(s.next);
    SmallIsItself(k);
    match step
    case Register => TokensRepeatIff(s.next, k);
    case Release(j) =>
      SmallIsItself(j);
      TokensRepeatIff(j, k);
    case _ =>
  }

  lemma SmallIsItself(n: nat)
    requires n < WRAP
    ensures n % WRAP == n
  {
  }

  // From registering to receiving, and after giving up.

  /** A registered caller waits, with nothing in its channel yet. */
  lemma RegisteredWaits(s: State)
    requires Shaped(s)
    ensures Next(s, Register).Some?
    ensures var t := Next(s, Register).value;
            t.next == s.next + 1 && Shaped(t) && Waiting(t, s.next) && t.buffers[s.next] == [] && t.received[s.next] == []
  {
    StepShapes(s, Register);
    hide Token, LastToken;
  }

  lemma NothingYet(s: State, k: nat)
    requires Inv(s) && Waiting(s, k)
    ensures k < s.next && s.buffers[k] == [] && s.received[k] == []
  {
    hide Token, LastToken;
    assert Load(s, k) <= 1;
  }

  /** A reply for a waiting caller can be taken, sent and received, and is then all the caller has received. */
  lemma ReplyArrives(s: State, m: Msg, k: nat)
    requires Inv(s) && Waiting(s, k) && For(m, k)
    ensures Next(s, Take(m)).Some?
    ensures var taken := Next(s, Take(m)).value;
            && Shaped(taken) && !Waiting(taken, k) && Next(taken, Send(|s.handed|)).Some?
            && var sent := Next(taken, Send(|s.handed|)).value;
               && Shaped(sent) && Next(sent, Receive(k)).Some?
               && var got := Next(sent, Receive(k)).value;
                  Shaped(got) && got.received[k] == [m] && got.handed == s.handed
  {
    hide Token, LastToken, OneEach, Addressed;
    NothingYet(s, k);
    StepShapes(s, Take(m));
    var taken := Next(s, Take(m)).value;
    assert taken.handed == s.handed + [(k, m)] && Without(taken.handed, |s.handed|) == s.handed;
    StepShapes(taken, Send(|s.handed|));
    StepShapes(Next(taken, Send(|s.handed|)).value, Receive(k));
  }

  /** The replies a caller has had or has coming. */
  ghost function InHand(s: State, k: nat): nat
    requires Shaped(s) && k < s.next
  {
    HandedTo(s.handed, k) + |s.buffers[k]| + |s.received[k]|
  }

  /** A wait that is over is never taken up again, and nothing more comes for it. */
  lemma OverStaysOver(s: State, step: Step, k: nat)
    requires Shaped(s) && k < s.next && !Waiting(s, k) && Next(s, step).Some?
    ensures var t := Next(s, step).value; Shaped(t) && k < t.next && !Waiting(t, k) && InHand(t, k) == InHand(s, k)
  {
    hide Token, LastToken;
    StepShapes(s, step);
    match step
    case Take(m) =>
      var t := LastToken(m.subject);
      if t in s.wait {
        HandedSnoc(s.handed, (s.wait[t], m), k);
      }
    case Send(i) => HandedWithout(s.handed, i, k);
    case _ =>
  }

  lemma {:induction false} OverAllAlong(states: seq<State>, steps: seq<Step>, i: nat, n: nat, k: nat)
    requires Run(states, steps) && i <= n < |states| && Shaped(states[i]) && k < states[i].next && !Waiting(states[i], k)
    ensures Shaped(states[n]) && k < states[n].next && !Waiting(states[n], k) && InHand(states[n], k) == InHand(states[i], k)
    decreases n - i
  {
    if i < n {
      OverAllAlong(states, steps, i, n - 1, k);
      assert Next(states[n - 1], steps[n - 1]) == Some(states[n]);
      OverStaysOver(states[n - 1], steps[n - 1], k);
    }
  }

  /** In every interleaving, a caller that has released its token waits no more and nothing more comes for it. */
  lemma ReleasedGetsNoMore(states: seq<State>, steps: seq<Step>, i: nat, n: nat, k: nat)
    requires Run(states, steps) && i < n < |states| && steps[i] == Release(k)
    ensures Shaped(states[i]) && Shaped(states[n]) && k < states[i].next && k < states[n].next
    ensures !Waiting(states[n], k) && InHand(states[n], k) == InHand(states[i], k)
  {
    hide Token, LastToken;
    assert Shaped(states[i]) && Next(states[i], steps[i]) == Some(states[i + 1]);
    StepShapes(states[i], steps[i]);
    OverAllAlong(states, steps, i + 1, n, k);
  }

  // The publisher.

  /** A channel of capacity one, and what was received from it. */
  class Chan {
    var buffer: seq<Msg>
    ghost var got: seq<Msg>

    constructor ()
      ensures buffer == [] && got == []
    {
      buffer, got := [], [];
    }
  }

  ghost function BuffersOf(cs: seq<Chan>): (bs: seq<seq<Msg>>)
    reads cs
    ensures |bs| == |cs| && forall i :: 0 <= i < |cs| ==> bs[i] == cs[i].buffer
  {
    if cs == [] then [] else BuffersOf(cs[..|cs| - 1]) + [cs[|cs| - 1].buffer]
  }

  ghost function GotFrom(cs: seq<Chan>): (gs: seq<seq<Msg>>)
    reads cs
    ensures |gs| == |cs| && forall i :: 0 <= i < |cs| ==> gs[i] == cs[i].got
  {
    if cs == [] then [] else GotFrom(cs[..|cs| - 1]) + [cs[|cs| - 1].got]
  }

  class Publisher {
    const prefix: string
    var respNext: nat
    var respWait: map<string, Chan>
    /** Every channel ever registered, the index of each waiting one, and the replies taken but not sent on. */
    ghost var chans: seq<Chan>
    ghost var waiting: map<string, nat>
    ghost var handed: seq<(nat, Msg)>

    ghost predicate Valid()
      reads this
    {
      respNext == |chans| % WRAP && Wired()
    }

    ghost predicate Wired()
      reads `respWait, `chans, `waiting, `handed
    {
      && (forall i, j :: 0 <= i < j < |chans| ==> chans[i] != chans[j])
      && waiting.Keys == respWait.Keys
      && (forall t :: t in waiting ==> waiting[t] < |chans| && t == Token(waiting[t]) && respWait[t] == chans[waiting[t]])
      && (forall i :: 0 <= i < |handed| ==> handed[i].0 < |chans|)
    }

    ghost function View(): (s: State)
      requires Wired()
      reads `respWait, `chans, `waiting, `handed, chans
      ensures Shaped(s)
    {
      State(|chans|, waiting, handed, BuffersOf(chans), GotFrom(chans))
    }

    constructor (prefix: string)
      ensures this.prefix == prefix && Valid() && View() == IDLE
    {
      this.prefix, respNext, respWait := prefix, 0, map[];
      chans, waiting, handed := [], map[], [];
    }

    /** Registers a one-shot reply slot under the next token. */
    method AwaitReply() returns (replyTo: string, token: string, ch: Chan)
      requires Valid()
      modifies this
      ensures Valid() && Next(old(View()), Register) == Some(View())
      ensures chans == old(chans) + [ch] && fresh(ch) && token == Token(|old(chans)|)
      ensures replyTo == prefix + "." + token && LastToken(replyTo) == token
    {
      hide Token, LastToken, Base36, Wired, View;
      ch := new Chan();
      CountUp(|chans|);
      respNext := (respNext + 1) % WRAP;
      token := Base36(respNext);
      Enter(token, ch);
      replyTo := prefix + "." + token;
      ReadBase36(respNext);
      LastTokenOf(prefix, token);
    }

    /** Files a new channel under its token. */
    method Enter(token: string, ch: Chan)
      requires Wired() && token == Token(|chans|) && ch !in chans && ch.buffer == [] && ch.got == []
      modifies `respWait, `waiting, `chans
      ensures Wired() && chans == old(chans) + [ch] && Next(old(View()), Register) == Some(View())
    {
      hide Token, LastToken, BuffersOf, GotFrom, Shaped, Next;
      ghost var before := View();
      OneMore(chans, ch);
      Registered(before);
      respWait := respWait[token := ch];
      waiting := waiting[token := |chans|];
      chans := chans + [ch];
    }

    /** The caller of the k-th registration stops waiting. */
    method ReleaseToken(token: string, ghost k: nat)
      requires Valid() && k < |chans| && token == Token(k)
      modifies `respWait, `waiting
      ensures Valid() && Next(old(View()), Release(k)) == Some(View()) && chans == old(chans)
    {
      hide Token, LastToken, BuffersOf, GotFrom;
      respWait := respWait - {token};
      waiting := waiting - {token};
    }

    /** The locked part of routing a reply: whose it is, if anyone still waits for it. */
    method RouteTake(m: Msg) returns (ch: Chan?)
      requires Valid()
      modifies `respWait, `waiting, `handed
      ensures Valid() && Next(old(View()), Take(m)) == Some(View()) && chans == old(chans)
      ensures ch != null ==> handed != [] && handed[|handed| - 1].1 == m && chans[handed[|handed| - 1].0] == ch
      ensures ch == null ==> View() == old(View())
    {
      hide Token, LastToken, View, Wired, Next, Shaped;
      Taken(View(), m);
      var token := TokenAfterDot(m.subject);
      SameKeys(token);
      ch := null;
      if token in respWait {
        ch := TakeOut(token, m);
      }
    }

    lemma SameKeys(token: string)
      requires Wired()
      ensures View().wait == waiting && View().handed == handed && (token in waiting <==> token in respWait)
    {
    }

    /** Takes a waiter off the table, with the reply it is to be sent. */
    method TakeOut(token: string, m: Msg) returns (ch: Chan)
      requires Wired() && token in respWait && token in waiting
      modifies `respWait, `waiting, `handed
      ensures Wired() && chans == old(chans) && handed == old(handed) + [(old(waiting)[token], m)]
      ensures View() == old(View()).(wait := old(waiting) - {token}, handed := handed)
      ensures old(waiting)[token] < |chans| && chans[old(waiting)[token]] == ch
    {
      hide Token, BuffersOf, GotFrom, Shaped;
      ch := respWait[token];
      handed := handed + [(waiting[token], m)];
      respWait := respWait - {token};
      waiting := waiting - {token};
    }

    /** The part after the lock: the send, which has room in the channel. */
    method RouteSend(ch: Chan, m: Msg, ghost i: nat)
      requires Valid() && Inv(View()) && i < |handed| && handed[i].1 == m && chans[handed[i].0] == ch
      modifies `handed, ch`buffer
      ensures Valid() && chans == old(chans)
      ensures |old(ch.buffer)| < 1 && Next(old(View()), Send(i)) == Some(View())
    {
      HasRoom(View(), i);
      hide Token, LastToken, Inv;
      ghost var k := handed[i].0;
      ghost var before := View();
      assert before.buffers[k] == ch.buffer;
      ch.buffer := ch.buffer + [m];
      handed := Without(handed, i);
      assert View().buffers == before.buffers[k := before.buffers[k] + [m]];
      assert View().received == before.received;
    }

    /** The waiter's receive, once something has arrived. */
    method ReceiveFrom(ch: Chan, ghost k: nat) returns (m: Msg)
      requires Valid() && k < |chans| && chans[k] == ch && ch.buffer != []
      modifies ch
      ensures Valid() && Next(old(View()), Receive(k)) == Some(View()) && m == old(ch.buffer)[0]
    {
      hide Token, LastToken;
      ghost var before := View();
      m := ch.buffer[0];
      ch.buffer := ch.buffer[1..];
      ch.got := ch.got + [m];
      assert View().buffers == before.buffers[k := before.buffers[k][1..]];
      assert View().received == before.received[k := before.received[k] + [m]];
    }
  }

  lemma OneMore(cs: seq<Chan>, ch: Chan)
    requires ch.buffer == [] && ch.got == []
    ensures BuffersOf(cs + [ch]) == BuffersOf(cs) + [[]] && GotFrom(cs + [ch]) == GotFrom(cs) + [[]]
  {
    assert (cs + [ch])[..|cs|] == cs;
  }

  lemma Registered(s: State)
    requires Shaped(s)
    ensures Next(s, Register)
         == Some(State(s.next + 1, s.wait[Token(s.next) := s.next], s.handed, s.buffers + [[]], s.received + [[]]))
  {
  }

  lemma Taken(s: State, m: Msg)
    requires Shaped(s)
    ensures var t := LastToken(m.subject);
            Next(s, Take(m)) == Some(if t in s.wait then s.(wait := s.wait - {t}, handed := s.handed + [(s.wait[t], m)]) else s)
  {
  }

  lemma CountUp(n: nat)
    ensures (n % WRAP + 1) % WRAP == (n + 1) % WRAP && Token(n) == Base36((n % WRAP + 1) % WRAP)
  {
  }

  lemma HasRoom(s: State, i: nat)
    requires Inv(s) && i < |s.handed|
    ensures |s.buffers[s.handed[i].0]| < 1
  {
    assert Load(s, s.handed[i].0) <= 1;
    HandedIsCounted(s.handed, i);
    hide HandedTo, Token, LastToken;
  }

  method TokenAfterDot(subject: string) returns (token: string)
    ensures token == LastToken(subject)
  {
    var i := |subject|;
    assert subject[..i] == subject && subject[i..] == "";
    while i > 0 && subject[i - 1] != '.'
      invariant 0 <= i <= |subject|
      invariant LastToken(subject) == LastToken(subject[..i]) + subject[i..]
    {
      assert subject[..i][..i - 1] == subject[..i - 1];
      assert [subject[i - 1]] + subject[i..] == subject[i - 1..];
      i := i - 1;
    }
    assert LastToken(subject[..i]) == "";
    token := subject[i..];
  }
}
