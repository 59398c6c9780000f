/** The concurrent queue is a FIFO queue: linearizability, what an empty result
    means, and how long queue_get goes round.
 */
module QueueTheorems {
  import opened Rpc
  import opened QueueMachine

  /** A run: states, and for each step the thread, its choice and the event. */
  ghost predicate Run(ss: seq<Queue>, ts: seq<Tid>, cs: seq<Choice>, es: seq<Event>) {
    && |ts| == |cs| == |es| && |ss| == |es| + 1
    && Initial(ss[0])
    && forall i :: 0 <= i < |es| ==> Step(ss[i], ts[i], cs[i]) == Some((ss[i + 1], es[i]))
  }

  lemma {:induction false} RunInv(ss: seq<Queue>, ts: seq<Tid>, cs: seq<Choice>, es: seq<Event>, n: nat)
    requires Run(ss, ts, cs, es) && n <= |es|
    ensures Inv(ss[n])
  {
    hide Inv, Step;
    if n == 0 {
      InitInv(ss[0]);
    } else {
      RunInv(ss, ts, cs, es, n - 1);
      StepInv(ss[n - 1], ts[n - 1], cs[n - 1], ss[n], es[n - 1]);
    }
  }

  // ---------------------------------------------------------------- linearizability

  /** The chain without the divider: the contents of the queue. */
  function Contents(chain: seq<Node>): seq<Node> {
    if chain == [] then []
    else Contents(chain[..|chain| - 1]) + Real(chain[|chain| - 1])
  }

  function Real(n: Node): seq<Node> { if n == Divider then [] else [n] }

  lemma {:induction false} ContentsCat(a: seq<Node>, b: seq<Node>)
    ensures Contents(a + b) == Contents(a) + Contents(b)
  {
    hide Real;
    if b == [] {
      assert a + b == a;
    } else {
      var c, x := b[..|b| - 1], b[|b| - 1];
      ContentsCat(a, c);
      assert (a + b)[..|a + b| - 1] == a + c && (a + b)[|a + b| - 1] == x;
      assert Contents(a) + Contents(c) + Real(x) == Contents(a) + (Contents(c) + Real(x));
    }
  }

  lemma ContentsOne(n: Node)
    ensures Contents([n]) == Real(n)
  {
  }

  function PutBy(e: Event): seq<Node> { if e.Enqueue? then [e.n] else [] }

  function GotBy(e: Event): seq<Node> { if e.Dequeue? then [e.n] else [] }

  /** The nodes enqueued, and dequeued, in the order of the events. */
  function Enqueued(es: seq<Event>): seq<Node> {
    if es == [] then []
    else Enqueued(es[..|es| - 1]) + PutBy(es[|es| - 1])
  }

  function Dequeued(es: seq<Event>): seq<Node> {
    if es == [] then []
    else Dequeued(es[..|es| - 1]) + GotBy(es[|es| - 1])
  }

  /** The event of a step says what it does to the chain. */
  lemma ChainEvent(s: Queue, t: Tid, choice: Choice, s': Queue, e: Event)
    requires s.chain != [] && Step(s, t, choice) == Some((s', e))
    ensures var pc := PcOf(s, t);
            if pc.PutLink? then s'.chain == s.chain + [pc.n] && PutBy(e) == Real(pc.n) && GotBy(e) == []
            else if pc.GetAdvance? then s'.chain == s.chain[1..] && PutBy(e) == [] && GotBy(e) == Real(pc.head)
            else s'.chain == s.chain && PutBy(e) == [] && GotBy(e) == []
    ensures e.Dequeue? ==> e.t == t && PcOf(s', t) == GetUnlock(PcOf(s, t).round, e.n)
  {
  }

  /** What one step does to the contents: an enqueue puts its node at the end, a
      dequeue takes the first one, and nothing else changes anything. */
  lemma StepContents(s: Queue, t: Tid, choice: Choice, s': Queue, e: Event)
    requires Inv(s) && Step(s, t, choice) == Some((s', e))
    ensures Contents(s.chain) + PutBy(e) == GotBy(e) + Contents(s'.chain)
    ensures e.Dequeue? ==> e.t == t && PcOf(s', t).GetUnlock? && PcOf(s', t).head == e.n
  {
    hide Locks, TailRight, Apart, IsChain, Step, Contents, PutBy, GotBy, Real;
    ChainEvent(s, t, choice, s', e);
    var pc := PcOf(s, t);
    if pc.PutLink? {
      ContentsCat(s.chain, [pc.n]);
      ContentsOne(pc.n);
    } else if pc.GetAdvance? {
      HeadFirst(s, t);
      ContentsCat([pc.head], s.chain[1..]);
      ContentsOne(pc.head);
    }
  }

  lemma HeadFirst(s: Queue, t: Tid)
    requires Inv(s) && PcOf(s, t).GetAdvance?
    ensures s.chain == [PcOf(s, t).head] + s.chain[1..]
  {
    hide Locks, TailRight, Apart;
  }

  /** In every interleaving: the nodes linked so far, in the order of the writes
      of tail->next, are the nodes removed so far, in the order of the writes of
      root->head, followed by the contents of the queue. Each comes out once,
      and in FIFO order. */
  lemma {:induction false} Linearizable(ss: seq<Queue>, ts: seq<Tid>, cs: seq<Choice>, es: seq<Event>, n: nat)
    requires Run(ss, ts, cs, es) && n <= |es|
    ensures Enqueued(es[..n]) == Dequeued(es[..n]) + Contents(ss[n].chain)
  {
    hide Inv, Step, Contents, PutBy, GotBy;
    if n == 0 {
      ContentsOne(Divider);
    } else {
      Linearizable(ss, ts, cs, es, n - 1);
      RunInv(ss, ts, cs, es, n - 1);
      StepContents(ss[n - 1], ts[n - 1], cs[n - 1], ss[n], es[n - 1]);
      assert es[..n][..n - 1] == es[..n - 1];
      Regroup(Dequeued(es[..n - 1]), Contents(ss[n - 1].chain), PutBy(es[n - 1]), GotBy(es[n - 1]),
              Contents(ss[n].chain));
    }
  }

  lemma Regroup(d: seq<Node>, c: seq<Node>, put: seq<Node>, got: seq<Node>, c': seq<Node>)
    requires c + put == got + c'
    ensures d + c + put == d + got + c'
  {
    assert d + c + put == d + (c + put);
  }

  /** The atomic queue: what it holds after the operations of `es`, None when one
      of them takes a node that is not the first. */
  function Replay(es: seq<Event>): Option<seq<Node>> {
    if es == [] then Some([])
    else
      match Replay(es[..|es| - 1])
      case None => None
      case Some(q) =>
        var e := es[|es| - 1];
        if !e.Dequeue? then Some(q + PutBy(e))
        else if q != [] && q[0] == e.n then Some(q[1..])
        else None
  }

  /** The queue refines the atomic one: at every moment of every interleaving the
      operations so far, each at the one write that is its event, are a history
      of the atomic queue, and it holds what the chain holds. */
  lemma {:induction false} Atomic(ss: seq<Queue>, ts: seq<Tid>, cs: seq<Choice>, es: seq<Event>, n: nat)
    requires Run(ss, ts, cs, es) && n <= |es|
    ensures Replay(es[..n]) == Some(Contents(ss[n].chain))
  {
    hide Inv, Step, Contents;
    if n == 0 {
      ContentsOne(Divider);
    } else {
      Atomic(ss, ts, cs, es, n - 1);
      RunInv(ss, ts, cs, es, n - 1);
      StepContents(ss[n - 1], ts[n - 1], cs[n - 1], ss[n], es[n - 1]);
      assert es[..n][..n - 1] == es[..n - 1];
      var q, q', e := Contents(ss[n - 1].chain), Contents(ss[n].chain), es[n - 1];
      if e.Dequeue? {
        assert q == [e.n] + q';
      } else {
        assert q + PutBy(e) == q';
      }
    }
  }

  /** The moments of a call: queue_put is called with a node, links it and
      returns; queue_get takes a node and returns it. */
  datatype Moment = Called | Linked | Done | Taken | Returned

  function Passes(t: Tid, k: Moment, e: Event): seq<Node> {
    match k
    case Called => if e.CallPut? && e.t == t then [e.n] else []
    case Linked => if e.Enqueue? && e.t == t then [e.n] else []
    case Done => if e.ReturnPut? && e.t == t then [e.n] else []
    case Taken => if e.Dequeue? && e.t == t then [e.n] else []
    case Returned => if e.ReturnNode? && e.t == t then [e.n] else []
  }

  /** The nodes that pass the moment in the calls of thread t, in order. */
  function Nodes(t: Tid, k: Moment, es: seq<Event>): seq<Node> {
    if es == [] then []
    else Nodes(t, k, es[..|es| - 1]) + Passes(t, k, es[|es| - 1])
  }

  /** The node a call has taken and not yet returned. */
  function Pending(pc: Pc): seq<Node> {
    match pc
    case GetUnlock(_, h) => Real(h)
    case GetPoison(_, h) => Real(h)
    case _ => []
  }

  /** The node a call was given and has not linked yet, and the one it has linked
      and not yet unlocked for. */
  function Unlinked(pc: Pc): seq<Node> {
    match pc
    case PutPoison(n, _) => Real(n)
    case PutClear(n, _) => Real(n)
    case PutTest(n, _) => Real(n)
    case PutCas(n, _) => Real(n)
    case PutTail(n, _) => Real(n)
    case PutLink(n, _, _) => Real(n)
    case _ => []
  }

  function Unfinished(pc: Pc): seq<Node> {
    match pc
    case PutSwing(n, _) => Real(n)
    case PutUnlock(n, _) => Real(n)
    case _ => []
  }

  /** What a step adds to the moments of its own thread, and no other's. */
  lemma StepPasses(s: Queue, t: Tid, choice: Choice, s': Queue, e: Event)
    requires Inv(s) && Step(s, t, choice) == Some((s', e))
    ensures Pending(PcOf(s, t)) + Passes(t, Taken, e) == Passes(t, Returned, e) + Pending(PcOf(s', t))
    ensures Unfinished(PcOf(s, t)) + Passes(t, Linked, e) == Passes(t, Done, e) + Unfinished(PcOf(s', t))
    ensures Unlinked(PcOf(s, t)) + Passes(t, Called, e) == Passes(t, Linked, e) + Unlinked(PcOf(s', t))
    ensures forall u, k :: u != t ==> Passes(u, k, e) == []
  {
    hide Inv, Step, Effect, Pending, Unfinished, Unlinked, Passes;
    OneThread(s, t, choice, s', e);
    TakesAndReturns(s, t, choice);
    LinksAndReturns(s, t, choice);
    CallsAndLinks(s, t, choice);
    OwnEvent(s, t, choice);
  }

  lemma TakesAndReturns(s: Queue, t: Tid, choice: Choice)
    requires Inv(s) && Effect(s, t, choice).Some?
    ensures var (_, pc, e) := Effect(s, t, choice).value;
            Pending(PcOf(s, t)) + Passes(t, Taken, e) == Passes(t, Returned, e) + Pending(pc)
  {
    hide Locks, TailRight, IsChain;
    assert LocalOk(s, PcOf(s, t));
  }

  lemma LinksAndReturns(s: Queue, t: Tid, choice: Choice)
    requires Effect(s, t, choice).Some?
    ensures var (_, pc, e) := Effect(s, t, choice).value;
            Unfinished(PcOf(s, t)) + Passes(t, Linked, e) == Passes(t, Done, e) + Unfinished(pc)
  {
  }

  lemma CallsAndLinks(s: Queue, t: Tid, choice: Choice)
    requires Inv(s) && Effect(s, t, choice).Some?
    ensures var (_, pc, e) := Effect(s, t, choice).value;
            Unlinked(PcOf(s, t)) + Passes(t, Called, e) == Passes(t, Linked, e) + Unlinked(pc)
  {
    hide Locks, TailRight, IsChain;
  }

  lemma OwnEvent(s: Queue, t: Tid, choice: Choice)
    requires Effect(s, t, choice).Some?
    ensures forall u, k :: u != t ==> Passes(u, k, Effect(s, t, choice).value.2) == []
  {
  }

  /** A call of queue_get returns the very node that its own write of root->head
      took; so the order in which calls take effect lies within the calls. */
  lemma {:induction false} ReturnsItsOwn(ss: seq<Queue>, ts: seq<Tid>, cs: seq<Choice>, es: seq<Event>, t: Tid, n: nat)
    requires Run(ss, ts, cs, es) && n <= |es|
    ensures Nodes(t, Taken, es[..n]) == Nodes(t, Returned, es[..n]) + Pending(PcOf(ss[n], t))
  {
    hide Inv, Step, Effect, Pending, Passes;
    if n == 0 {
      NothingPending(ss, ts, cs, es, t);
    } else {
      ReturnsItsOwn(ss, ts, cs, es, t, n - 1);
      RunPasses(ss, ts, cs, es, t, n - 1);
      MoveOn(t, Taken, Returned, es, n, Pending(PcOf(ss[n - 1], t)), Pending(PcOf(ss[n], t)));
    }
  }

  /** A call of queue_put links the very node it was given, once, between its
      start and its return: the nodes that thread t has linked are those of its
      finished calls, in order, and the one it has still to unlock for; and the
      nodes its calls were given are those it has linked, and the one it has
      still to link. */
  lemma {:induction false} LinksItsOwn(ss: seq<Queue>, ts: seq<Tid>, cs: seq<Choice>, es: seq<Event>, t: Tid, n: nat)
    requires Run(ss, ts, cs, es) && n <= |es|
    ensures Nodes(t, Linked, es[..n]) == Nodes(t, Done, es[..n]) + Unfinished(PcOf(ss[n], t))
    ensures Nodes(t, Called, es[..n]) == Nodes(t, Linked, es[..n]) + Unlinked(PcOf(ss[n], t))
  {
    hide Inv, Step, Effect, Unlinked, Unfinished, Passes;
    if n == 0 {
      NothingPending(ss, ts, cs, es, t);
    } else {
      LinksItsOwn(ss, ts, cs, es, t, n - 1);
      RunPasses(ss, ts, cs, es, t, n - 1);
      MoveOn(t, Linked, Done, es, n, Unfinished(PcOf(ss[n - 1], t)), Unfinished(PcOf(ss[n], t)));
      MoveOn(t, Called, Linked, es, n, Unlinked(PcOf(ss[n - 1], t)), Unlinked(PcOf(ss[n], t)));
    }
  }

  /** One event more: what waits between two moments, before and after. */
  lemma MoveOn(t: Tid, j: Moment, k: Moment, es: seq<Event>, n: nat, p: seq<Node>, p': seq<Node>)
    requires 0 < n <= |es| && p + Passes(t, j, es[n - 1]) == Passes(t, k, es[n - 1]) + p'
    requires Nodes(t, j, es[..n - 1]) == Nodes(t, k, es[..n - 1]) + p
    ensures Nodes(t, j, es[..n]) == Nodes(t, k, es[..n]) + p'
  {
    hide Passes;
    assert es[..n][..n - 1] == es[..n - 1];
    var was := Nodes(t, k, es[..n - 1]);
    assert was + p + Passes(t, j, es[n - 1]) == was + (p + Passes(t, j, es[n - 1]));
    assert was + Passes(t, k, es[n - 1]) + p' == was + (Passes(t, k, es[n - 1]) + p');
  }

  /** The step from ss[n] in the moments of thread t, whoever takes it. */
  lemma RunPasses(ss: seq<Queue>, ts: seq<Tid>, cs: seq<Choice>, es: seq<Event>, t: Tid, n: nat)
    requires Run(ss, ts, cs, es) && n < |es|
    ensures var (pc, pc', e) := (PcOf(ss[n], t), PcOf(ss[n + 1], t), es[n]);
            && Pending(pc) + Passes(t, Taken, e) == Passes(t, Returned, e) + Pending(pc')
            && Unfinished(pc) + Passes(t, Linked, e) == Passes(t, Done, e) + Unfinished(pc')
            && Unlinked(pc) + Passes(t, Called, e) == Passes(t, Linked, e) + Unlinked(pc')
  {
    hide Inv, Step, Effect, Pending, Unfinished, Unlinked, Passes;
    RunInv(ss, ts, cs, es, n);
    OneThread(ss[n], ts[n], cs[n], ss[n + 1], es[n]);
    StepPasses(ss[n], ts[n], cs[n], ss[n + 1], es[n]);
  }

  lemma NothingPending(ss: seq<Queue>, ts: seq<Tid>, cs: seq<Choice>, es: seq<Event>, t: Tid)
    requires Run(ss, ts, cs, es)
    ensures Pending(PcOf(ss[0], t)) == Unlinked(PcOf(ss[0], t)) == Unfinished(PcOf(ss[0], t)) == []
  {
  }

  // ---------------------------------------------------------------- structure

  /** In every reachable state the pointers from the head on are a chain without
      repetition that ends in NULL, and no thread has followed a poisoned link;
      the divider is on the chain or in exactly one thread's hand; and the tail
      is the last node, but between the two writes of a put, when it is the one
      before, or has already been dequeued. */
  lemma {:induction false} Structure(ss: seq<Queue>, ts: seq<Tid>, cs: seq<Choice>, es: seq<Event>, n: nat)
    requires Run(ss, ts, cs, es) && n <= |es|
    ensures var s := ss[n];
            && s.chain != [] && IsChain(s)
            && (forall t :: PcOf(s, t) != Crashed)
            && (Divider in s.chain <==> !exists t :: Hand(PcOf(s, t)) == Some(Divider))
            && (forall t, u :: Hand(PcOf(s, t)) == Some(Divider) == Hand(PcOf(s, u)) ==> t == u)
            && ((forall t :: !PcOf(s, t).PutSwing?) ==> s.tail == s.chain[|s.chain| - 1])
            && ((exists t :: PcOf(s, t).PutSwing?) ==> Behind(s))
            && (forall t, u :: InTail(PcOf(s, t)) && InTail(PcOf(s, u)) ==> t == u)
            && (forall t, u :: InHead(PcOf(s, t)) && InHead(PcOf(s, u)) ==> t == u)
  {
    RunInv(ss, ts, cs, es, n);
    hide IsChain, Behind;
    assert Locals(ss[n]);
    forall t ensures PcOf(ss[n], t) != Crashed { assert LocalOk(ss[n], PcOf(ss[n], t)); }
  }

  /** When queue_get reads NULL, one node is on the chain: the divider, and the
      queue is empty, or a lone node, while another thread is putting the
      divider back. So NULL tells the truth exactly when no thread has the
      divider in its hand. */
  lemma {:induction false} EmptyResult(ss: seq<Queue>, ts: seq<Tid>, cs: seq<Choice>, es: seq<Event>, n: nat)
    requires Run(ss, ts, cs, es) && n < |es| && es[n].SawEmpty?
    ensures |ss[n].chain| == 1
    ensures || ss[n].chain == [Divider]
            || (ss[n].chain[0] != Divider && exists u :: u != ts[n] && Hand(PcOf(ss[n], u)) == Some(Divider))
    ensures Contents(ss[n].chain) == [] <==> !exists u :: Hand(PcOf(ss[n], u)) == Some(Divider)
  {
    RunInv(ss, ts, cs, es, n);
    ContentsOne(ss[n].chain[0]);
    SawOne(ss[n], ts[n], cs[n], ss[n + 1], es[n]);
  }

  lemma FirstLink(s: Queue)
    requires s.chain != [] && IsChain(s)
    ensures s.chain[0] == s.head
    ensures NextOf(s, s.head) == if |s.chain| > 1 then To(s.chain[1]) else Null
  {
  }

  lemma SawOne(s: Queue, t: Tid, choice: Choice, s': Queue, e: Event)
    requires Inv(s) && Step(s, t, choice) == Some((s', e)) && e.SawEmpty?
    ensures |s.chain| == 1 && PcOf(s, t).GetNext?
    ensures s.chain == [Divider] || (s.chain[0] != Divider && exists u :: u != t && Hand(PcOf(s, u)) == Some(Divider))
  {
    hide Locks, TailRight, Step;
    OneThread(s, t, choice, s', e);
    assert LocalOk(s, PcOf(s, t));
    FirstLink(s);
    if s.chain[0] != Divider {
      var u :| Hand(PcOf(s, u)) == Some(Divider);
    }
  }

  // ---------------------------------------------------------------- one consumer

  /** The thread is inside queue_get. */
  predicate Getting(pc: Pc) {
    || pc.GetTest? || pc.GetCas? || pc.GetHead? || pc.GetNext? || pc.GetEmpty? || pc.GetAdvance?
    || pc.GetUnlock? || pc.GetPoison? || PuttingBack(pc)
  }

  predicate PuttingBack(pc: Pc) {
    match pc
    case PutPoison(n, _) => n == Divider
    case PutClear(n, _) => n == Divider
    case PutTest(n, _) => n == Divider
    case PutCas(n, _) => n == Divider
    case PutTail(n, _) => n == Divider
    case PutLink(n, _, _) => n == Divider
    case PutSwing(n, _) => n == Divider
    case PutUnlock(n, _) => n == Divider
    case _ => false
  }

  function Round(pc: Pc): nat {
    if pc.Idle? || pc.Crashed? then 0 else pc.round
  }

  /** Two nodes at least, the divider not first: the next turn will succeed. */
  predicate Primed(s: Queue) { |s.chain| >= 2 && s.chain[0] != Divider }

  /** Only c gets; and it goes round at most once more. */
  ghost predicate OneConsumer(s: Queue, c: Tid) {
    (forall t :: Getting(PcOf(s, t)) ==> t == c) && Consumes(s, c)
  }

  predicate Consumes(s: Queue, c: Tid) {
    var pc := PcOf(s, c);
    && Round(pc) <= 1
    && (Round(pc) == 1 ==>
          pc.GetTest? || pc.GetCas? || pc.GetHead? || pc.GetNext? || pc.GetAdvance? || pc.GetUnlock? || pc.GetPoison?)
    && (Round(pc) == 1 && (pc.GetTest? || pc.GetCas? || pc.GetHead? || pc.GetNext? || pc.GetAdvance?) ==> Primed(s))
    && (Round(pc) == 1 && pc.GetUnlock? ==> pc.head != Divider)
    && ((pc.PutSwing? || pc.PutUnlock?) && pc.n == Divider ==> Primed(s))
  }

  lemma StepOneConsumer(s: Queue, t: Tid, choice: Choice, s': Queue, e: Event, c: Tid)
    requires Inv(s) && OneConsumer(s, c) && Step(s, t, choice) == Some((s', e))
    requires PcOf(s, t).Idle? && choice.StartGet? ==> t == c
    ensures OneConsumer(s', c)
  {
    hide Locks, TailRight, IsChain, Step, NextOf, Apart, Write, Effect, Consumes;
    OneThread(s, t, choice, s', e);
    assert LocalOk(s, PcOf(s, t));
    if PcOf(s, t).Idle? && choice.StartPut? && choice.n in s.users { NotDivider(s, t, choice); }
    ChainMoves(s, t, choice, s', e);
    StartsGetting(s, t, choice, s');
    FirstLink(s);
    if t == c {
      ConsumerMoves(s, c, choice, s');
    } else {
      OthersMove(s, t, choice, s', c);
    }
  }

  /** Only a call of queue_get makes a thread get. */
  lemma StartsGetting(s: Queue, t: Tid, choice: Choice, s': Queue)
    requires Led(s, t, choice, s')
    requires PcOf(s, t).Idle? && choice.StartPut? && choice.n in s.users ==> choice.n != Divider
    ensures Getting(PcOf(s', t)) ==> Getting(PcOf(s, t)) || (PcOf(s, t).Idle? && choice.StartGet?)
  {
    hide NextOf;
  }

  /** The consumer's own step. */
  lemma ConsumerMoves(s: Queue, c: Tid, choice: Choice, s': Queue)
    requires s.chain != [] && Consumes(s, c) && Led(s, c, choice, s')
    requires PcOf(s, c).Idle? && choice.StartPut? && choice.n in s.users ==> choice.n != Divider
    requires !PcOf(s, c).GetAdvance? ==> |s'.chain| >= |s.chain| && s'.chain[0] == s.chain[0]
    requires PcOf(s, c).PutLink? ==> |s'.chain| >= 2 && (PcOf(s, c).n == Divider ==> s.chain[0] != Divider)
    requires PcOf(s, c).GetAdvance? ==> s.chain[0] == PcOf(s, c).head
    requires PcOf(s, c).GetNext? ==> PcOf(s, c).head == s.chain[0]
    requires PcOf(s, c).GetNext? && NextOf(s, PcOf(s, c).head) == Null ==> |s.chain| == 1
    ensures Consumes(s', c)
  {
    hide Write, NextOf;
  }

  /** The others leave it alone: the chain only grows. */
  lemma OthersMove(s: Queue, t: Tid, choice: Choice, s': Queue, c: Tid)
    requires s.chain != [] && Consumes(s, c) && PcOf(s', c) == PcOf(s, c)
    requires |s'.chain| >= |s.chain| && s'.chain[0] == s.chain[0]
    ensures Consumes(s', c)
  {
  }

  lemma NotDivider(s: Queue, t: Tid, choice: Choice)
    requires Apart(s) && PcOf(s, t).Idle? && choice.StartPut? && choice.n in s.users
    ensures choice.n != Divider
  {
  }

  lemma ChainMoves(s: Queue, t: Tid, choice: Choice, s': Queue, e: Event)
    requires Inv(s) && Step(s, t, choice) == Some((s', e))
    ensures !PcOf(s, t).GetAdvance? ==> |s'.chain| >= |s.chain| && s'.chain[0] == s.chain[0]
    ensures PcOf(s, t).PutLink? ==> |s'.chain| >= 2 && (PcOf(s, t).n == Divider ==> s.chain[0] != Divider)
    ensures PcOf(s, t).GetAdvance? ==> s.chain[0] == PcOf(s, t).head
    ensures PcOf(s, t).GetNext? && NextOf(s, PcOf(s, t).head) == Null ==> |s.chain| == 1
  {
    hide Locks, TailRight, Step, Apart, IsChain, PutBy, GotBy, NextOf;
    ChainEvent(s, t, choice, s', e);
    assert LocalOk(s, PcOf(s, t));
    if PcOf(s, t).PutLink? { HandOff(s, t); }
    FirstLink(s);
  }

  lemma {:induction false} RunOneConsumer(ss: seq<Queue>, ts: seq<Tid>, cs: seq<Choice>, es: seq<Event>, c: Tid, n: nat)
    requires Run(ss, ts, cs, es) && n <= |es|
    requires forall i :: 0 <= i < |es| && PcOf(ss[i], ts[i]).Idle? && cs[i].StartGet? ==> ts[i] == c
    ensures OneConsumer(ss[n], c)
  {
    hide Inv, Step;
    if n > 0 {
      RunOneConsumer(ss, ts, cs, es, c, n - 1);
      RunInv(ss, ts, cs, es, n - 1);
      StepOneConsumer(ss[n - 1], ts[n - 1], cs[n - 1], ss[n], es[n - 1], c);
    }
  }

  /** With a single consumer, NULL means that the queue was empty when the call
      read the pointer, and the loop of queue_get goes round at most twice. */
  lemma {:induction false} SingleConsumer(ss: seq<Queue>, ts: seq<Tid>, cs: seq<Choice>, es: seq<Event>, c: Tid, n: nat)
    requires Run(ss, ts, cs, es) && n < |es|
    requires forall i :: 0 <= i < |es| && PcOf(ss[i], ts[i]).Idle? && cs[i].StartGet? ==> ts[i] == c
    ensures es[n].SawEmpty? ==> Contents(ss[n].chain) == [] && Enqueued(es[..n]) == Dequeued(es[..n])
    ensures es[n].SawEmpty? ==> Replay(es[..n]) == Some([])
    ensures Round(PcOf(ss[n], c)) <= 1
  {
    RunOneConsumer(ss, ts, cs, es, c, n);
    if es[n].SawEmpty? {
      RunInv(ss, ts, cs, es, n);
      SawOne(ss[n], ts[n], cs[n], ss[n + 1], es[n]);
      if ss[n].chain[0] != Divider {
        var u :| u != ts[n] && Hand(PcOf(ss[n], u)) == Some(Divider);
        DividerHand(ss[n], u);
        assert Getting(PcOf(ss[n], u)) && Getting(PcOf(ss[n], ts[n]));
      }
      ContentsOne(Divider);
      Linearizable(ss, ts, cs, es, n);
      Atomic(ss, ts, cs, es, n);
    }
  }

  lemma DividerHand(s: Queue, u: Tid)
    requires Inv(s) && Hand(PcOf(s, u)) == Some(Divider)
    ensures Getting(PcOf(s, u))
  {
  }
}
