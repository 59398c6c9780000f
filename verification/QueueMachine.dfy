/** The two-lock queue of include/queue.h under concurrency: any number of
    threads, each in queue_put or queue_get, one read or write of shared memory
    at a time. Memory is sequentially consistent. The locks are the spin locks
    of include/lock.h: read the word, then compare-and-swap it.
 */
module QueueMachine {
  import opened Rpc

  type Tid = nat

  /** A struct queue_head: the divider of the root, or a node of a user. */
  datatype Node = Divider | Elem(id: nat)

  datatype Ptr = Null | Poison | To(node: Node)

  /** Where a thread stands, with its local variables. `round` counts the turns
      of the loop in queue_get; a put of the divider is part of a get. */
  datatype Pc =
    | Idle
    | PutPoison(n: Node, round: nat)             // new->next = POISON
    | PutClear(n: Node, round: nat)              // new->next = NULL
    | PutTest(n: Node, round: nat)               // *tail_lock == 0 ?
    | PutCas(n: Node, round: nat)                // compare-and-swap on tail_lock
    | PutTail(n: Node, round: nat)               // read root->tail
    | PutLink(n: Node, round: nat, tail: Node)   // tail->next = new
    | PutSwing(n: Node, round: nat)              // root->tail = new
    | PutUnlock(n: Node, round: nat)
    | GetTest(round: nat) | GetCas(round: nat)
    | GetHead(round: nat)                        // head = root->head
    | GetNext(round: nat, head: Node)            // next = head->next
    | GetEmpty(round: nat)                       // unlock, return NULL
    | GetAdvance(round: nat, head: Node, next: Node)  // root->head = next
    | GetUnlock(round: nat, head: Node)
    | GetPoison(round: nat, head: Node)          // head->next = POISON, return head
    | Crashed                                    // followed a poisoned pointer

  /** Memory, the threads, and the nodes the users hold. `chain` is not in the
      program: it lists the nodes from the head on, and the invariant says that
      it is what the pointers say. */
  datatype Queue = Queue(
    next: map<Node, Ptr>, head: Node, tail: Node, headLock: bool, tailLock: bool,
    pcs: map<Tid, Pc>, users: set<Node>, chain: seq<Node>)

  /** What a step means to a user of the queue. */
  datatype Event =
    | Quiet
    | CallPut(t: Tid, n: Node)
    | Enqueue(t: Tid, n: Node)      // the write of tail->next
    | ReturnPut(t: Tid, n: Node)
    | Dequeue(t: Tid, n: Node)      // the write of root->head
    | SawEmpty(t: Tid)              // the read of head->next that gave NULL
    | ReturnNode(t: Tid, n: Node)
    | ReturnNull(t: Tid)

  datatype Choice = StartPut(n: Node) | StartGet | Go

  function PcOf(s: Queue, t: Tid): Pc { if t in s.pcs then s.pcs[t] else Idle }
  function NextOf(s: Queue, n: Node): Ptr { if n in s.next then s.next[n] else Null }
  function Write(s: Queue, n: Node, p: Ptr): Queue { s.(next := s.next[n := p]) }

  /** What thread t does next: memory afterwards, its next point, and what it
      means. None when it cannot move. */
  function Effect(s: Queue, t: Tid, choice: Choice): Option<(Queue, Pc, Event)> {
    match PcOf(s, t)
    case Idle => Begin(s, t, choice)
    case Crashed => None
    case PutPoison(n, r) => Some((Write(s, n, Poison), PutClear(n, r), Quiet))
    case PutClear(n, r) => Some((Write(s, n, Null), PutTest(n, r), Quiet))
    case PutTest(n, r) => Some((s, if s.tailLock then PutTest(n, r) else PutCas(n, r), Quiet))
    case PutCas(n, r) =>
      if s.tailLock then Some((s, PutTest(n, r), Quiet)) else Some((s.(tailLock := true), PutTail(n, r), Quiet))
    case PutTail(n, r) => Some((s, PutLink(n, r, s.tail), Quiet))
    case PutLink(n, r, tail) =>
      Some((Write(s, tail, To(n)).(chain := s.chain + [n]), PutSwing(n, r),
            if n == Divider then Quiet else Enqueue(t, n)))
    case PutSwing(n, r) => Some((s.(tail := n), PutUnlock(n, r), Quiet))
    case PutUnlock(n, r) =>
      Some((s.(tailLock := false), if n == Divider then GetTest(r + 1) else Idle,
            if n == Divider then Quiet else ReturnPut(t, n)))
    case GetTest(r) => Some((s, if s.headLock then GetTest(r) else GetCas(r), Quiet))
    case GetCas(r) =>
      if s.headLock then Some((s, GetTest(r), Quiet)) else Some((s.(headLock := true), GetHead(r), Quiet))
    case GetHead(r) => Some((s, GetNext(r, s.head), Quiet))
    case GetNext(r, h) =>
      (match NextOf(s, h)
       case Null => Some((s, GetEmpty(r), SawEmpty(t)))
       case Poison => Some((s, Crashed, Quiet))
       case To(n) => Some((s, GetAdvance(r, h, n), Quiet)))
    case GetEmpty(r) => Some((s.(headLock := false), Idle, ReturnNull(t)))
    case GetAdvance(r, h, n) =>
      Some((s.(head := n, chain := if s.chain == [] then [] else s.chain[1..]), GetUnlock(r, h),
            if h == Divider then Quiet else Dequeue(t, h)))
    case GetUnlock(r, h) =>
      Some((s.(headLock := false), if h == Divider then PutPoison(Divider, r) else GetPoison(r, h), Quiet))
    case GetPoison(r, h) => Some((Write(s, h, Poison).(users := s.users + {h}), Idle, ReturnNode(t, h)))
  }

  /** A user may put a node it holds, and get at any time. */
  function Begin(s: Queue, t: Tid, choice: Choice): Option<(Queue, Pc, Event)> {
    match choice
    case StartPut(n) =>
      if n in s.users then Some((s.(users := s.users - {n}), PutPoison(n, 0), CallPut(t, n))) else None
    case StartGet => Some((s, GetTest(0), Quiet))
    case Go => None
  }

  /** One step of thread t. */
  function Step(s: Queue, t: Tid, choice: Choice): Option<(Queue, Event)> {
    match Effect(s, t, choice)
    case None => None
    case Some((m, pc, e)) => Some((m.(pcs := s.pcs[t := pc]), e))
  }

  /** After init_queue_root: the divider alone, every other node with a user. */
  predicate Initial(s: Queue) {
    && s.head == Divider && s.tail == Divider && s.chain == [Divider]
    && NextOf(s, Divider) == Null
    && !s.headLock && !s.tailLock && s.pcs == map[] && Divider !in s.users
  }

  // ---------------------------------------------------------------- the invariant

  predicate InTail(pc: Pc) { pc.PutTail? || pc.PutLink? || pc.PutSwing? || pc.PutUnlock? }
  predicate InHead(pc: Pc) { pc.GetHead? || pc.GetNext? || pc.GetEmpty? || pc.GetAdvance? || pc.GetUnlock? }

  /** The node that thread holds in its hand, off the chain. */
  function Hand(pc: Pc): Option<Node> {
    match pc
    case PutPoison(n, _) => Some(n)
    case PutClear(n, _) => Some(n)
    case PutTest(n, _) => Some(n)
    case PutCas(n, _) => Some(n)
    case PutTail(n, _) => Some(n)
    case PutLink(n, _, _) => Some(n)
    case GetUnlock(_, h) => Some(h)
    case GetPoison(_, h) => Some(h)
    case _ => None
  }

  predicate Cleared(pc: Pc) { pc.PutTest? || pc.PutCas? || pc.PutTail? || pc.PutLink? }

  /** The chain is what the pointers from the head on spell: no node twice, each
      link to the next node, the last one NULL. */
  ghost predicate IsChain(s: Queue) {
    && s.chain != [] && s.chain[0] == s.head
    && (forall i, j :: 0 <= i < j < |s.chain| ==> s.chain[i] != s.chain[j])
    && (forall i :: 0 <= i < |s.chain| - 1 ==> NextOf(s, s.chain[i]) == To(s.chain[i + 1]))
    && NextOf(s, s.chain[|s.chain| - 1]) == Null
  }

  ghost predicate Locks(s: Queue) {
    && (forall t :: InTail(PcOf(s, t)) ==> s.tailLock)
    && (forall t :: InHead(PcOf(s, t)) ==> s.headLock)
    && (forall t, u :: InTail(PcOf(s, t)) && InTail(PcOf(s, u)) ==> t == u)
    && (forall t, u :: InHead(PcOf(s, t)) && InHead(PcOf(s, u)) ==> t == u)
    && (s.tailLock ==> exists t :: InTail(PcOf(s, t)))
    && (s.headLock ==> exists t :: InHead(PcOf(s, t)))
  }

  /** A node is on the chain, or in one thread's hand, or with a user. */
  ghost predicate Apart(s: Queue) {
    && (forall t :: Hand(PcOf(s, t)).Some? ==>
          Hand(PcOf(s, t)).value !in s.chain && Hand(PcOf(s, t)).value !in s.users)
    && (forall t, u :: Hand(PcOf(s, t)).Some? && Hand(PcOf(s, t)) == Hand(PcOf(s, u)) ==> t == u)
    && (forall n :: n in s.users ==> n !in s.chain)
    && Divider !in s.users
    && (Divider in s.chain || exists t :: Hand(PcOf(s, t)) == Some(Divider))
  }

  /** The tail is the last node, but between the two writes of a put, when it is
      the last but one, or off the chain. */
  ghost predicate TailRight(s: Queue)
    requires s.chain != []
  {
    && (forall t :: PcOf(s, t).PutSwing? ==> Behind(s) && PcOf(s, t).n == s.chain[|s.chain| - 1])
    && ((forall t :: !PcOf(s, t).PutSwing?) ==> s.tail == s.chain[|s.chain| - 1])
  }

  predicate Behind(s: Queue) {
    if |s.chain| >= 2 then s.tail == s.chain[|s.chain| - 2] else s.tail !in s.chain
  }

  /** A thread's local variables, at the point where it stands. */
  ghost predicate LocalOk(s: Queue, pc: Pc) {
    && pc != Crashed
    && (Cleared(pc) ==> NextOf(s, pc.n) == Null)
    && (pc.PutLink? ==> pc.tail == s.tail)
    && (pc.GetNext? ==> pc.head == s.head)
    && (pc.GetAdvance? ==> pc.head == s.head && NextOf(s, s.head) == To(pc.next))
    && (pc.GetPoison? ==> pc.head != Divider)
  }

  ghost predicate Locals(s: Queue) {
    forall t :: LocalOk(s, PcOf(s, t))
  }

  ghost predicate Inv(s: Queue) {
    s.chain != [] && IsChain(s) && Locks(s) && Apart(s) && TailRight(s) && Locals(s)
  }

  lemma InitInv(s: Queue)
    requires Initial(s)
    ensures Inv(s)
  {
  }

  /** A step moves its own thread only. */
  lemma OneThread(s: Queue, t: Tid, choice: Choice, s': Queue, e: Event)
    requires Step(s, t, choice) == Some((s', e))
    ensures forall u :: u != t ==> PcOf(s', u) == PcOf(s, u)
    ensures Effect(s, t, choice).Some?
    ensures var (m, pc, e') := Effect(s, t, choice).value;
            PcOf(s', t) == pc && s' == m.(pcs := s'.pcs) && e' == e
  {
    hide Effect;
  }

  /** Nothing on the chain is poisoned, so no thread follows a poisoned link. */
  lemma NoPoison(s: Queue, t: Tid)
    requires Inv(s) && PcOf(s, t).GetNext?
    ensures NextOf(s, PcOf(s, t).head) != Poison && PcOf(s, t).head == s.head
  {
    hide Locks, Apart, TailRight;
    assert LocalOk(s, PcOf(s, t));
    assert s.chain[0] == s.head;
    assert |s.chain| > 1 ==> NextOf(s, s.chain[0]) == To(s.chain[1]);
  }

  /** A lock word, before and after a step of a thread that was, and is, inside:
      taken when free by a thread that enters, dropped by one that leaves. */
  predicate LockStep(was: bool, lock: bool, now: bool, lock': bool) {
    if was == now then lock' == lock else if now then !lock && lock' else !lock'
  }

  lemma LockMoves(s: Queue, t: Tid, choice: Choice, s': Queue, e: Event)
    requires Step(s, t, choice) == Some((s', e)) && PcOf(s', t) != Crashed
    ensures LockStep(InTail(PcOf(s, t)), s.tailLock, InTail(PcOf(s', t)), s'.tailLock)
    ensures LockStep(InHead(PcOf(s, t)), s.headLock, InHead(PcOf(s', t)), s'.headLock)
  {
    hide Step, NextOf;
    OneThread(s, t, choice, s', e);
  }

  lemma {:induction false} StepLocks(s: Queue, t: Tid, choice: Choice, s': Queue, e: Event)
    requires Locks(s) && Step(s, t, choice) == Some((s', e)) && PcOf(s', t) != Crashed
    ensures Locks(s')
  {
    hide Step, InTail, InHead, Effect;
    OneThread(s, t, choice, s', e);
    LockMoves(s, t, choice, s', e);
    if s'.tailLock && !InTail(PcOf(s', t)) {
      var u :| InTail(PcOf(s, u));
      assert InTail(PcOf(s', u));
    }
    if s'.headLock && !InHead(PcOf(s', t)) {
      var u :| InHead(PcOf(s, u));
      assert InHead(PcOf(s', u));
    }
  }

  // The memory changes in four ways: a thread writes the node in its hand, a put
  // links its node, a put swings the tail, a get advances the head.

  /** The tail is the last node when the thread about to link reads it, and no
      node of another thread's hand is on the chain. */
  lemma LinkAtEnd(s: Queue, t: Tid)
    requires Inv(s) && InTail(PcOf(s, t)) && !PcOf(s, t).PutSwing?
    ensures s.tail == s.chain[|s.chain| - 1]
  {
    hide IsChain, Apart, Locals;
  }

  lemma StepChain(s: Queue, t: Tid, choice: Choice, s': Queue, e: Event)
    requires Inv(s) && Step(s, t, choice) == Some((s', e))
    ensures s'.chain != [] && IsChain(s')
  {
    hide Locks, TailRight, Apart, Locals, IsChain, Step, Effect, Led;
    OneThread(s, t, choice, s', e);
    assert Led(s, t, choice, s') by { LedBy(s, t, choice, s', e); }
    match PcOf(s, t)
    case PutPoison(n, _) => HandOff(s, t); Written(s, t, choice, s', n, Poison); WriteOff(s, s', n, Poison);
    case PutClear(n, _) => HandOff(s, t); Written(s, t, choice, s', n, Null); WriteOff(s, s', n, Null);
    case GetPoison(_, h) => HandOff(s, t); Written(s, t, choice, s', h, Poison); WriteOff(s, s', h, Poison);
    case PutLink(n, _, tail) => Relinked(s, t, choice, s'); LinkChain(s, s', t);
    case GetAdvance(_, h, n) => Relinked(s, t, choice, s'); AdvanceChain(s, s', t);
    case _ => Unwritten(s, t, choice, s'); SameChain(s, s');
  }

  lemma LedBy(s: Queue, t: Tid, choice: Choice, s': Queue, e: Event)
    requires Step(s, t, choice) == Some((s', e))
    ensures Led(s, t, choice, s')
  {
    hide Effect;
  }

  lemma Written(s: Queue, t: Tid, choice: Choice, s': Queue, n: Node, p: Ptr)
    requires Led(s, t, choice, s')
    requires var pc := PcOf(s, t);
             (pc.PutPoison? && n == pc.n && p == Poison) || (pc.PutClear? && n == pc.n && p == Null) ||
             (pc.GetPoison? && n == pc.head && p == Poison)
    ensures s'.chain == s.chain && s'.head == s.head && s'.next == s.next[n := p]
  {
    hide NextOf;
  }

  lemma Relinked(s: Queue, t: Tid, choice: Choice, s': Queue)
    requires Led(s, t, choice, s') && s.chain != []
    ensures PcOf(s, t).PutLink? ==>
              var pc := PcOf(s, t);
              s'.chain == s.chain + [pc.n] && s'.head == s.head && s'.next == s.next[pc.tail := To(pc.n)]
    ensures PcOf(s, t).GetAdvance? ==>
              s'.chain == s.chain[1..] && s'.head == PcOf(s, t).next && s'.next == s.next
  {
    hide NextOf;
  }

  lemma Unwritten(s: Queue, t: Tid, choice: Choice, s': Queue)
    requires Led(s, t, choice, s')
    requires var pc := PcOf(s, t);
             !pc.PutPoison? && !pc.PutClear? && !pc.GetPoison? && !pc.PutLink? && !pc.GetAdvance?
    ensures s'.chain == s.chain && s'.head == s.head && s'.next == s.next
  {
    hide NextOf;
  }

  lemma HandOff(s: Queue, t: Tid)
    requires Apart(s) && Hand(PcOf(s, t)).Some?
    ensures Hand(PcOf(s, t)).value !in s.chain
  {
  }

  lemma SameChain(s: Queue, s': Queue)
    requires s.chain != [] && IsChain(s) && s'.chain == s.chain && s'.head == s.head && s'.next == s.next
    ensures IsChain(s')
  {
  }

  lemma WriteOff(s: Queue, s': Queue, n: Node, p: Ptr)
    requires s.chain != [] && IsChain(s) && n !in s.chain
    requires s'.chain == s.chain && s'.head == s.head && s'.next == s.next[n := p]
    ensures IsChain(s')
  {
  }

  lemma LinkChain(s: Queue, s': Queue, t: Tid)
    requires Inv(s) && PcOf(s, t).PutLink?
    requires var n := PcOf(s, t).n;
             s'.chain == s.chain + [n] && s'.head == s.head && s'.next == s.next[PcOf(s, t).tail := To(n)]
    ensures IsChain(s')
  {
  }

  lemma AdvanceChain(s: Queue, s': Queue, t: Tid)
    requires Inv(s) && PcOf(s, t).GetAdvance?
    requires s'.chain == s.chain[1..] && s'.head == PcOf(s, t).next && s'.next == s.next
    ensures |s.chain| > 1 && s.chain[0] == PcOf(s, t).head && s.chain[1] == s'.head && IsChain(s')
  {
    hide Locks, TailRight, Apart;
  }

  lemma StepApart(s: Queue, t: Tid, choice: Choice, s': Queue, e: Event)
    requires Inv(s) && Step(s, t, choice) == Some((s', e))
    ensures Apart(s')
  {
    hide Locks, TailRight, IsChain, Step, Effect, Hand, LocalOk;
    OneThread(s, t, choice, s', e);
    HandMoves(s, t, choice, s', e);
    if Divider !in s'.chain {
      if Divider in s.chain {
        assert Hand(PcOf(s', t)) == Some(Divider);
      } else {
        var u :| Hand(PcOf(s, u)) == Some(Divider);
        assert u != t ==> Hand(PcOf(s', u)) == Some(Divider);
      }
    }
  }

  /** A node passes from a user to a hand, from a hand to the end of the chain,
      from its start to a hand, from a hand to a user; or nothing passes. */
  lemma HandMoves(s: Queue, t: Tid, choice: Choice, s': Queue, e: Event)
    requires Inv(s) && Step(s, t, choice) == Some((s', e))
    ensures Moved(s, t, s')
  {
    hide Locks, TailRight, Apart, IsChain, Step, NextOf, Effect, Hand, Moved;
    OneThread(s, t, choice, s', e);
    assert LocalOk(s, PcOf(s, t));
    if PcOf(s, t).GetAdvance? {
      FirstOnce(s);
      AdvanceMoves(s, t, choice, s');
    } else if PcOf(s, t).Idle? || PcOf(s, t).GetPoison? {
      UserMoves(s, t, choice, s');
    } else {
      OtherMoves(s, t, choice, s');
    }
  }

  /** What a step does to the thread's hand, the chain and the users. */
  predicate Moved(s: Queue, t: Tid, s': Queue)
    requires s.chain != []
  {
    var (a, b) := (Hand(PcOf(s, t)), Hand(PcOf(s', t)));
    || (a == b && s'.chain == s.chain && s'.users == s.users)
    || (a == None && b.Some? && b.value in s.users && s'.users == s.users - {b.value} && s'.chain == s.chain)
    || (a.Some? && b == None && s'.chain == s.chain + [a.value] && s'.users == s.users)
    || (a == None && b == Some(s.chain[0]) && s'.chain == s.chain[1..] && b.value !in s'.chain && s'.users == s.users)
    || (a.Some? && a.value != Divider && b == None && s'.chain == s.chain && s'.users == s.users + {a.value})
  }

  /** Effect has led to s' and to the point where t stands there. */
  predicate Led(s: Queue, t: Tid, choice: Choice, s': Queue) {
    Effect(s, t, choice).Some? &&
    var (m, pc, e) := Effect(s, t, choice).value;
    PcOf(s', t) == pc && s' == m.(pcs := s'.pcs)
  }

  lemma AdvanceMoves(s: Queue, t: Tid, choice: Choice, s': Queue)
    requires s.chain != [] && PcOf(s, t).GetAdvance? && PcOf(s, t).head == s.chain[0] && s.chain[0] !in s.chain[1..]
    requires Led(s, t, choice, s')
    ensures Moved(s, t, s')
  {
  }

  lemma UserMoves(s: Queue, t: Tid, choice: Choice, s': Queue)
    requires s.chain != [] && (PcOf(s, t).Idle? || (PcOf(s, t).GetPoison? && PcOf(s, t).head != Divider))
    requires Led(s, t, choice, s')
    ensures Moved(s, t, s')
  {
    hide NextOf;
  }

  lemma OtherMoves(s: Queue, t: Tid, choice: Choice, s': Queue)
    requires s.chain != [] && Led(s, t, choice, s')
    requires !PcOf(s, t).GetAdvance? && !PcOf(s, t).Idle? && !PcOf(s, t).GetPoison?
    ensures Moved(s, t, s')
  {
    hide NextOf;
  }

  lemma FirstOnce(s: Queue)
    requires s.chain != [] && IsChain(s)
    ensures s.chain[0] == s.head && s.chain[0] !in s.chain[1..]
  {
  }

  lemma StepTail(s: Queue, t: Tid, choice: Choice, s': Queue, e: Event)
    requires Inv(s) && Step(s, t, choice) == Some((s', e)) && s'.chain != []
    ensures TailRight(s')
  {
    hide Locks, IsChain, Apart, Locals, Step, Effect, TailRight;
    OneThread(s, t, choice, s', e);
    TailEffect(s, t, choice);
    if PcOf(s, t).PutLink? {
      LinkAtEnd(s, t);
      LinkTail(s, t, s');
    } else if PcOf(s, t).PutSwing? {
      SwingTail(s, t, s');
    } else if PcOf(s, t).GetAdvance? {
      AdvanceTail(s, s', t);
    } else {
      SameTail(s, s', t);
    }
  }

  lemma TailEffect(s: Queue, t: Tid, choice: Choice)
    requires Effect(s, t, choice).Some?
    ensures var (pc, (m, pc', e)) := (PcOf(s, t), Effect(s, t, choice).value);
            && (pc.PutLink? <==> pc'.PutSwing?)
            && (pc.PutLink? ==> m.tail == s.tail && m.chain == s.chain + [pc.n] && pc'.n == pc.n)
            && (pc.PutSwing? ==> m.tail == pc.n && m.chain == s.chain)
            && (pc.GetAdvance? ==> m.tail == s.tail && m.chain == if s.chain == [] then [] else s.chain[1..])
            && (!pc.PutLink? && !pc.PutSwing? && !pc.GetAdvance? ==> m.tail == s.tail && m.chain == s.chain)
  {
  }

  lemma LinkTail(s: Queue, t: Tid, s': Queue)
    requires s.chain != [] && Locks(s) && InTail(PcOf(s, t)) && s.tail == s.chain[|s.chain| - 1]
    requires forall u :: u != t ==> PcOf(s', u) == PcOf(s, u)
    requires PcOf(s', t).PutSwing? && s'.tail == s.tail && s'.chain == s.chain + [PcOf(s', t).n]
    ensures TailRight(s')
  {
  }

  lemma SwingTail(s: Queue, t: Tid, s': Queue)
    requires s.chain != [] && Locks(s) && TailRight(s) && PcOf(s, t).PutSwing?
    requires forall u :: u != t ==> PcOf(s', u) == PcOf(s, u)
    requires !PcOf(s', t).PutSwing? && s'.tail == PcOf(s, t).n && s'.chain == s.chain
    ensures TailRight(s')
  {
  }

  lemma AdvanceTail(s: Queue, s': Queue, t: Tid)
    requires s.chain != [] && IsChain(s) && TailRight(s) && !PcOf(s, t).PutSwing?
    requires forall u :: u != t ==> PcOf(s', u) == PcOf(s, u)
    requires !PcOf(s', t).PutSwing? && s'.tail == s.tail && s'.chain == s.chain[1..] && s'.chain != []
    ensures TailRight(s')
  {
  }

  lemma SameTail(s: Queue, s': Queue, t: Tid)
    requires s.chain != [] && TailRight(s) && !PcOf(s, t).PutSwing?
    requires forall u :: u != t ==> PcOf(s', u) == PcOf(s, u)
    requires !PcOf(s', t).PutSwing? && s'.tail == s.tail && s'.chain == s.chain
    ensures TailRight(s')
  {
  }

  /** Its own local variables are right after a step. */
  lemma OwnLocals(s: Queue, t: Tid, choice: Choice)
    requires Inv(s) && Effect(s, t, choice).Some?
    ensures LocalOk(Effect(s, t, choice).value.0, Effect(s, t, choice).value.1)
  {
    hide Locks, TailRight, Apart, IsChain;
    assert LocalOk(s, PcOf(s, t));
    if PcOf(s, t).GetNext? { NoPoison(s, t); }
  }

  /** So are those of any other thread. */
  lemma OtherLocals(s: Queue, t: Tid, choice: Choice, u: Tid)
    requires Inv(s) && Effect(s, t, choice).Some? && u != t
    ensures LocalOk(Effect(s, t, choice).value.0, PcOf(s, u))
  {
    hide TailRight, Locks, IsChain;
    var (pc, m) := (PcOf(s, u), Effect(s, t, choice).value.0);
    assert LocalOk(s, pc);
    Exclusive(s, t, u);
    match PcOf(s, t)
    case PutLink(n, _, tail) =>
      LinkAtEnd(s, t);
      EndIsNull(s);
      assert Hand(pc).Some? ==> Hand(pc).value !in s.chain;
    case PutPoison(n, _) => NotMine(s, t, u);
    case PutClear(n, _) => NotMine(s, t, u);
    case GetPoison(_, h) => NotMine(s, t, u);
    case _ =>
  }

  lemma Exclusive(s: Queue, t: Tid, u: Tid)
    requires Locks(s) && u != t
    ensures !(InTail(PcOf(s, t)) && InTail(PcOf(s, u))) && !(InHead(PcOf(s, t)) && InHead(PcOf(s, u)))
  {
  }

  lemma EndIsNull(s: Queue)
    requires s.chain != [] && IsChain(s)
    ensures NextOf(s, s.chain[|s.chain| - 1]) == Null && s.head in s.chain && s.chain[|s.chain| - 1] in s.chain
  {
  }

  /** The node in one thread's hand is neither the head nor in another's. */
  lemma NotMine(s: Queue, t: Tid, u: Tid)
    requires s.chain != [] && IsChain(s) && Apart(s) && u != t && Hand(PcOf(s, t)).Some?
    ensures Hand(PcOf(s, t)).value != s.head && Hand(PcOf(s, t)) != Hand(PcOf(s, u))
  {
  }

  lemma StepLocals(s: Queue, t: Tid, choice: Choice, s': Queue, e: Event)
    requires Inv(s) && Step(s, t, choice) == Some((s', e))
    ensures Locals(s')
  {
    hide Step, Effect, Inv;
    OneThread(s, t, choice, s', e);
    OwnLocals(s, t, choice);
    var m := Effect(s, t, choice).value.0;
    forall u ensures LocalOk(s', PcOf(s', u)) {
      if u != t { OtherLocals(s, t, choice, u); }
      assert forall n :: NextOf(m, n) == NextOf(s', n);
    }
  }

  lemma {:induction false} StepInv(s: Queue, t: Tid, choice: Choice, s': Queue, e: Event)
    requires Inv(s) && Step(s, t, choice) == Some((s', e))
    ensures Inv(s')
  {
    hide IsChain, Locks, Apart, TailRight, Step;
    StepChain(s, t, choice, s', e);
    StepLocals(s, t, choice, s', e);
    StepLocks(s, t, choice, s', e);
    StepApart(s, t, choice, s', e);
    StepTail(s, t, choice, s', e);
  }
}
