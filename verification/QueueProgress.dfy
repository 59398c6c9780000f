/** When the calls of the queue return, and what: NULL only after a read of NULL
    in the same call, and a thread that runs alone, with no other inside a lock,
    comes to the end of its call, with the first element if there is one.
 */
module QueueProgress {
  import opened Rpc
  import opened QueueMachine
  import opened QueueTheorems

  // ---------------------------------------------------------------- NULL results

  function Seen(t: Tid, es: seq<Event>): nat {
    if es == [] then 0 else Seen(t, es[..|es| - 1]) + (if es[|es| - 1] == SawEmpty(t) then 1 else 0)
  }

  function Nulls(t: Tid, es: seq<Event>): nat {
    if es == [] then 0 else Nulls(t, es[..|es| - 1]) + (if es[|es| - 1] == ReturnNull(t) then 1 else 0)
  }

  lemma NullStep(s: Queue, t: Tid, choice: Choice, s': Queue, e: Event, u: Tid)
    requires Inv(s) && Step(s, t, choice) == Some((s', e))
    ensures (if PcOf(s, u).GetEmpty? then 1 else 0) + (if e == SawEmpty(u) then 1 else 0) ==
            (if e == ReturnNull(u) then 1 else 0) + (if PcOf(s', u).GetEmpty? then 1 else 0)
    ensures e == ReturnNull(u) ==> u == t
    ensures e == SawEmpty(u) ==> u == t
  {
    hide Inv, Step, NextOf;
    OneThread(s, t, choice, s', e);
  }

  /** Every NULL that a thread's calls have returned was read in the same call, and
      every NULL read is returned: the reads are the results so far, and one more
      where it stands between the two. */
  lemma {:induction false} NullsAreSeen(ss: seq<Queue>, ts: seq<Tid>, cs: seq<Choice>, es: seq<Event>, t: Tid, n: nat)
    requires Run(ss, ts, cs, es) && n <= |es|
    ensures Seen(t, es[..n]) == Nulls(t, es[..n]) + (if PcOf(ss[n], t).GetEmpty? then 1 else 0)
  {
    hide Inv, Step, Effect;
    if n > 0 {
      NullsAreSeen(ss, ts, cs, es, t, n - 1);
      RunInv(ss, ts, cs, es, n - 1);
      NullStep(ss[n - 1], ts[n - 1], cs[n - 1], ss[n], es[n - 1], t);
      assert es[..n][..n - 1] == es[..n - 1];
    }
  }

  /** Where a thread is about to return NULL, its last step was the read. */
  lemma {:induction false} LastRead(ss: seq<Queue>, ts: seq<Tid>, cs: seq<Choice>, es: seq<Event>, t: Tid, n: nat)
    returns (m: nat)
    requires Run(ss, ts, cs, es) && n <= |es| && PcOf(ss[n], t).GetEmpty?
    ensures m < n && es[m] == SawEmpty(t) && forall i :: m < i < n ==> ts[i] != t
  {
    hide Inv, Step, Effect;
    assert n > 0;
    RunInv(ss, ts, cs, es, n - 1);
    ComesFrom(ss[n - 1], ts[n - 1], cs[n - 1], ss[n], es[n - 1], t);
    if ts[n - 1] == t {
      m := n - 1;
    } else {
      m := LastRead(ss, ts, cs, es, t, n - 1);
    }
  }

  lemma ComesFrom(s: Queue, t: Tid, choice: Choice, s': Queue, e: Event, u: Tid)
    requires Step(s, t, choice) == Some((s', e)) && PcOf(s', u).GetEmpty?
    ensures if t == u then e == SawEmpty(u) else PcOf(s, u).GetEmpty?
  {
    hide Step, NextOf;
    OneThread(s, t, choice, s', e);
  }

  lemma Leaves(s: Queue, t: Tid, choice: Choice, s': Queue, e: Event)
    requires Step(s, t, choice) == Some((s', e)) && e.ReturnNull?
    ensures e.t == t && PcOf(s, t).GetEmpty?
  {
    hide Step, NextOf;
    OneThread(s, t, choice, s', e);
  }

  /** With a single consumer, a call that returns NULL has read it when the queue
      was empty, and that read is its last step but one. */
  lemma {:induction false} NullMeansEmpty(ss: seq<Queue>, ts: seq<Tid>, cs: seq<Choice>, es: seq<Event>, c: Tid, n: nat)
    returns (m: nat)
    requires Run(ss, ts, cs, es) && n < |es| && es[n].ReturnNull?
    requires forall i :: 0 <= i < |es| && PcOf(ss[i], ts[i]).Idle? && cs[i].StartGet? ==> ts[i] == c
    ensures m < n && es[m] == SawEmpty(es[n].t) && (forall i :: m < i < n ==> ts[i] != es[n].t)
    ensures Contents(ss[m].chain) == [] && Replay(es[..m]) == Some([])
  {
    hide Inv, Step, Effect;
    Leaves(ss[n], ts[n], cs[n], ss[n + 1], es[n]);
    m := LastRead(ss, ts, cs, es, es[n].t, n);
    SingleConsumer(ss, ts, cs, es, c, m);
  }

  // ---------------------------------------------------------------- a thread alone

  /** No other thread is inside a lock. */
  ghost predicate Free(s: Queue, t: Tid) {
    forall u :: u != t ==> !InTail(PcOf(s, u)) && !InHead(PcOf(s, u))
  }

  /** The state after k steps of thread t. */
  function Solo(s: Queue, t: Tid, k: nat): Option<Queue>
    decreases k
  {
    if k == 0 then Some(s)
    else
      match Step(s, t, Go)
      case None => None
      case Some((s', _)) => Solo(s', t, k - 1)
  }

  /** Steps to the end of the call, at most. A turn that finds the divider first
      costs another one. */
  function Rank(chain: seq<Node>, pc: Pc): nat
    requires chain != []
  {
    var first := if chain[0] == Divider then 20 else 0;
    match pc
    case Idle => 0
    case Crashed => 0
    case PutPoison(n, _) => 10 + Again(chain, n)
    case PutClear(n, _) => 9 + Again(chain, n)
    case PutTest(n, _) => 8 + Again(chain, n)
    case PutCas(n, _) => 7 + Again(chain, n)
    case PutTail(n, _) => 6 + Again(chain, n)
    case PutLink(n, _, _) => 5 + Again(chain, n)
    case PutSwing(n, _) => 4 + Again(chain, n)
    case PutUnlock(n, _) => 3 + Again(chain, n)
    case GetTest(_) => 8 + first
    case GetCas(_) => 7 + first
    case GetHead(_) => 6 + first
    case GetNext(_, _) => 5 + first
    case GetAdvance(_, _, _) => 4 + first
    case GetUnlock(_, h) => if h == Divider then 23 else 3
    case GetPoison(_, _) => 2
    case GetEmpty(_) => 1
  }

  /** A put of the divider is followed by another turn. */
  function Again(chain: seq<Node>, n: Node): nat
    requires chain != []
  {
    if n != Divider then 0 else if chain[0] == Divider then 40 else 10
  }

  lemma Moves(s: Queue, t: Tid)
    requires Inv(s) && Free(s, t) && PcOf(s, t) != Idle
    ensures Effect(s, t, Go).Some?
    ensures var (m, pc, e) := Effect(s, t, Go).value;
            m.chain != [] && Rank(m.chain, pc) < Rank(s.chain, PcOf(s, t))
  {
    hide TailRight, NextOf, Effect, Rank, IsChain, Apart;
    assert LocalOk(s, PcOf(s, t));
    FreeLocks(s, t);
    if Putting(PcOf(s, t)) {
      PutDescends(s, t);
    } else {
      if Hand(PcOf(s, t)).Some? { HandOff(s, t); }
      GetDescends(s, t);
    }
  }

  predicate Putting(pc: Pc) {
    pc.PutPoison? || pc.PutClear? || pc.PutTest? || pc.PutCas? || pc.PutTail? || pc.PutLink? || pc.PutSwing? ||
    pc.PutUnlock?
  }

  lemma PutDescends(s: Queue, t: Tid)
    requires s.chain != [] && Apart(s) && Putting(PcOf(s, t)) && (!InTail(PcOf(s, t)) ==> !s.tailLock)
    ensures Effect(s, t, Go).Some?
    ensures var (m, pc, e) := Effect(s, t, Go).value;
            m.chain != [] && Rank(m.chain, pc) < Rank(s.chain, PcOf(s, t))
  {
    if PcOf(s, t).PutLink? { HandOff(s, t); }
  }

  lemma GetDescends(s: Queue, t: Tid)
    requires s.chain != [] && IsChain(s) && LocalOk(s, PcOf(s, t)) && !Putting(PcOf(s, t)) && PcOf(s, t) != Idle
    requires !InHead(PcOf(s, t)) ==> !s.headLock
    requires Hand(PcOf(s, t)).Some? ==> Hand(PcOf(s, t)).value !in s.chain
    ensures Effect(s, t, Go).Some?
    ensures var (m, pc, e) := Effect(s, t, Go).value;
            m.chain != [] && Rank(m.chain, pc) < Rank(s.chain, PcOf(s, t))
  {
    hide NextOf, IsChain;
    FirstLink(s);
  }

  lemma FreeLocks(s: Queue, t: Tid)
    requires Locks(s) && Free(s, t)
    ensures !InTail(PcOf(s, t)) ==> !s.tailLock
    ensures !InHead(PcOf(s, t)) ==> !s.headLock
  {
  }

  /** What a call is going to return, and what the queue then holds: a node it has
      taken already; NULL, when it has read it; else the first element, or NULL if
      there is none. */
  function Due(chain: seq<Node>, pc: Pc): Option<Node> {
    if pc.GetEmpty? then None
    else if Pending(pc) != [] then Some(Pending(pc)[0])
    else if Contents(chain) == [] then None
    else Some(Contents(chain)[0])
  }

  function Rest(chain: seq<Node>, pc: Pc): seq<Node> {
    if pc.GetEmpty? || Pending(pc) != [] || Contents(chain) == [] then Contents(chain) else Contents(chain)[1..]
  }

  function Returns(t: Tid, due: Option<Node>): Event {
    if due.None? then ReturnNull(t) else ReturnNode(t, due.value)
  }

  /** The divider is on the chain, or with t. */
  ghost predicate NoDivider(s: Queue, t: Tid) {
    forall u :: u != t ==> Hand(PcOf(s, u)) != Some(Divider)
  }

  /** One step of a get keeps what is due, or returns it. */
  predicate Onward(chain: seq<Node>, pc: Pc, chain': seq<Node>, pc': Pc, e: Event, t: Tid) {
    if pc' == Idle then e == Returns(t, Due(chain, pc)) && Contents(chain') == Rest(chain, pc)
    else Getting(pc') && Due(chain', pc') == Due(chain, pc) && Rest(chain', pc') == Rest(chain, pc)
  }

  lemma GetMoves(s: Queue, t: Tid)
    requires Inv(s) && NoDivider(s, t) && Getting(PcOf(s, t)) && Effect(s, t, Go).Some?
    ensures var (m, pc, e) := Effect(s, t, Go).value;
            Onward(s.chain, PcOf(s, t), m.chain, pc, e, t)
  {
    hide TailRight, Locks, NextOf, Contents, Onward, Effect;
    assert LocalOk(s, PcOf(s, t));
    if Putting(PcOf(s, t)) {
      BackMoves(s, t);
    } else {
      match PcOf(s, t)
      case GetNext(_, _) => ReadsNext(s, t); ReadMoves(s, t);
      case GetAdvance(_, h, _) => TakesFirst(s, t); AdvanceMoves(s, t);
      case _ => OtherGets(s, t);
    }
  }

  lemma BackMoves(s: Queue, t: Tid)
    requires Putting(PcOf(s, t)) && PcOf(s, t).n == Divider && Effect(s, t, Go).Some?
    ensures var (m, pc, e) := Effect(s, t, Go).value; Onward(s.chain, PcOf(s, t), m.chain, pc, e, t)
  {
    hide NextOf, Contents;
    ContentsSame(s, Divider);
  }

  lemma ReadMoves(s: Queue, t: Tid)
    requires PcOf(s, t).GetNext? && Effect(s, t, Go).Some?
    requires NextOf(s, PcOf(s, t).head) == Null ==> Contents(s.chain) == []
    requires NextOf(s, PcOf(s, t).head) != Poison
    ensures var (m, pc, e) := Effect(s, t, Go).value; Onward(s.chain, PcOf(s, t), m.chain, pc, e, t)
  {
    hide NextOf, Contents;
  }

  lemma AdvanceMoves(s: Queue, t: Tid)
    requires s.chain != [] && PcOf(s, t).GetAdvance? && Effect(s, t, Go).Some?
    requires s.chain[0] == PcOf(s, t).head && Contents(s.chain) == Real(s.chain[0]) + Contents(s.chain[1..])
    ensures var (m, pc, e) := Effect(s, t, Go).value; Onward(s.chain, PcOf(s, t), m.chain, pc, e, t)
  {
    hide NextOf, Contents;
  }

  lemma OtherGets(s: Queue, t: Tid)
    requires var pc := PcOf(s, t); Getting(pc) && !Putting(pc) && !pc.GetNext? && !pc.GetAdvance?
    requires LocalOk(s, PcOf(s, t)) && Effect(s, t, Go).Some?
    ensures var (m, pc, e) := Effect(s, t, Go).value; Onward(s.chain, PcOf(s, t), m.chain, pc, e, t)
  {
    hide NextOf, Contents;
  }

  lemma ContentsSame(s: Queue, n: Node)
    ensures n == Divider ==> Contents(s.chain + [n]) == Contents(s.chain)
  {
    ContentsCat(s.chain, [n]);
    ContentsOne(n);
  }

  lemma TakesFirst(s: Queue, t: Tid)
    requires Inv(s) && PcOf(s, t).GetAdvance?
    ensures s.chain[0] == PcOf(s, t).head && Contents(s.chain) == Real(s.chain[0]) + Contents(s.chain[1..])
  {
    hide Contents;
    HeadFirst(s, t);
    ContentsCat([s.chain[0]], s.chain[1..]);
    ContentsOne(s.chain[0]);
  }

  /** NULL is read only when nothing but the divider is there. */
  lemma ReadsNext(s: Queue, t: Tid)
    requires Inv(s) && NoDivider(s, t) && PcOf(s, t).GetNext?
    ensures NextOf(s, PcOf(s, t).head) == Null ==> Contents(s.chain) == []
    ensures NextOf(s, PcOf(s, t).head) != Poison
  {
    hide TailRight, Locks, NextOf;
    NoPoison(s, t);
    FirstLink(s);
    ContentsOne(Divider);
    if |s.chain| == 1 { assert s.chain == [s.chain[0]]; }
  }

  lemma {:induction false} SoloSnoc(s: Queue, t: Tid, s': Queue, e: Event, k: nat)
    requires Step(s, t, Go) == Some((s', e))
    ensures Solo(s, t, k + 1) == Solo(s', t, k)
  {
  }

  lemma StillAlone(s: Queue, t: Tid, s': Queue, e: Event)
    requires Step(s, t, Go) == Some((s', e))
    ensures Free(s, t) ==> Free(s', t)
    ensures NoDivider(s, t) ==> NoDivider(s', t)
  {
    hide Step, Effect, InTail, InHead;
    OneThread(s, t, Go, s', e);
  }

  /** From every reachable state with no other thread inside a lock or with the
      divider in its hand, a thread in queue_get that runs alone comes to the end
      of its call; and it returns what is due. */
  lemma {:induction false} GetEnds(s: Queue, t: Tid) returns (k: nat, m: Queue, m': Queue)
    requires Inv(s) && Free(s, t) && NoDivider(s, t) && Getting(PcOf(s, t))
    ensures Solo(s, t, k) == Some(m) && Solo(s, t, k + 1) == Some(m') && PcOf(m', t) == Idle
    ensures Step(m, t, Go) == Some((m', Returns(t, Due(s.chain, PcOf(s, t)))))
    ensures Contents(m'.chain) == Rest(s.chain, PcOf(s, t))
    decreases Rank(s.chain, PcOf(s, t))
  {
    hide Inv, Step, Effect, Rank, Due, Rest, Free, NoDivider, Getting, Contents;
    Busy(s, t);
    Moves(s, t);
    GetMoves(s, t);
    var s', e := Taken(s, t);
    if PcOf(s', t) == Idle {
      k, m, m' := 0, s, s';
      SoloSnoc(s, t, s', e, 0);
    } else {
      StillAlone(s, t, s', e);
      StepInv(s, t, Go, s', e);
      k, m, m' := GetEnds(s', t);
      SoloSnoc(s, t, s', e, k);
      SoloSnoc(s, t, s', e, k + 1);
      k := k + 1;
    }
  }

  lemma Busy(s: Queue, t: Tid)
    requires Getting(PcOf(s, t))
    ensures PcOf(s, t) != Idle
  {
  }

  lemma Taken(s: Queue, t: Tid) returns (s': Queue, e: Event)
    requires Effect(s, t, Go).Some?
    ensures Step(s, t, Go) == Some((s', e))
    ensures PcOf(s', t) == Effect(s, t, Go).value.1 && e == Effect(s, t, Go).value.2
    ensures s'.chain == Effect(s, t, Go).value.0.chain
  {
    hide Effect;
    var (m, pc, e') := Effect(s, t, Go).value;
    s', e := m.(pcs := s.pcs[t := pc]), e';
  }

  /** The same for queue_put, with any other thread outside the locks: it returns
      with its node at the end, linked once. */
  lemma {:induction false} PutEnds(s: Queue, t: Tid) returns (k: nat, m: Queue, m': Queue)
    requires Inv(s) && Free(s, t) && Putting(PcOf(s, t)) && PcOf(s, t).n != Divider
    ensures Solo(s, t, k) == Some(m) && Solo(s, t, k + 1) == Some(m') && PcOf(m', t) == Idle
    ensures Step(m, t, Go) == Some((m', ReturnPut(t, PcOf(s, t).n)))
    ensures Contents(m'.chain) == Contents(s.chain) + Unlinked(PcOf(s, t))
    decreases Rank(s.chain, PcOf(s, t))
  {
    hide Inv, Step, Effect, Rank, Free, Contents, Unlinked;
    Moves(s, t);
    PutMoves(s, t);
    var s', e := Taken(s, t);
    if PcOf(s', t) == Idle {
      k, m, m' := 0, s, s';
      SoloSnoc(s, t, s', e, 0);
    } else {
      StillAlone(s, t, s', e);
      StepInv(s, t, Go, s', e);
      k, m, m' := PutEnds(s', t);
      SoloSnoc(s, t, s', e, k);
      SoloSnoc(s, t, s', e, k + 1);
      k := k + 1;
    }
  }

  lemma PutMoves(s: Queue, t: Tid)
    requires Putting(PcOf(s, t)) && PcOf(s, t).n != Divider && Effect(s, t, Go).Some?
    ensures var (m, pc, e) := Effect(s, t, Go).value;
            && Contents(m.chain) + Unlinked(pc) == Contents(s.chain) + Unlinked(PcOf(s, t))
            && (if pc == Idle then e == ReturnPut(t, PcOf(s, t).n) && Unlinked(pc) == []
                else Putting(pc) && pc.n == PcOf(s, t).n)
  {
    hide NextOf, Contents;
    var n := PcOf(s, t).n;
    ContentsCat(s.chain, [n]);
    ContentsOne(n);
  }
}
