/** With two consumers queue_get can return NULL although the queue holds an
    element: while another call has taken the divider off and not yet put it
    back, a lone element looks like the divider of an empty queue.
 */
module QueueSpurious {
  import opened Rpc
  import opened QueueMachine
  import opened QueueTheorems

  ghost predicate Reached(s: Queue) {
    exists ss, ts, cs, es :: Run(ss, ts, cs, es) && ss[|es|] == s
  }

  lemma {:induction false} Move(s: Queue, t: Tid, choice: Choice) returns (s': Queue)
    requires Reached(s) && Step(s, t, choice).Some?
    ensures Reached(s') && s' == Step(s, t, choice).value.0
    ensures forall u :: u != t ==> PcOf(s', u) == PcOf(s, u)
  {
    hide Step, Initial;
    var ss, ts, cs, es :| Run(ss, ts, cs, es) && ss[|es|] == s;
    var (m, e) := Step(s, t, choice).value;
    s' := m;
    OneThread(s, t, choice, s', e);
    var ss', ts', cs', es' := ss + [s'], ts + [t], cs + [choice], es + [e];
    forall i | 0 <= i < |es'| ensures Step(ss'[i], ts'[i], cs'[i]) == Some((ss'[i + 1], es'[i])) {
      if i < |es| {
        assert Step(ss[i], ts[i], cs[i]) == Some((ss[i + 1], es[i]));
      }
    }
    assert Run(ss', ts', cs', es');
  }

  /** A whole queue_put of thread t, undisturbed. */
  lemma {:induction false} PutAlone(s: Queue, t: Tid, n: Node) returns (s': Queue)
    requires Reached(s) && PcOf(s, t) == Idle && n in s.users && n != Divider && n != s.tail && !s.tailLock
    ensures Reached(s')
    ensures s'.chain == s.chain + [n] && s'.tail == n && s'.head == s.head && !s'.tailLock && s'.headLock == s.headLock
    ensures NextOf(s', n) == Null && NextOf(s', s.tail) == To(n)
    ensures forall u :: PcOf(s', u) == PcOf(s, u)
  {
    hide Reached;
    s' := PutLocks(s, t, n);
    s' := Move(s', t, Go);
    s' := Move(s', t, Go);
    s' := Move(s', t, Go);
    s' := Move(s', t, Go);
  }

  /** It, up to the lock. */
  lemma {:induction false} PutLocks(s: Queue, t: Tid, n: Node) returns (s': Queue)
    requires Reached(s) && PcOf(s, t) == Idle && n in s.users && n != Divider && !s.tailLock
    ensures Reached(s') && PcOf(s', t) == PutTail(n, 0) && NextOf(s', n) == Null
    ensures s'.chain == s.chain && s'.tail == s.tail && s'.head == s.head && s'.tailLock && s'.headLock == s.headLock
    ensures forall u :: u != t ==> PcOf(s', u) == PcOf(s, u)
  {
    hide Reached;
    s' := Move(s, t, StartPut(n));
    s' := Move(s', t, Go);
    s' := Move(s', t, Go);
    s' := Move(s', t, Go);
    s' := Move(s', t, Go);
  }

  /** queue_get of thread t, up to its read of head->next, undisturbed. */
  lemma {:induction false} GetStarts(s: Queue, t: Tid) returns (s': Queue)
    requires Reached(s) && PcOf(s, t) == Idle && !s.headLock
    ensures Reached(s')
    ensures s' == s.(headLock := true, pcs := s'.pcs) && PcOf(s', t) == GetNext(0, s.head)
    ensures forall u :: u != t ==> PcOf(s', u) == PcOf(s, u)
  {
    hide Reached;
    s' := Move(s, t, StartGet);
    s' := Move(s', t, Go);
    s' := Move(s', t, Go);
    s' := Move(s', t, Go);
  }

  /** The call goes on to take the divider off, and is about to put it back. */
  lemma {:induction false} TakeDivider(s: Queue, t: Tid, n: Node) returns (s': Queue)
    requires Reached(s) && PcOf(s, t) == GetNext(0, Divider) && s.head == Divider
    requires s.chain == [Divider, n] && NextOf(s, Divider) == To(n)
    ensures Reached(s') && s'.chain == [n] && s'.head == n && !s'.headLock
    ensures PcOf(s', t) == PutPoison(Divider, 0) && NextOf(s', n) == NextOf(s, n)
    ensures forall u :: u != t ==> PcOf(s', u) == PcOf(s, u)
  {
    hide Reached;
    s' := Move(s, t, Go);
    s' := Move(s', t, Go);
    s' := Move(s', t, Go);
  }

  /** Thread 0 puts a node; thread 1 takes the divider off and is about to put it
      back; thread 2 gets, and is told that the queue is empty. */
  lemma {:induction false} NullWithAnElement() returns (s: Queue)
    ensures Reached(s) && Contents(s.chain) == [Elem(0)]
    ensures Step(s, 2, Go).Some? && Step(s, 2, Go).value.1 == SawEmpty(2)
  {
    hide Reached, Contents;
    s := Queue(map[], Divider, Divider, false, false, map[], {Elem(0)}, [Divider]);
    Begun(s);
    s := PutAlone(s, 0, Elem(0));
    s := GetStarts(s, 1);
    s := TakeDivider(s, 1, Elem(0));
    s := GetStarts(s, 2);
    ContentsOne(Elem(0));
  }

  lemma Begun(s: Queue)
    requires Initial(s)
    ensures Reached(s)
  {
    assert Run([s], [], [], []);
  }
}
