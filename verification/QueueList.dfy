/** The queue of include/queue.h on the heap, without interference: what
    queue_put and queue_get do to the pointers, and the loops that fill and
    drain whole queues (src/server/main.c, src/server/io/io.c). The locks are
    free between calls and a lock that is free is got at once, so they are left
    out; module QueueMachine has them.
 */
module QueueList {

  /** The value of a `next` pointer. */
  datatype Link = Null | Poison | To(node: QueueHead)

  class QueueHead {
    var next: Link

    /** queue_head_init */
    constructor ()
      ensures next == Poison
    {
      next := Poison;
    }
  }

  /** Without one node, wherever it is. */
  function Without<T(==)>(q: seq<T>, d: T): (r: seq<T>)
    ensures d !in r && |r| <= |q|
    ensures forall n | n in r :: n in q && n != d
    ensures forall n | n in q :: n != d ==> n in r
    ensures d !in q ==> r == q
  {
    if q == [] then []
    else if q[0] == d then Without(q[1..], d)
    else [q[0]] + Without(q[1..], d)
  }

  lemma {:induction false} WithoutCat<T>(a: seq<T>, b: seq<T>, d: T)
    ensures Without(a + b, d) == Without(a, d) + Without(b, d)
  {
    if a == [] {
      assert a + b == b;
    } else {
      assert (a + b)[1..] == a[1..] + b && (a + b)[0] == a[0];
      WithoutCat(a[1..], b, d);
    }
  }

  lemma WithoutOne<T>(n: T, d: T)
    ensures Without([n], d) == if n == d then [] else [n]
  {
  }

  ghost predicate Distinct<T>(q: seq<T>) {
    forall i, j :: 0 <= i < j < |q| ==> q[i] != q[j]
  }

  class QueueRoot {
    var head: QueueHead
    var tail: QueueHead
    const divider: QueueHead

    /** The nodes from the head on, the divider among them. */
    ghost var chain: seq<QueueHead>

    ghost function Nodes(): set<QueueHead>
      reads this
    {
      set n | n in chain
    }

    /** The pointers spell the chain. */
    ghost predicate Linked()
      reads this, Nodes()
    {
      && chain != [] && Distinct(chain)
      && head == chain[0] && tail == chain[|chain| - 1]
      && (forall i :: 0 <= i < |chain| - 1 ==> chain[i].next == To(chain[i + 1]))
      && chain[|chain| - 1].next == Null
    }

    ghost predicate Valid()
      reads this, Nodes()
    {
      Linked() && divider in chain
    }

    /** What a user has put and not got. */
    ghost function Contents(): seq<QueueHead>
      reads this
    {
      Without(chain, divider)
    }

    /** init_queue_root */
    constructor ()
      ensures Valid() && Contents() == [] && fresh(divider) && chain == [divider]
    {
      var d := new QueueHead();
      d.next := Null;
      divider := d;
      head := d;
      tail := d;
      chain := [d];
    }

    /** queue_put: the node goes to the end. */
    method Put(n: QueueHead)
      requires Linked() && n !in chain
      modifies this, n, tail
      ensures Linked() && chain == old(chain) + [n]
      ensures n != divider ==> Contents() == old(Contents()) + [n]
      ensures n == divider ==> Contents() == old(Contents())
    {
      hide Without;
      n.next := Poison;
      n.next := Null;
      tail.next := To(n);
      tail := n;
      chain := chain + [n];
      WithoutCat(old(chain), [n], divider);
      WithoutOne(n, divider);
    }

    /** The locked part of queue_get: the head moves on, if there is a next. */
    method TakeFirst() returns (first: QueueHead, ok: bool)
      requires Linked()
      modifies this
      ensures first == old(chain)[0]
      ensures ok <==> |old(chain)| > 1
      ensures !ok ==> chain == old(chain) && Linked()
      ensures ok ==> Linked() && old(chain) == [first] + chain && first !in chain
    {
      assert |chain| > 1 ==> chain[0].next == To(chain[1]);
      first := head;
      ok := first.next.To?;
      if ok {
        head := first.next.node;
        chain := chain[1..];
      }
    }

    /** queue_get: the first node, poisoned, or null exactly when the queue is
        empty. The divider is moved out of the way at most once. */
    method Get() returns (r: QueueHead?)
      requires Valid()
      modifies this, Nodes()
      ensures Valid() && Nodes() <= old(Nodes())
      ensures r == null <==> old(Contents()) == []
      ensures r == null ==> Contents() == []
      ensures r != null ==> [r] + Contents() == old(Contents()) && r.next == Poison && r !in chain && r in old(chain)
    {
      hide Linked, Without;
      ghost var turn := 0;
      while true
        invariant Valid() && Contents() == old(Contents()) && turn <= 1
        invariant Nodes() == old(Nodes())
        invariant turn == 1 ==> |chain| >= 2 && chain[0] != divider
        decreases 1 - turn
      {
        ghost var before := chain;
        var first, ok := TakeFirst();
        if !ok {
          assert chain == [divider];
          WithoutOne(divider, divider);
          return null;
        }
        ghost var rest := chain;
        WithoutCat([first], rest, divider);
        WithoutOne(first, divider);
        assert Nodes() == old(Nodes()) - {first} by { SplitFirst(before, first, rest); }
        if first == divider {
          Put(first);
          assert forall n :: n in chain <==> n in rest || n == first;
          turn := turn + 1;
        } else {
          first.next := Poison;
          return first;
        }
      }
    }

    /** The loop that empties a queue: every element once, in order. */
    method DrainAll() returns (out: seq<QueueHead>)
      requires Valid()
      modifies this, Nodes()
      ensures Valid() && Contents() == [] && out == old(Contents())
      ensures Nodes() <= old(Nodes())
    {
      hide Linked, Without;
      ghost var start := Contents();
      out := [];
      var q := Get();
      while q != null
        invariant Valid() && Nodes() <= old(Nodes())
        invariant |out| <= |start| && out == start[..|out|]
        invariant if q == null then |out| == |start| && Contents() == [] else [q] + Contents() == start[|out|..]
        decreases |start| - |out|
      {
        TakenNext(start, out, q, Contents());
        out := out + [q];
        q := Get();
      }
    }
  }

  /** One more element taken from the front of a sequence. */
  lemma TakenNext<T>(start: seq<T>, taken: seq<T>, q: T, rest: seq<T>)
    requires |taken| <= |start| && taken == start[..|taken|] && [q] + rest == start[|taken|..]
    ensures |taken| < |start| && taken + [q] == start[..|taken| + 1] && rest == start[|taken| + 1..]
  {
  }

  lemma SplitFirst(q: seq<QueueHead>, first: QueueHead, rest: seq<QueueHead>)
    requires q == [first] + rest && first !in rest
    ensures (set n | n in rest) == (set n | n in q) - {first}
  {
  }

  /** One turn of the drain: the element in hand is put on the pool, and the next
      one taken. */
  method PassOn(sendQueue: QueueRoot, pool: QueueRoot, q: QueueHead) returns (next: QueueHead?)
    requires sendQueue.Valid() && pool.Valid() && sendQueue != pool
    requires sendQueue.Nodes() !! pool.Nodes() && q !in pool.Nodes() && q !in sendQueue.Nodes()
    modifies sendQueue, pool, q, sendQueue.Nodes(), pool.Nodes()
    ensures sendQueue.Valid() && pool.Valid()
    ensures sendQueue.Nodes() <= old(sendQueue.Nodes()) && pool.Nodes() == old(pool.Nodes()) + {q}
    ensures pool.Contents() == old(pool.Contents()) + [q]
    ensures next == null <==> old(sendQueue.Contents()) == []
    ensures next == null ==> sendQueue.Contents() == []
    ensures next != null ==> [next] + sendQueue.Contents() == old(sendQueue.Contents())
    ensures next != null ==> next !in sendQueue.Nodes() && next in old(sendQueue.Nodes())
  {
    hide Without;
    pool.Put(q);
    next := sendQueue.Get();
  }

  /** The drain of finish_connection: the send queue is emptied into the pool,
      and `sent` goes up by the number of its elements. */
  method DrainSendQueue(sendQueue: QueueRoot, pool: QueueRoot, sent: nat) returns (sent': nat)
    requires sendQueue.Valid() && pool.Valid() && sendQueue != pool
    requires sendQueue.Nodes() !! pool.Nodes()
    modifies sendQueue, pool, sendQueue.Nodes(), pool.Nodes()
    ensures sendQueue.Valid() && pool.Valid()
    ensures sendQueue.Contents() == []
    ensures pool.Contents() == old(pool.Contents()) + old(sendQueue.Contents())
    ensures sent' == sent + |old(sendQueue.Contents())|
  {
    hide Without, QueueRoot.Linked, QueueRoot.Valid, QueueRoot.Contents;
    ghost var start := sendQueue.Contents();
    ghost var before := pool.Contents();
    sent' := sent;
    ghost var moved: seq<QueueHead> := [];
    var q := sendQueue.Get();
    while q != null
      invariant sendQueue.Valid() && pool.Valid()
      invariant sendQueue.Nodes() !! pool.Nodes()
      invariant sendQueue.Nodes() <= old(sendQueue.Nodes())
      invariant pool.Nodes() <= old(pool.Nodes()) + old(sendQueue.Nodes())
      invariant q != null ==> q !in pool.Nodes() && q !in sendQueue.Nodes() && q in old(sendQueue.Nodes())
      invariant |moved| <= |start| && moved == start[..|moved|]
      invariant if q == null then |moved| == |start| && sendQueue.Contents() == []
                else [q] + sendQueue.Contents() == start[|moved|..]
      invariant pool.Contents() == before + moved
      invariant sent' == sent + |moved|
      decreases |start| - |moved|
    {
      TakenNext(start, moved, q, sendQueue.Contents());
      sent' := sent' + 1;
      moved := moved + [q];
      q := PassOn(sendQueue, pool, q);
    }
  }

  /** One loop of setup_server_prealloc: `count` nodes are put on a queue, or as
      many as the allocator has memory for. */
  method Prealloc(root: QueueRoot, count: nat, memory: nat) returns (ok: bool, ghost nodes: seq<QueueHead>)
    requires root.Valid()
    modifies root, root.Nodes()
    ensures root.Valid() && root.Contents() == old(root.Contents()) + nodes
    ensures ok <==> count <= memory
    ensures |nodes| == if count <= memory then count else memory
    ensures Distinct(nodes) && fresh(root.Nodes() - old(root.Nodes())) && forall n :: n in nodes ==> fresh(n)
  {
    nodes := [];
    for i := 0 to count
      invariant root.Valid() && root.Contents() == old(root.Contents()) + nodes
      invariant |nodes| == i <= memory
      invariant Distinct(nodes) && forall n :: n in nodes ==> fresh(n) && n in root.chain
      invariant fresh(root.Nodes() - old(root.Nodes()))
    {
      if i == memory {
        return false, nodes;
      }
      var n := new QueueHead();
      root.Put(n);
      nodes := nodes + [n];
    }
    ok := true;
  }

  /** Set up and torn down with nothing in between, a pool frees every node it
      was given, once, in the order of allocation. */
  method SetupAndFree(count: nat, memory: nat) returns (ok: bool, freed: seq<QueueHead>)
    ensures Distinct(freed) && |freed| == if count <= memory then count else memory
    ensures ok <==> |freed| == count
  {
    var root := new QueueRoot();
    ghost var nodes;
    ok, nodes := Prealloc(root, count, memory);
    freed := root.DrainAll();
    assert freed == nodes;
  }
}
