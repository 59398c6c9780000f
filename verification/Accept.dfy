/** The accept thread (src/server/io/accept.c): a connection from the pool is
    reset and dealt to the threads in turn. The submit and compute indices are
    read after the counter has moved on, the IO index before.
 */
module AcceptWorker {
  import opened Rpc
  import opened Epoll
  import S = SessionProtocol

  datatype Threads = Threads(io: nat, submit: nat, compute: nat)

  datatype Assignment = Assignment(io: nat, submit: nat, compute: nat)

  /** struct server_connection_t. */
  class Connection {
    var ioidx: nat
    var computeidx: nat
    var submitidx: nat
    var received: nat
    var processed: nat
    var sent: nat
    var closed: bool
    var lock: bool
    var epoll: Interest
    var kernel: Registration
    var recvbuf: Option<nat>
    var sendbuf: Option<nat>
    var sendQueue: seq<S.Item>
    ghost var hist: S.History

    ghost function Abs(): S.Conn
      reads this
    {
      S.Conn(ioidx, computeidx, submitidx, received, processed, sent, closed, lock, epoll, kernel,
             recvbuf, sendbuf, hist)
    }

    /** The fields as accept leaves them. sendbuf is not among them. */
    method Reset(ioidx: nat, computeidx: nat, submitidx: nat)
      modifies this
      ensures Abs() == S.Conn(ioidx, computeidx, submitidx, 0, 0, 0, false, false, EPOLLIN, Some(EPOLLIN),
                              None, old(sendbuf), S.NO_HISTORY)
      ensures sendQueue == [] && sendbuf == old(sendbuf)
    {
      sent, received, processed := 0, 0, 0;
      this.ioidx, this.submitidx, this.computeidx := ioidx, submitidx, computeidx;
      sendQueue := [];
      recvbuf := None;
      closed := false;
      lock := false;
      hist := S.NO_HISTORY;
      epoll, kernel := NO_INTEREST, None;
      Register();
    }

    /** epoll_set_conn_state on a new descriptor: ADD. */
    method Register()
      requires epoll == NO_INTEREST && kernel == None
      modifies this`epoll, this`kernel
      ensures epoll == EPOLLIN && kernel == Some(EPOLLIN)
    {
      kernel := KernelAfter(epoll, kernel, EPOLLIN);
      epoll := EPOLLIN;
    }
  }

  lemma AcceptedIs(k: S.Conn, i: nat, c: nat, n: nat)
    ensures S.Accepted(k, i, c, n) ==
            S.Conn(i, c, n, 0, 0, 0, false, false, EPOLLIN, Some(EPOLLIN), None, k.sendbuf, S.NO_HISTORY)
  {
  }

  datatype AcceptResult = NoConnection | Failed | Served(conn: Connection)

  class Acceptor {
    var next: nat
    var pool: seq<Connection>
    const threads: Threads

    constructor (threads: Threads)
      ensures this.threads == threads && next == 0 && pool == []
    {
      this.threads := threads;
      next := 0;
      pool := [];
    }

    /** handle_accept; `fd` says whether accept gave a descriptor. With no
        connection in the pool nothing changes. When accept fails, the connection
        that was taken is in no queue any more. Otherwise the first one enters
        service as the protocol's AcceptServe has it: everything reset but
        sendbuf. */
    method HandleAccept(fd: bool) returns (r: AcceptResult)
      requires threads.io > 0 && threads.submit > 0 && threads.compute > 0
      modifies this, pool
      ensures r.NoConnection? <==> old(pool) == []
      ensures r.NoConnection? ==> pool == [] && next == old(next)
      ensures !r.NoConnection? ==> pool == old(pool)[1..] && (r.Served? <==> fd)
      ensures r.Failed? ==> next == old(next)
      ensures r.Served? ==>
                var (c, a) := (r.conn, Dealt(threads, old(next)));
                c == old(pool)[0] && next == old(next) + 1 && c.sendQueue == [] &&
                c.Abs() == S.Accepted(old(pool[0].Abs()), a.io, a.compute, a.submit)
      ensures forall c :: c in old(pool) && r != Served(c) ==> c.Abs() == old(c.Abs())
    {
      hide S.Accepted;
      if pool == [] {
        return NoConnection;
      }
      var c := pool[0];
      pool := pool[1..];
      if !fd {
        return Failed;
      }
      var ioidx := next % threads.io;
      next := next + 1;
      AcceptedIs(c.Abs(), ioidx, next % threads.compute, next % threads.submit);
      c.Reset(ioidx, next % threads.compute, next % threads.submit);
      r := Served(c);
    }
  }

  /** Where the k-th accepted connection goes. */
  function Dealt(t: Threads, k: nat): Assignment
    requires t.io > 0 && t.submit > 0 && t.compute > 0
  {
    Assignment(k % t.io, (k + 1) % t.submit, (k + 1) % t.compute)
  }

  // ---------------------------------------------------------------- balance

  /** How many of the n numbers from `start` on leave i when divided by nr. */
  function Hits(start: nat, n: nat, nr: nat, i: nat): nat
    requires nr > 0
  {
    if n == 0 then 0 else Hits(start, n - 1, nr, i) + (if (start + n - 1) % nr == i then 1 else 0)
  }

  /** Hits below m, in closed form. */
  function Below(m: nat, nr: nat, i: nat): nat
    requires i < nr
  {
    (m + nr - 1 - i) / nr
  }

  lemma {:induction false} Multiple(d: int, nr: nat)
    ensures d >= 1 ==> d * nr >= nr
    ensures d <= -1 ==> -(d * nr) >= nr
  {
  }

  lemma {:induction false} QuotientIs(x: int, nr: nat, q: int)
    requires nr > 0 && q * nr <= x < q * nr + nr
    ensures x / nr == q
  {
    var d := x / nr - q;
    assert x == nr * (x / nr) + x % nr;
    assert d * nr == x - q * nr - x % nr;
    Multiple(d, nr);
  }

  lemma {:induction false} SmallQuotient(x: nat, nr: nat)
    requires nr > 0 && x <= nr
    ensures x / nr == (if x == nr then 1 else 0) && x % nr == (if x == nr then 0 else x)
  {
    QuotientIs(x, nr, if x == nr then 1 else 0);
  }

  lemma {:induction false} BelowStep(m: nat, nr: nat, i: nat)
    requires i < nr
    ensures Below(m + 1, nr, i) == Below(m, nr, i) + (if m % nr == i then 1 else 0)
  {
    QuotientOfSum(m, nr - 1 - i, nr);
    SmallQuotient(nr - 1 - i, nr);
    QuotientOfSum(m, nr - i, nr);
    SmallQuotient(nr - i, nr);
  }

  lemma {:induction false} HitsAreBelow(start: nat, n: nat, nr: nat, i: nat)
    requires i < nr
    ensures Hits(start, n, nr, i) == Below(start + n, nr, i) - Below(start, nr, i)
  {
    if n > 0 {
      HitsAreBelow(start, n - 1, nr, i);
      BelowStep(start + n - 1, nr, i);
    }
  }

  lemma Distribute(x: int, y: int, nr: int)
    ensures (x + y) * nr == x * nr + y * nr
  {
  }

  lemma {:induction false} RoundedUp(b: nat, nr: nat)
    requires nr > 0
    ensures (b + nr - 1) / nr == b / nr + (if b % nr == 0 then 0 else 1)
  {
    Distribute(b / nr, 1, nr);
    QuotientIs(b + nr - 1, nr, b / nr + (if b % nr == 0 then 0 else 1));
  }

  lemma {:induction false} QuotientOfSum(a: nat, b: nat, nr: nat)
    requires nr > 0
    ensures (a + b) / nr == a / nr + b / nr + (if a % nr + b % nr < nr then 0 else 1)
  {
    Distribute(a / nr, b / nr, nr);
    Distribute(a / nr + b / nr, 1, nr);
    QuotientIs(a + b, nr, a / nr + b / nr + (if a % nr + b % nr < nr then 0 else 1));
  }

  /** A difference of two rounded quotients is the rounded quotient of the
      difference, down or up. */
  lemma {:induction false} RoundedDifference(a: nat, b: nat, nr: nat)
    requires nr > 0
    ensures b / nr <= (a + b) / nr - a / nr <= (b + nr - 1) / nr
  {
    QuotientOfSum(a, b, nr);
    RoundedUp(b, nr);
  }

  /** Any n consecutive numbers, dealt to nr hands, give each hand n / nr of
      them, rounded down or up, wherever the dealing starts. */
  lemma {:induction false} Balanced(start: nat, n: nat, nr: nat, i: nat)
    requires i < nr
    ensures n / nr <= Hits(start, n, nr, i) <= (n + nr - 1) / nr
  {
    HitsAreBelow(start, n, nr, i);
    RoundedDifference(start + nr - 1 - i, n, nr);
  }

  datatype Loads = Loads(io: nat, submit: nat, compute: nat)

  /** What the i-th thread of each kind has been given. */
  function Given(t: Threads, dealt: seq<Assignment>, i: nat): Loads {
    if dealt == [] then Loads(0, 0, 0)
    else
      var before := Given(t, dealt[..|dealt| - 1], i);
      var a := dealt[|dealt| - 1];
      Loads(before.io + (if a.io == i then 1 else 0),
            before.submit + (if a.submit == i then 1 else 0),
            before.compute + (if a.compute == i then 1 else 0))
  }

  lemma {:induction false} GivenHits(t: Threads, dealt: seq<Assignment>, i: nat)
    requires t.io > 0 && t.submit > 0 && t.compute > 0
    requires forall k :: 0 <= k < |dealt| ==> dealt[k] == Dealt(t, k)
    ensures Given(t, dealt, i) ==
            Loads(Hits(0, |dealt|, t.io, i), Hits(1, |dealt|, t.submit, i), Hits(1, |dealt|, t.compute, i))
  {
    if dealt != [] {
      GivenHits(t, dealt[..|dealt| - 1], i);
    }
  }

  predicate Fair(load: nat, n: nat, nr: nat)
    requires nr > 0
  {
    n / nr <= load <= (n + nr - 1) / nr
  }

  /** Every IO, submit and compute thread has its share of the connections dealt,
      rounded down or up. */
  ghost predicate AllFair(t: Threads, dealt: seq<Assignment>)
    requires t.io > 0 && t.submit > 0 && t.compute > 0
  {
    && (forall i :: 0 <= i < t.io ==> Fair(Given(t, dealt, i).io, |dealt|, t.io))
    && (forall i :: 0 <= i < t.submit ==> Fair(Given(t, dealt, i).submit, |dealt|, t.submit))
    && (forall i :: 0 <= i < t.compute ==> Fair(Given(t, dealt, i).compute, |dealt|, t.compute))
  }

  lemma {:induction false} DealtFairly(t: Threads, dealt: seq<Assignment>)
    requires t.io > 0 && t.submit > 0 && t.compute > 0
    requires forall k :: 0 <= k < |dealt| ==> dealt[k] == Dealt(t, k)
    ensures AllFair(t, dealt)
  {
    hide Hits, Given;
    var n := |dealt|;
    forall i | 0 <= i < t.io ensures Fair(Given(t, dealt, i).io, n, t.io) {
      GivenHits(t, dealt, i);
      Balanced(0, n, t.io, i);
    }
    forall i | 0 <= i < t.submit ensures Fair(Given(t, dealt, i).submit, n, t.submit) {
      GivenHits(t, dealt, i);
      Balanced(1, n, t.submit, i);
    }
    forall i | 0 <= i < t.compute ensures Fair(Given(t, dealt, i).compute, n, t.compute) {
      GivenHits(t, dealt, i);
      Balanced(1, n, t.compute, i);
    }
  }

  /** The size of the pool, and the number of connections served, after a sequence
      of accept events: one takes a connection if there is one, and serves it if
      accept gives a descriptor. */
  function Tally(free: nat, released: seq<seq<Connection>>, fds: seq<bool>): (nat, nat)
    requires |fds| == |released|
    decreases |released|
  {
    if released == [] then (free, 0)
    else
      var n := |released| - 1;
      var (left, served) := Tally(free, released[..n], fds[..n]);
      if left + |released[n]| == 0 then (0, served)
      else (left + |released[n]| - 1, served + (if fds[n] then 1 else 0))
  }

  ghost function AllOf(batches: seq<seq<Connection>>): set<Connection> {
    set j, c | 0 <= j < |batches| && c in batches[j] :: c
  }

  /** Any sequence of accept events. Before the j-th, other threads have put the
      connections of released[j] back in the pool, and fds[j] says whether accept
      gives a descriptor. However often connections come back, each thread's share
      of those served is fair after every one of them. */
  method AcceptMany(acceptor: Acceptor, released: seq<seq<Connection>>, fds: seq<bool>) returns (dealt: seq<Assignment>)
    requires acceptor.next == 0 && |fds| == |released|
    requires acceptor.threads.io > 0 && acceptor.threads.submit > 0 && acceptor.threads.compute > 0
    modifies acceptor, acceptor.pool, AllOf(released)
    ensures acceptor.next == |dealt|
    ensures (|acceptor.pool|, |dealt|) == Tally(old(|acceptor.pool|), released, fds)
    ensures forall k :: 0 <= k < |dealt| ==> dealt[k] == Dealt(acceptor.threads, k)
    ensures forall n :: 0 <= n <= |dealt| ==> AllFair(acceptor.threads, dealt[..n])
  {
    var t := acceptor.threads;
    dealt := [];
    for j := 0 to |released|
      invariant |dealt| == acceptor.next
      invariant (|acceptor.pool|, |dealt|) == Tally(old(|acceptor.pool|), released[..j], fds[..j])
      invariant forall c :: c in acceptor.pool ==> c in old(acceptor.pool) || c in AllOf(released)
      invariant forall k :: 0 <= k < |dealt| ==> dealt[k] == Dealt(t, k)
    {
      assert forall c :: c in released[j] ==> c in AllOf(released);
      assert released[..j + 1][..j] == released[..j] && fds[..j + 1][..j] == fds[..j];
      acceptor.pool := acceptor.pool + released[j];
      var r := acceptor.HandleAccept(fds[j]);
      if r.Served? {
        dealt := dealt + [Assignment(r.conn.ioidx, r.conn.submitidx, r.conn.computeidx)];
      }
    }
    assert released[..|released|] == released && fds[..|fds|] == fds;
    forall n | 0 <= n <= |dealt| ensures AllFair(t, dealt[..n]) {
      DealtFairly(t, dealt[..n]);
    }
  }
}
