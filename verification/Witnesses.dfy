/** Runs of a server with one connection and one thread of each kind, in which
    every buffer that is asked for is had, and what they come to: an answer out
    of order, a connection lost, a connection taken with a stale sendbuf, an
    event that goes on after its connection is finished.
 */
module Witnesses {
  import opened Rpc
  import opened Epoll
  import opened SessionProtocol
  import opened OneConnection
  import M = ServerMachine
  import V = ServerView
  import R = ServerTheorems
  import I = SessionInvariant
  import H = SessionHistory
  import T = SessionTheorems
  import Y = Hypotheses

  // ---------------------------------------------------------------- the start

  function Buffers(n: nat): map<nat, M.Buffer> {
    if n == 0 then map[] else Buffers(n - 1)[n - 1 := M.Buffer(0, [], [], 0)]
  }

  lemma {:induction false} BuffersCount(n: nat)
    ensures |Buffers(n)| == n && forall b :: b in Buffers(n) <==> 0 <= b < n
  {
    if n > 0 {
      BuffersCount(n - 1);
    }
  }

  /** setup_server_prealloc with one session and n buffers. */
  function Prealloc(n: nat): M.Server {
    M.Server(
      map[M.Pool := seq(n, i => i)], Buffers(n),
      map[0 := Conn(0, 0, 0, 0, 0, 0, false, false, NO_INTEREST, None, None, None, NO_HISTORY)],
      [0], None, map[], map[], map[])
  }

  lemma PreallocSize(n: nat)
    ensures M.Initial(Prealloc(n)) && |Prealloc(n).bufs| == n
  {
    BuffersCount(n);
    var q := M.At(Prealloc(n), M.Pool);
    forall b: nat ensures b in q <==> b in Buffers(n) {
      if b < n { assert q[b] == b; }
    }
    assert forall c :: c in Prealloc(n).conns <==> c in Prealloc(n).free;
  }

  /** The connection on the free list, never used. */
  function Unused(): Session {
    Session(Conn(0, 0, 0, 0, 0, 0, false, false, NO_INTEREST, None, None, None, NO_HISTORY),
            [], [], [], [], [], [], [], [], IoIdle, CompIdle, SubIdle, 1, false)
  }

  lemma UnusedRealized(cfg: Config)
    ensures Realized(cfg, Unused())
  {
    hide V.Q, M.Initial;
    var s := Prealloc(cfg.readahead + 1);
    PreallocSize(cfg.readahead + 1);
    R.NothingOut(s, 0);
    assert R.Run(cfg, [s], []);
    assert multiset(s.free)[0] == 1;
    assert RealizedBy(cfg, s, Unused());
  }

  lemma {:induction false} FreshRealized(cfg: Config)
    requires ValidConfig(cfg)
    ensures Realized(cfg, Y.Fresh())
  {
    hide Realized;
    UnusedRealized(cfg);
    var w := Go(cfg, Unused(), AcceptTake);
    w := Go(cfg, w, AcceptServe(0, 0, 0));
  }

  // ---------------------------------------------------------------- stages of a request

  /** The IO thread waits; handle_request has left recvbuf NULL, for want of head
      room, or with nothing received. */
  predicate Ready(cfg: Config, v: Session) {
    && v.io == IoIdle && v.conn.kernel == Some(v.conn.epoll) && v.conn.epoll.rd && v.send == [] && v.iohand == []
    && v.recv == (if v.conn.recvbuf.Some? then [Item(v.conn.recvbuf.value, [], [], REQUEST_SIZE)] else [])
    && (v.conn.recvbuf.Some? <==> !TooFarAhead(cfg, v.conn))
  }

  /** A whole request arrives, in as many pieces as max_io_size makes of it, and
      waits for the lock. The first one finds recvbuf NULL, as accept left it. */
  lemma {:induction false} Receive(cfg: Config, v: Session, msg: Bytes) returns (w: Session, it: Item)
    requires ValidConfig(cfg) && Realized(cfg, v) && !TooFarAhead(cfg, v.conn)
    requires Ready(cfg, v) || v == Y.Fresh()
    requires |msg| == REQUEST_SIZE
    ensures Realized(cfg, w) && it == Item(it.id, msg, [], 0)
    ensures w == v.(io := ReqLock, recv := [it],
                    conn := v.conn.(recvbuf := Some(it.id), hist := v.conn.hist.(rx := v.conn.hist.rx + msg)))
  {
    hide Realized;
    w := Go(cfg, v, IoEvent(false, false, true));
    var id: nat;
    if v.conn.recvbuf.Some? {
      id := v.conn.recvbuf.value;
      w := Go(cfg, w, IoReqTop(None));
    } else {
      w, id := Ask(cfg, w);
    }
    it := Item(id, msg, [], 0);
    w := ReceiveRest(cfg, w, id, [], msg);
    assert [] + msg == msg;
  }

  lemma {:induction false} ReceiveRest(cfg: Config, v: Session, id: nat, got: Bytes, rest: Bytes) returns (w: Session)
    requires ValidConfig(cfg) && Realized(cfg, v) && v.io == ReqRecv && v.conn.recvbuf == Some(id)
    requires v.recv == [Item(id, got, [], |rest|)] && rest != []
    ensures Realized(cfg, w)
    ensures w == v.(io := ReqLock, recv := [Item(id, got + rest, [], 0)],
                    conn := v.conn.(hist := v.conn.hist.(rx := v.conn.hist.rx + rest)))
    decreases |rest|
  {
    hide Realized;
    var n := Min(|rest|, cfg.maxIoSize);
    w := Go(cfg, v, IoRecv(rest[..n]));
    assert rest[..n] + rest[n..] == rest;
    assert got + rest[..n] + rest[n..] == got + rest;
    assert v.conn.hist.rx + rest[..n] + rest[n..] == v.conn.hist.rx + rest;
    if n == |rest| {
      assert rest[..n] == rest;
    } else {
      w := Go(cfg, w, IoReqTop(None));
      w := ReceiveRest(cfg, w, id, got + rest[..n], rest[n..]);
    }
  }

  /** With the lock, it is handed over; then the loop goes round once more, to
      the end of the head room or of what there is to receive. */
  lemma {:induction false} HandOver(cfg: Config, v: Session, it: Item) returns (w: Session)
    requires ValidConfig(cfg) && Realized(cfg, v) && v.io == ReqCount && v.conn.lock && v.recv == [it] && v.send == []
    requires v.conn.kernel == Some(v.conn.epoll) && v.conn.epoll.rd
    ensures Realized(cfg, w) && Ready(cfg, w)
    ensures w == v.(io := IoIdle, recv := w.recv, iohand := [], cin := v.cin + [it],
                    conn := v.conn.(lock := false, recvbuf := w.conn.recvbuf, received := v.conn.received + 1,
                                    hist := v.conn.hist.(delivered := v.conn.hist.delivered + [it.req])))
  {
    hide Realized, Sub64, Wrap64;
    w := PassOn(cfg, v, it);
    w := Rest(cfg, w);
  }

  lemma {:induction false} PassOn(cfg: Config, v: Session, it: Item) returns (w: Session)
    requires ValidConfig(cfg) && Realized(cfg, v) && v.io == ReqCount && v.recv == [it]
    ensures Realized(cfg, w)
    ensures w == v.(io := ReqTop, recv := [], iohand := [], cin := v.cin + [it],
                    conn := v.conn.(lock := false, recvbuf := None, received := v.conn.received + 1,
                                    hist := v.conn.hist.(delivered := v.conn.hist.delivered + [it.req])))
  {
    hide Realized, Wrap64;
    w := Go(cfg, v, IoStep);
    w := Go(cfg, w, IoStep);
    w := Go(cfg, w, IoStep);
  }

  lemma {:induction false} Rest(cfg: Config, v: Session) returns (w: Session)
    requires ValidConfig(cfg) && Realized(cfg, v) && v.io == ReqTop && v.conn.recvbuf.None? && v.recv == []
    ensures Realized(cfg, w)
    ensures w == v.(io := IoIdle, recv := w.recv, conn := v.conn.(recvbuf := w.conn.recvbuf))
    ensures w.recv == if w.conn.recvbuf.Some? then [Item(w.conn.recvbuf.value, [], [], REQUEST_SIZE)] else []
    ensures w.conn.recvbuf.Some? <==> !TooFarAhead(cfg, w.conn)
  {
    hide Realized;
    if TooFarAhead(cfg, v.conn) {
      w := Go(cfg, v, IoReqTop(None));
    } else {
      var id;
      w, id := Ask(cfg, v);
      w := Go(cfg, w, IoRecvAgain);
    }
  }

  lemma {:induction false} Compute(cfg: Config, v: Session, it: Item) returns (w: Session)
    requires ValidConfig(cfg) && Realized(cfg, v) && v.comp == CompIdle && v.cin == [it] && v.chand == []
    ensures Realized(cfg, w)
    ensures w == v.(cin := [], sin := v.sin + [it.(res := Respond(cfg, it.req))])
  {
    hide Realized;
    w := Go(cfg, v, CompTake);
    w := Go(cfg, w, CompStep);
    w := Go(cfg, w, CompStep);
  }

  lemma {:induction false} Submit(cfg: Config, v: Session, it: Item, rest: seq<Item>) returns (w: Session)
    requires ValidConfig(cfg) && Realized(cfg, v) && v.sub == SubIdle && v.sin == [it] + rest && v.shand == []
    requires !v.conn.lock && !v.conn.closed && v.conn.kernel == Some(v.conn.epoll) && v.conn.epoll.rd
    ensures Realized(cfg, w)
    ensures w == v.(sin := rest, sendq := v.sendq + [it],
                    conn := v.conn.(processed := v.conn.processed + 1,
                                    epoll := Interest(true, true), kernel := Some(Interest(true, true))))
  {
    hide Realized;
    w := Go(cfg, v, SubTake);
    w := Go(cfg, w, SubStep);
    w := Go(cfg, w, SubStep);
    w := Go(cfg, w, SubStep);
    w := Go(cfg, w, SubStep);
    w := Go(cfg, w, SubStep);
  }

  /** One request, received and with the submitter done. */
  lemma {:induction false} Answered(cfg: Config, msg: Bytes) returns (w: Session, it: Item)
    requires ValidConfig(cfg) && |msg| == REQUEST_SIZE
    ensures Realized(cfg, w) && Ready(cfg, w) && it == Item(it.id, msg, Respond(cfg, msg), 0)
    ensures w == Y.Fresh().(recv := w.recv, sendq := [it],
                            conn := Y.Fresh().conn.(received := 1, processed := 1, recvbuf := w.conn.recvbuf,
                                                    epoll := Interest(true, true), kernel := Some(Interest(true, true)),
                                                    hist := History(msg, [], [msg], [], false)))
  {
    hide Realized, Respond;
    FreshRealized(cfg);
    w, it := Receive(cfg, Y.Fresh(), msg);
    w := Go(cfg, w, IoStep);
    w := HandOver(cfg, w, it);
    w := Compute(cfg, w, it);
    it := it.(res := Respond(cfg, msg));
    w := Submit(cfg, w, it, []);
    assert [] + msg == msg;
  }

  // ---------------------------------------------------------------- a finish within handle_response

  /** The first send fails, and the finish comes to its last step: it leaves the
      connection to the submitter. */
  lemma {:induction false} FinishInSend(cfg: Config, v: Session, it: Item, more: bool) returns (w: Session)
    requires ValidConfig(cfg) && Realized(cfg, v) && Ready(cfg, v) && v.conn.epoll.wr && v.sendq == [it]
    requires v.conn.sendbuf.None? && !v.conn.lock && v.conn.sent == 0 && 0 < v.conn.received < TWO_64
    ensures Realized(cfg, w)
    ensures w == v.(io := FinUnlock(more), sendq := [], recv := [],
                    conn := v.conn.(sendbuf := Some(it.id), kernel := None, closed := true, lock := true))
  {
    hide Realized;
    w := Go(cfg, v, IoEvent(false, true, more));
    w := Go(cfg, w, IoStep);
    w := Go(cfg, w, IoSendFail);
    w := Go(cfg, w, IoStep);
    w := Delegate(cfg, w);
  }

  lemma {:induction false} Delegate(cfg: Config, v: Session) returns (w: Session)
    requires ValidConfig(cfg) && Realized(cfg, v) && v.io.FinSend? && v.conn.lock && v.sendq == []
    requires v.conn.sent == 0 && 0 < v.conn.received < TWO_64
    ensures Realized(cfg, w)
    ensures w == v.(io := FinUnlock(v.io.more), send := [], recv := [],
                    conn := v.conn.(kernel := None, closed := true))
  {
    hide Realized;
    w := GiveBack(cfg, v);
    w := Go(cfg, w, IoStep);
    w := Go(cfg, w, IoStep);
  }

  lemma {:induction false} GiveBack(cfg: Config, v: Session) returns (w: Session)
    requires ValidConfig(cfg) && Realized(cfg, v) && v.io.FinSend?
    ensures Realized(cfg, w)
    ensures w == v.(io := FinDrain(v.io.more), send := [], recv := [], conn := v.conn.(kernel := None))
  {
    hide Realized;
    w := Go(cfg, v, IoStep);
    w := Go(cfg, w, IoStep);
    w := Go(cfg, w, IoStep);
  }

  /** A run of the server leads to the state s, and to the connection's w. */
  ghost predicate Leads(cfg: Config, s: M.Server, w: Session) {
    Started(cfg, s) && One(s) && V.View(s, 0) == w
  }

  lemma Led(cfg: Config, w: Session) returns (s: M.Server)
    requires Realized(cfg, w)
    ensures Leads(cfg, s, w)
  {
    hide Started, V.View;
    var r :| RealizedBy(cfg, r, w);
    s := r;
  }

  /** A request comes in and is answered, the answer is put in sendbuf, and the
      send fails: `sent` is one short of `received` and nothing is in flight. The
      connection can take no step any more. */
  lemma {:induction false} ConnectionLost(cfg: Config, msg: Bytes) returns (s: M.Server, w: Session)
    requires ValidConfig(cfg) && |msg| == REQUEST_SIZE
    ensures Leads(cfg, s, w) && I.Quiet(w) && I.Stranded(w) && w.nfree == 0
    ensures forall a :: Next(cfg, w, a).None?
  {
    hide Realized, Respond, Leads, Started;
    var it;
    w, it := Answered(cfg, msg);
    w := FinishInSend(cfg, w, it, false);
    w := Go(cfg, w, IoStep);
    s := Led(cfg, w);
    SessionReached(cfg, s, w);
    forall a ensures Next(cfg, w, a).None? { T.StrandedForever(cfg, w, a); }
  }

  lemma SessionReached(cfg: Config, s: M.Server, w: Session)
    requires ValidConfig(cfg) && Leads(cfg, s, w)
    ensures T.Reachable(cfg, w)
  {
    hide R.Reachable, Started, V.View, T.Reachable;
    StartedReachable(cfg, s);
    R.EveryConnection(cfg, s, 0);
  }

  /** The same failure in an event that has EPOLLIN as well: the next step goes on
      to handle_request. With head room, recvbuf is set. */
  lemma {:induction false} StraysIntoRequest(cfg: Config, msg: Bytes) returns (s: M.Server, w: Session)
    requires ValidConfig(cfg) && |msg| == REQUEST_SIZE
    ensures Leads(cfg, s, w) && w.io == FinUnlock(true) && w.conn.sendbuf.Some?
    ensures w.conn.recvbuf.Some? <==> cfg.readahead >= 1
  {
    hide Realized, Respond, Leads;
    var it;
    w, it := Answered(cfg, msg);
    w := FinishInSend(cfg, w, it, true);
    s := Led(cfg, w);
  }

  // ---------------------------------------------------------------- a stale sendbuf

  /** Two requests come in, the answer to the first fails while it is in sendbuf,
      and the submitter releases the connection when the second is through. It is
      taken for the next client with sendbuf set. */
  lemma {:induction false} StaleReuse(cfg: Config, a: Bytes, b: Bytes) returns (s: M.Server, w: Session)
    requires ValidConfig(cfg) && cfg.readahead >= 1 && |a| == |b| == REQUEST_SIZE
    ensures Leads(cfg, s, w) && w.accepting && w.conn.sendbuf.Some?
  {
    hide Realized, Respond, Leads;
    var x, y;
    w, x := Answered(cfg, a);
    w, y := Receive(cfg, w, b);
    w := Go(cfg, w, IoStep);
    w := HandOver(cfg, w, y);
    w := FinishInSend(cfg, w, x, false);
    w := Go(cfg, w, IoStep);
    w := Compute(cfg, w, y);
    w := DisposeLast(cfg, w, y.(res := Respond(cfg, b)));
    w := Go(cfg, w, AcceptTake);
    s := Led(cfg, w);
  }

  lemma {:induction false} DisposeLast(cfg: Config, v: Session, it: Item) returns (w: Session)
    requires ValidConfig(cfg) && Realized(cfg, v) && v.sub == SubIdle && v.sin == [it] && v.shand == []
    requires v.conn.closed && !v.conn.lock && v.conn.processed + 1 == v.conn.received
    ensures Realized(cfg, w)
    ensures w == v.(sin := [], nfree := v.nfree + 1, conn := v.conn.(processed := v.conn.processed + 1))
  {
    hide Realized;
    w := Go(cfg, v, SubTake);
    w := Go(cfg, w, SubStep);
    w := Go(cfg, w, SubStep);
    w := Go(cfg, w, SubStep);
    w := Go(cfg, w, SubStep);
    w := Go(cfg, w, SubStep);
    w := Go(cfg, w, SubStep);
  }

  // ---------------------------------------------------------------- the order of the answers

  /** With room for two requests, a submitter that finds the lock held sends the
      first one to the back of its inbox, behind the second: the second is
      answered first. */
  lemma {:induction false} OrderLost(cfg: Config, a: Bytes, b: Bytes) returns (s: M.Server, w: Session)
    requires ValidConfig(cfg) && cfg.readahead >= 1
    requires |a| == |b| == REQUEST_SIZE && a != b
    ensures Leads(cfg, s, w) && I.Serving(w)
    ensures w.conn.hist.delivered == [a, b] && H.Reqs(w.conn.hist.answered) == [b]
    ensures w.conn.hist.tx == Respond(cfg, b)
  {
    hide Realized, Respond, Leads;
    FreshRealized(cfg);
    var x, y;
    w, x := Receive(cfg, Y.Fresh(), a);
    w := Go(cfg, w, IoStep);
    w := HandOver(cfg, w, x);
    w := Compute(cfg, w, x);
    x := x.(res := Respond(cfg, a));
    w, y := Receive(cfg, w, b);
    w := Go(cfg, w, IoStep);     // the IO thread has the lock
    w := Overtake(cfg, w, x, y);
    y := y.(res := Respond(cfg, b));
    w := Submit(cfg, w, y, [x]);
    H.ReplySize(cfg, y);
    w := SendWhole(cfg, w, y);
    s := Led(cfg, w);
  }

  /** The submitter takes the first buffer, finds the lock held, and puts it back
      behind one that has come in meanwhile. */
  lemma {:induction false} Overtake(cfg: Config, v: Session, x: Item, y: Item) returns (w: Session)
    requires ValidConfig(cfg) && Realized(cfg, v) && v.io == ReqCount && v.conn.lock && v.recv == [y] && v.send == []
    requires v.conn.kernel == Some(v.conn.epoll) && v.conn.epoll.rd && v.iohand == []
    requires v.comp == CompIdle && v.cin == [] && v.chand == []
    requires v.sub == SubIdle && v.sin == [x] && v.shand == []
    ensures Realized(cfg, w) && Ready(cfg, w)
    ensures w == v.(io := IoIdle, recv := w.recv, sin := [y.(res := Respond(cfg, y.req)), x],
                    conn := v.conn.(lock := false, recvbuf := w.conn.recvbuf, received := v.conn.received + 1,
                                    hist := v.conn.hist.(delivered := v.conn.hist.delivered + [y.req],
                                                         recycled := true)))
  {
    hide Realized, Respond;
    w := Go(cfg, v, SubTake);
    w := Go(cfg, w, SubStep);
    w := HandOver(cfg, w, y);
    w := Compute(cfg, w, y);
    w := Go(cfg, w, SubStep);
  }

  lemma {:induction false} SendWhole(cfg: Config, v: Session, it: Item) returns (w: Session)
    requires ValidConfig(cfg) && Realized(cfg, v) && Ready(cfg, v) && v.conn.epoll.wr
    requires v.sendq != [] && v.sendq[0] == it && v.conn.sendbuf.None? && |it.res| == RESPONSE_SIZE
    ensures Realized(cfg, w)
    ensures w == v.(io := RespPut(false), sendq := v.sendq[1..], iohand := [it.(left := 0)],
                    conn := v.conn.(sent := v.conn.sent + 1, sendbuf := None,
                                    hist := v.conn.hist.(tx := v.conn.hist.tx + it.res,
                                                         answered := v.conn.hist.answered + [it.(left := 0)])))
  {
    hide Realized;
    w := Go(cfg, v, IoEvent(false, true, false));
    w := Go(cfg, w, IoStep);
    w := SendRest(cfg, w, it.(left := RESPONSE_SIZE));
    assert it.res[0..] == it.res;
  }

  lemma {:induction false} SendRest(cfg: Config, v: Session, it: Item) returns (w: Session)
    requires ValidConfig(cfg) && Realized(cfg, v) && v.io == RespSend(false) && v.conn.sendbuf.Some?
    requires v.send == [it] && 0 < it.left <= |it.res|
    ensures Realized(cfg, w)
    ensures w == v.(io := RespPut(false), send := [], iohand := [it.(left := 0)],
                    conn := v.conn.(sent := v.conn.sent + 1, sendbuf := None,
                                    hist := v.conn.hist.(tx := v.conn.hist.tx + it.res[|it.res| - it.left..],
                                                         answered := v.conn.hist.answered + [it.(left := 0)])))
    decreases it.left
  {
    hide Realized, SentSlice;
    var n := IoSize(cfg, it);
    w := Go(cfg, v, IoSend(n));
    Slices(v.conn.hist.tx, it, n);
    if n < it.left {
      w := Go(cfg, w, IoStep);
      w := SendRest(cfg, w, it.(left := it.left - n));
    }
  }

  lemma Slices(tx: Bytes, it: Item, n: nat)
    requires n <= it.left <= |it.res|
    ensures tx + SentSlice(it, n) + it.res[|it.res| - it.left + n..] == tx + it.res[|it.res| - it.left..]
    ensures n == it.left ==> SentSlice(it, n) == it.res[|it.res| - it.left..]
  {
    var from := |it.res| - it.left;
    assert it.res[from..from + n] + it.res[from + n..] == it.res[from..];
  }

  // ---------------------------------------------------------------- when the order is safe

  /** Over all runs of the server, trylock failures included, the responses go out
      in the order of the requests if and only if readahead is zero. */
  lemma {:induction false} OrderIffNoReadahead(cfg: Config)
    requires ValidConfig(cfg)
    ensures (forall s, c :: R.Reachable(cfg, s) && c in s.conns ==> Y.InOrder(V.View(s, c))) <==> cfg.readahead == 0
  {
    hide R.Reachable, Started, V.View, T.Reachable;
    if cfg.readahead == 0 {
      forall s, c | R.Reachable(cfg, s) && c in s.conns ensures Y.InOrder(V.View(s, c)) {
        R.EveryConnection(cfg, s, c);
        Y.OneAtATime(cfg, V.View(s, c));
      }
    } else {
      var a := seq(REQUEST_SIZE, _ => 0);
      var b := seq(REQUEST_SIZE, _ => 1);
      assert a[0] != b[0];
      var s, w := OrderLost(cfg, a, b);
      assert H.Reqs(w.conn.hist.answered)[0] == b != w.conn.hist.delivered[0];
      StartedReachable(cfg, s);
      assert !Y.InOrder(V.View(s, 0));
    }
  }
}
