/** What passes through a connection while it is served: the order of its
    messages, what the responses answer, and the bytes on the wire, however the
    socket cuts them.
 */
module SessionHistory {
  import opened Rpc
  import E = Epoll
  import opened SessionProtocol
  import opened SessionInvariant

  function Reqs(items: seq<Item>): seq<Bytes> {
    seq(|items|, i requires 0 <= i < |items| => items[i].req)
  }

  function Ress(items: seq<Item>): seq<Bytes> {
    seq(|items|, i requires 0 <= i < |items| => items[i].res)
  }

  /** The buffer handle_request has counted and not yet passed on. */
  function Counted(v: Session): seq<Item> { if v.io.ReqPut? then v.iohand else [] }

  /** Every request of the session, oldest first: answered, in sendbuf, in the
      send queue, with the submitter, in its inbox, being computed, in the
      compute inbox, on the way there. */
  function Line(v: Session): seq<Bytes> {
    Lay(v.conn.hist.answered, v.send, v.sendq, v.shand, v.sin, v.chand, v.cin, Counted(v))
  }

  function Lay(answered: seq<Item>, send: seq<Item>, sendq: seq<Item>, shand: seq<Item>,
               sin: seq<Item>, chand: seq<Item>, cin: seq<Item>, counted: seq<Item>): seq<Bytes>
  {
    Reqs(answered) + Reqs(send) + Reqs(sendq) + Reqs(shand) + Reqs(sin) + Reqs(chand) + Reqs(cin) + Reqs(counted)
  }

  ghost predicate Whole(items: seq<Item>) {
    forall i :: 0 <= i < |items| ==> |items[i].req| == REQUEST_SIZE
  }

  ghost predicate Replied(cfg: Config, items: seq<Item>) {
    forall i :: 0 <= i < |items| ==> items[i].res == Respond(cfg, items[i].req)
  }

  /** Requests are whole, and past the compute stage each buffer holds the
      response to its own request. */
  ghost predicate Sound(cfg: Config, v: Session) {
    && Whole(v.conn.hist.answered) && Whole(v.send) && Whole(v.sendq) && Whole(v.shand)
    && Whole(v.sin) && Whole(v.chand) && Whole(v.cin) && Whole(Counted(v))
    && Replied(cfg, v.conn.hist.answered) && Replied(cfg, v.send) && Replied(cfg, v.sendq)
    && Replied(cfg, v.shand) && Replied(cfg, v.sin)
    && (v.comp == CompPut ==> Replied(cfg, v.chand))
  }

  ghost predicate InLine(v: Session) {
    && |v.conn.hist.delivered| == v.conn.received
    && |v.conn.hist.answered| == v.conn.sent
    && multiset(v.conn.hist.delivered) == multiset(Line(v))
    && (!v.conn.hist.recycled ==> v.conn.hist.delivered == Line(v))
  }

  function PartialRequest(v: Session): Bytes { if v.recv == [] then [] else v.recv[0].req }

  function PartialResponse(v: Session): Bytes {
    if v.send == [] || v.send[0].left > |v.send[0].res| then []
    else v.send[0].res[..|v.send[0].res| - v.send[0].left]
  }

  /** The stream received is the delivered requests and the partial one; the
      stream sent is the answered responses and the sent part of sendbuf. An
      attached buffer has bytes left, but for a request that waits to be
      counted. */
  ghost predicate Framed(v: Session) {
    && AllSized(v.conn.hist.delivered, REQUEST_SIZE)
    && v.conn.hist.rx == Flat(v.conn.hist.delivered) + PartialRequest(v)
    && v.conn.hist.tx == Flat(Ress(v.conn.hist.answered)) + PartialResponse(v)
    && (v.recv != [] ==>
         && |v.recv[0].req| + v.recv[0].left == REQUEST_SIZE
         && (v.recv[0].left == 0 <==> v.io.ReqLock? || v.io.ReqCount?))
    && (v.send != [] ==> 0 < v.send[0].left <= RESPONSE_SIZE)
  }

  ghost predicate Faithful(cfg: Config, v: Session) {
    Serving(v) ==> Sound(cfg, v) && InLine(v) && Framed(v)
  }

  // ---------------------------------------------------------------- sequence facts

  /** Taking the first buffer of a stage into an empty hand. */
  lemma TakeFirst(p: seq<Bytes>, q: seq<Item>, it: Item)
    requires q != [] && it.req == q[0].req
    ensures p + Reqs([it]) + Reqs(q[1..]) == p + Reqs([]) + Reqs(q)
  {
  }

  /** Passing a stage on to the end of the one before it in line. */
  lemma PassOn(p: seq<Bytes>, q: seq<Item>, h: seq<Item>)
    ensures p + Reqs(q + h) + Reqs([]) == p + Reqs(q) + Reqs(h)
  {
  }

  /** Moving along the line changes nothing in it: stage by stage, with the
      stages as in Lay. */
  lemma LineAttach(a: seq<Item>, q: seq<Item>, h: seq<Item>, n: seq<Item>, c: seq<Item>, i: seq<Item>, k: seq<Item>,
                   it: Item)
    requires q != [] && it.req == q[0].req
    ensures Lay(a, [it], q[1..], h, n, c, i, k) == Lay(a, [], q, h, n, c, i, k)
  {
  }

  lemma LineSent(a: seq<Item>, q: seq<Item>, h: seq<Item>, n: seq<Item>, c: seq<Item>, i: seq<Item>, k: seq<Item>,
                 it: Item, it': Item)
    requires it'.req == it.req
    ensures Lay(a, [it'], q, h, n, c, i, k) == Lay(a, [it], q, h, n, c, i, k)
    ensures Lay(a + [it'], [], q, h, n, c, i, k) == Lay(a, [it], q, h, n, c, i, k)
  {
  }

  lemma LineDeliver(a: seq<Item>, s: seq<Item>, q: seq<Item>, h: seq<Item>, n: seq<Item>, c: seq<Item>, i: seq<Item>,
                    it: Item)
    ensures Lay(a, s, q, h, n, c, i, [it]) == Lay(a, s, q, h, n, c, i, []) + [it.req]
  {
  }

  lemma LineForward(a: seq<Item>, s: seq<Item>, q: seq<Item>, h: seq<Item>, n: seq<Item>, c: seq<Item>, i: seq<Item>,
                    k: seq<Item>)
    ensures Lay(a, s, q, h, n, c, i + k, []) == Lay(a, s, q, h, n, c, i, k)
  {
  }

  lemma LineCompTake(a: seq<Item>, s: seq<Item>, q: seq<Item>, h: seq<Item>, n: seq<Item>, i: seq<Item>, k: seq<Item>)
    requires i != []
    ensures Lay(a, s, q, h, n, [i[0]], i[1..], k) == Lay(a, s, q, h, n, [], i, k)
  {
  }

  lemma LineCompute(a: seq<Item>, s: seq<Item>, q: seq<Item>, h: seq<Item>, n: seq<Item>, i: seq<Item>, k: seq<Item>,
                    it: Item, it': Item)
    requires it'.req == it.req
    ensures Lay(a, s, q, h, n, [it'], i, k) == Lay(a, s, q, h, n, [it], i, k)
  {
  }

  lemma LineCompPut(a: seq<Item>, s: seq<Item>, q: seq<Item>, h: seq<Item>, n: seq<Item>, c: seq<Item>, i: seq<Item>,
                    k: seq<Item>)
    ensures Lay(a, s, q, h, n + c, [], i, k) == Lay(a, s, q, h, n, c, i, k)
  {
  }

  lemma LineSubTake(a: seq<Item>, s: seq<Item>, q: seq<Item>, n: seq<Item>, c: seq<Item>, i: seq<Item>, k: seq<Item>)
    requires n != []
    ensures Lay(a, s, q, [n[0]], n[1..], c, i, k) == Lay(a, s, q, [], n, c, i, k)
  {
  }

  lemma LineQueue(a: seq<Item>, s: seq<Item>, q: seq<Item>, h: seq<Item>, n: seq<Item>, c: seq<Item>, i: seq<Item>,
                  k: seq<Item>)
    ensures Lay(a, s, q + h, [], n, c, i, k) == Lay(a, s, q, h, n, c, i, k)
  {
  }

  /** A recycled buffer goes behind the others: the order is lost, no request is. */
  lemma LineRecycle(a: seq<Item>, s: seq<Item>, q: seq<Item>, h: seq<Item>, n: seq<Item>, c: seq<Item>, i: seq<Item>,
                    k: seq<Item>)
    ensures multiset(Lay(a, s, q, [], n + h, c, i, k)) == multiset(Lay(a, s, q, h, n, c, i, k))
  {
    hide Reqs;
    ReqsJoin(n, h);
    ReqsNone();
    Shuffle(Reqs(a) + Reqs(s) + Reqs(q), Reqs(h), Reqs(n), Reqs(c) + Reqs(i) + Reqs(k));
    assert Lay(a, s, q, [], n + h, c, i, k)
        == Reqs(a) + Reqs(s) + Reqs(q) + Reqs(n) + Reqs(h) + (Reqs(c) + Reqs(i) + Reqs(k));
    assert Lay(a, s, q, h, n, c, i, k)
        == Reqs(a) + Reqs(s) + Reqs(q) + Reqs(h) + Reqs(n) + (Reqs(c) + Reqs(i) + Reqs(k));
  }

  lemma ReqsJoin(p: seq<Item>, q: seq<Item>)
    ensures Reqs(p + q) == Reqs(p) + Reqs(q)
  {
  }

  lemma ReqsNone()
    ensures Reqs([]) == []
  {
  }

  lemma Shuffle(x: seq<Bytes>, p: seq<Bytes>, q: seq<Bytes>, y: seq<Bytes>)
    ensures multiset(x + q + p + y) == multiset(x + p + q + y)
  {
  }

  lemma RessSnoc(a: seq<Item>, it: Item)
    ensures Ress(a + [it]) == Ress(a) + [it.res]
  {
  }

  lemma ReplySize(cfg: Config, it: Item)
    requires ValidConfig(cfg)
    requires |it.req| == REQUEST_SIZE && it.res == Respond(cfg, it.req)
    ensures |it.res| == RESPONSE_SIZE
  {
  }

  // ---------------------------------------------------------------- preservation

  /** Nothing that the history speaks of has changed. */
  predicate Still(v: Session, w: Session) {
    && w.recv == v.recv && w.send == v.send && w.sendq == v.sendq && w.shand == v.shand
    && w.sin == v.sin && w.chand == v.chand && w.cin == v.cin && Counted(w) == Counted(v)
    && w.conn.hist == v.conn.hist && w.conn.received == v.conn.received && w.conn.sent == v.conn.sent
    && w.comp == v.comp
    && (w.io.ReqLock? || w.io.ReqCount? <==> v.io.ReqLock? || v.io.ReqCount?)
  }

  ghost predicate Kept(cfg: Config, v: Session) { Sound(cfg, v) && InLine(v) && Framed(v) }

  lemma StillKept(cfg: Config, v: Session, w: Session)
    requires Kept(cfg, v) && Still(v, w)
    ensures Kept(cfg, w)
  {
    hide Lay, Flat, Replied, Whole, Reqs, Ress;
    assert Line(w) == Line(v);
  }

  lemma {:induction false} StepFaithful(cfg: Config, v: Session, a: Act)
    requires ValidConfig(cfg) && Inv(cfg, v) && Faithful(cfg, v)
    requires Good(v, a) && Next(cfg, v, a).Some?
    ensures Faithful(cfg, Next(cfg, v, a).value)
  {
    hide Inv, Next, Good, Sound, InLine, Framed;
    if Serving(Next(cfg, v, a).value) {
      if a.AcceptServe? {
        FreshKept(cfg, v, a);
      } else {
        StepKept(cfg, v, a);
      }
    }
  }

  lemma FreshKept(cfg: Config, v: Session, a: Act)
    requires Inv(cfg, v) && Good(v, a) && a.AcceptServe? && Next(cfg, v, a).Some?
    ensures Kept(cfg, Next(cfg, v, a).value)
  {
    hide Shape, Counts, Wakeups, Kept;
    assert Quiet(v);
    EmptyKept(cfg, Next(cfg, v, a).value);
  }

  /** A connection through which nothing has passed yet. */
  lemma EmptyKept(cfg: Config, v: Session)
    requires Quiet(v) && v.conn.hist == NO_HISTORY && v.conn.received == 0 && v.conn.sent == 0
    ensures Kept(cfg, v)
  {
    hide Lay, Respond, Reqs, Ress;
    NothingLaid();
    assert Line(v) == [];
    assert Sound(cfg, v);
    assert Framed(v) by { NothingSent(); }
  }

  lemma NothingLaid()
    ensures Lay([], [], [], [], [], [], [], []) == []
  {
    ReqsNone();
  }

  lemma NothingSent()
    ensures Flat(Ress([])) == []
  {
  }

  lemma StepKept(cfg: Config, v: Session, a: Act)
    requires ValidConfig(cfg) && Inv(cfg, v) && Faithful(cfg, v)
    requires Next(cfg, v, a).Some? && Serving(Next(cfg, v, a).value) && !a.AcceptServe?
    ensures Kept(cfg, Next(cfg, v, a).value)
  {
    hide Kept, Inv, Faithful, Serving, IoNext, SubNext, CompNext, SendBytes, RecvBytes, RequestTop;
    StayedServing(cfg, v, a);
    match a
    case IoStep => IoStepKept(cfg, v);
    case IoSend(n) => SendKept(cfg, v, n);
    case IoRecv(bytes) => RecvKept(cfg, v, bytes);
    case IoReqTop(got) => ReadyKept(cfg, v, got);
    case CompTake => CompTakeKept(cfg, v);
    case CompStep => if v.comp == CompWork { ComputeKept(cfg, v); } else { CompPutKept(cfg, v); }
    case SubTake => SubTakeKept(cfg, v);
    case SubStep => SubStepKept(cfg, v);
    case _ => OtherKept(cfg, v, a);
  }

  /** A connection that is served after a step was served before, but for accept. */
  lemma StayedServing(cfg: Config, v: Session, a: Act)
    requires Inv(cfg, v) && Faithful(cfg, v)
    requires Next(cfg, v, a).Some? && Serving(Next(cfg, v, a).value) && !a.AcceptServe?
    ensures Serving(v) && Kept(cfg, v)
    ensures a.IoReqTop? ==> v.io == ReqTop && (v.conn.recvbuf.None? ==> v.recv == [])
    ensures a.IoSend? ==> |v.send| == 1
    ensures a.CompTake? ==> v.chand == []
    ensures a.CompStep? ==> |v.chand| == 1 && (v.comp == CompWork || v.comp == CompPut)
    ensures a.SubTake? ==> v.shand == []
  {
    hide Inv, Sound, Framed, InLine, IoNext, SubNext, CompNext, SendBytes, RecvBytes, RequestTop, Accepted;
    ServedBefore(cfg, v, a);
    HandsOf(cfg, v, a);
  }

  lemma ServedBefore(cfg: Config, v: Session, a: Act)
    requires Inv(cfg, v) && Next(cfg, v, a).Some? && Serving(Next(cfg, v, a).value) && !a.AcceptServe?
    ensures Serving(v)
  {
    hide Inv, Serving, IoNext, SubNext, CompNext, SendBytes, RecvBytes, RequestTop;
    match a
    case IoStep => IoServedBefore(cfg, v);
    case SubStep => StagesServedBefore(cfg, v);
    case CompStep => StagesServedBefore(cfg, v);
    case _ => SocketServedBefore(cfg, v, a);
  }

  lemma IoServedBefore(cfg: Config, v: Session)
    requires Inv(cfg, v) && IoNext(v).Some? && Serving(IoNext(v).value)
    ensures Serving(v)
  {
    hide Shape, Wakeups, Counts, Wrap64, E.KernelAfter;
    if v.io.RespTop? || v.io.RespPut? || v.io.RespLock? || v.io.RespCheck? || v.io.RespUnlock? {
    } else if v.io.ReqLock? || v.io.ReqCount? || v.io.ReqPut? || v.io.ReqUnlock? {
    } else {
    }
  }

  lemma StagesServedBefore(cfg: Config, v: Session)
    requires Inv(cfg, v)
    ensures SubNext(v).Some? && Serving(SubNext(v).value) ==> Serving(v)
    ensures CompNext(cfg, v).Some? && Serving(CompNext(cfg, v).value) ==> Serving(v)
  {
    hide Shape, Wakeups, Counts, Wrap64, Respond, E.KernelAfter;
  }

  lemma SocketServedBefore(cfg: Config, v: Session, a: Act)
    requires Inv(cfg, v) && Next(cfg, v, a).Some? && Serving(Next(cfg, v, a).value)
    requires !a.AcceptServe? && !a.IoStep? && !a.SubStep? && !a.CompStep?
    ensures Serving(v)
  {
    hide Shape, Wakeups, Counts, SentSlice, ReceivedInto, IoSize, TooFarAhead;
  }

  lemma HandsOf(cfg: Config, v: Session, a: Act)
    requires Inv(cfg, v) && Serving(v) && Next(cfg, v, a).Some?
    ensures a.IoReqTop? ==> v.io == ReqTop && (v.conn.recvbuf.None? ==> v.recv == [])
    ensures a.IoSend? ==> |v.send| == 1
    ensures a.CompTake? ==> v.chand == []
    ensures a.CompStep? ==> |v.chand| == 1 && (v.comp == CompWork || v.comp == CompPut)
    ensures a.SubTake? ==> v.shand == []
  {
    hide Wakeups, Counts, IoNext, SubNext, SentSlice, IoSize, TooFarAhead, Accepted;
  }

  lemma OtherKept(cfg: Config, v: Session, a: Act)
    requires Inv(cfg, v) && Kept(cfg, v) && Serving(v)
    requires a.AcceptTake? || a.IoEvent? || a.IoRecvAgain? || a.IoRecvFail? || a.IoSendAgain? || a.IoSendFail?
    requires Next(cfg, v, a).Some?
    ensures Kept(cfg, Next(cfg, v, a).value)
  {
    hide Lay, Flat, Sound, Framed, InLine, Wakeups;
    StillKept(cfg, v, Next(cfg, v, a).value);
  }

  lemma IoStepKept(cfg: Config, v: Session)
    requires ValidConfig(cfg) && Inv(cfg, v) && Kept(cfg, v)
    requires Serving(v) && IoNext(v).Some? && Serving(IoNext(v).value)
    ensures Kept(cfg, IoNext(v).value)
  {
    hide Kept, IoNext, Still, Wakeups;
    if v.io.RespTop? && v.conn.sendbuf.None? && v.sendq != [] {
      AttachKept(cfg, v);
    } else if v.io.ReqCount? {
      DeliverKept(cfg, v);
    } else if v.io.ReqPut? {
      ForwardKept(cfg, v);
    } else {
      IoStill(v);
      StillKept(cfg, v, IoNext(v).value);
    }
  }

  /** The other steps of the IO thread, up to the finish, touch no message. */
  lemma IoStill(v: Session)
    requires !v.conn.closed && !v.io.FinUnlock? && !v.io.FinRelease?
    requires IoNext(v).Some? && Serving(IoNext(v).value)
    requires !(v.io.RespTop? && v.conn.sendbuf.None? && v.sendq != []) && !v.io.ReqCount? && !v.io.ReqPut?
    ensures Still(v, IoNext(v).value)
  {
    hide Still, Serving, IoNext;
    if v.io.RespTop? || v.io.RespPut? {
      ResponseStill(v);
    } else if v.io.RespCheck? {
      RecheckStill(v);
    } else if v.io.RespLock? || v.io.RespUnlock? || v.io.ReqLock? || v.io.ReqUnlock? {
      LockStill(v);
    } else {
      TryStill(v);
    }
  }

  lemma ResponseStill(v: Session)
    requires (v.io.RespTop? && !(v.conn.sendbuf.None? && v.sendq != [])) || v.io.RespPut?
    ensures IoNext(v).Some? && Still(v, IoNext(v).value)
  {
  }

  lemma RecheckStill(v: Session)
    requires v.io.RespCheck?
    ensures IoNext(v).Some? && Still(v, IoNext(v).value)
  {
    hide Wrap64, E.KernelAfter;
  }

  lemma LockStill(v: Session)
    requires (v.io.RespLock? || v.io.RespUnlock? || v.io.ReqLock? || v.io.ReqUnlock?) && IoNext(v).Some?
    ensures Still(v, IoNext(v).value)
  {
  }

  /** Of a finish, only the trylock can leave the connection served. */
  lemma TryStill(v: Session)
    requires !v.io.RespTop? && !v.io.RespPut? && !v.io.RespCheck? && !v.io.RespLock? && !v.io.RespUnlock?
    requires !v.io.ReqLock? && !v.io.ReqUnlock? && !v.io.ReqCount? && !v.io.ReqPut? && !v.conn.closed
    requires !v.io.FinUnlock? && !v.io.FinRelease?
    requires IoNext(v).Some? && Serving(IoNext(v).value)
    ensures Still(v, IoNext(v).value)
  {
    hide Wrap64;
    assert v.io.FinTry? by { OnlyTry(v); }
  }

  lemma OnlyTry(v: Session)
    requires !v.io.RespTop? && !v.io.RespPut? && !v.io.RespCheck? && !v.io.RespLock? && !v.io.RespUnlock?
    requires !v.io.ReqLock? && !v.io.ReqUnlock? && !v.io.ReqCount? && !v.io.ReqPut? && !v.conn.closed
    requires !v.io.FinUnlock? && !v.io.FinRelease?
    requires IoNext(v).Some? && Serving(IoNext(v).value)
    ensures v.io.FinTry?
  {
    hide Wrap64;
  }

  lemma SubStepKept(cfg: Config, v: Session)
    requires ValidConfig(cfg) && Inv(cfg, v) && Kept(cfg, v)
    requires Serving(v) && SubNext(v).Some? && Serving(SubNext(v).value)
    ensures Kept(cfg, SubNext(v).value)
  {
    hide Lay, Flat, Sound, Framed, InLine, Wakeups;
    assert OpenCounts(v);
    if v.sub == SubRecycle {
      RecycleKept(cfg, v);
    } else if v.sub == SubQueue {
      QueueKept(cfg, v);
    } else {
      StillKept(cfg, v, SubNext(v).value);
    }
  }

  lemma AttachKept(cfg: Config, v: Session)
    requires ValidConfig(cfg) && Kept(cfg, v) && v.io.RespTop?
    requires v.conn.sendbuf.None? && v.sendq != [] && v.send == []
    ensures Kept(cfg, IoNext(v).value)
  {
    hide Lay, Flat;
    var h := v.conn.hist;
    ReplySize(cfg, v.sendq[0]);
    LineAttach(h.answered, v.sendq, v.shand, v.sin, v.chand, v.cin, Counted(v), IoNext(v).value.send[0]);
  }

  lemma SendKept(cfg: Config, v: Session, n: nat)
    requires ValidConfig(cfg) && Kept(cfg, v) && SendBytes(cfg, v, n).Some? && |v.send| == 1
    ensures Kept(cfg, SendBytes(cfg, v, n).value)
  {
    ReplySize(cfg, v.send[0]);
    if n == v.send[0].left {
      AnswerKept(cfg, v, n);
    } else {
      SendPartKept(cfg, v, n);
    }
  }

  lemma SlicesJoin(it: Item, n: nat)
    requires n <= it.left <= |it.res|
    ensures it.res[..|it.res| - it.left] + SentSlice(it, n) == it.res[..|it.res| - it.left + n]
  {
  }

  lemma TxGrows(flat: Bytes, part: Bytes, slice: Bytes, part': Bytes)
    requires part' == part + slice
    ensures flat + part + slice == flat + part'
  {
  }

  lemma SendPartKept(cfg: Config, v: Session, n: nat)
    requires Kept(cfg, v) && SendBytes(cfg, v, n).Some? && |v.send| == 1
    requires |v.send[0].res| == RESPONSE_SIZE && n < v.send[0].left
    ensures Kept(cfg, SendBytes(cfg, v, n).value)
  {
    hide Lay, Flat, Respond, SentSlice;
    var w, h := SendBytes(cfg, v, n).value, v.conn.hist;
    var it := v.send[0];
    SlicesJoin(it, n);
    LineSent(h.answered, v.sendq, v.shand, v.sin, v.chand, v.cin, Counted(v), it, w.send[0]);
    assert w.conn == v.conn.(hist := h.(tx := h.tx + SentSlice(it, n)));
    assert v.send == [it] && w.send == [it.(left := it.left - n)];
    assert Sound(cfg, w);
    assert InLine(w);
    TxGrows(Flat(Ress(h.answered)), PartialResponse(v), SentSlice(it, n), PartialResponse(w));
  }

  lemma AnswerKept(cfg: Config, v: Session, n: nat)
    requires Kept(cfg, v) && SendBytes(cfg, v, n).Some? && |v.send| == 1
    requires |v.send[0].res| == RESPONSE_SIZE && n == v.send[0].left
    ensures Kept(cfg, SendBytes(cfg, v, n).value)
  {
    hide Lay, Flat, Respond, Reqs, Ress, Whole, Replied, AllSized, SentSlice;
    var w, h := SendBytes(cfg, v, n).value, v.conn.hist;
    var it := v.send[0];
    var it' := it.(left := 0);
    assert v.send == [it] && w.send == [];
    assert w.conn.hist == h.(tx := h.tx + SentSlice(it, n), answered := h.answered + [it']);
    WholeSnoc(cfg, h.answered, it, it');
    LineSent(h.answered, v.sendq, v.shand, v.sin, v.chand, v.cin, Counted(v), it, it');
    AnswerTx(h.answered, it, it');
  }

  lemma WholeSnoc(cfg: Config, a: seq<Item>, it: Item, it': Item)
    requires Whole(a) && Whole([it]) && Replied(cfg, a) && Replied(cfg, [it])
    requires it'.req == it.req && it'.res == it.res
    ensures Whole(a + [it']) && Replied(cfg, a + [it']) && Whole([]) && Replied(cfg, [])
  {
    hide Respond;
    assert it == [it][0];
  }

  /** The last slice completes the response in the stream. */
  lemma AnswerTx(a: seq<Item>, it: Item, it': Item)
    requires it'.res == it.res && it.left <= |it.res|
    ensures Flat(Ress(a)) + it.res[..|it.res| - it.left] + SentSlice(it, it.left) == Flat(Ress(a + [it']))
  {
    hide Flat, SentSlice, Ress;
    SlicesJoin(it, it.left);
    RessSnoc(a, it');
    FlatSnoc(Ress(a), it.res);
  }

  lemma ReadyKept(cfg: Config, v: Session, got: Option<nat>)
    requires Kept(cfg, v) && v.io == ReqTop
    requires v.conn.recvbuf.None? ==> v.recv == []
    ensures Kept(cfg, RequestTop(cfg, v, got).value)
  {
    hide Lay, Flat, Respond, Reqs, Ress, Whole, Replied, TooFarAhead, Framed;
    var w := RequestTop(cfg, v, got).value;
    assert w.conn == v.conn.(recvbuf := w.conn.recvbuf);
    assert w == v.(recv := w.recv, conn := w.conn, io := w.io);
    assert Line(w) == Line(v);
    ReadyFramed(cfg, v, got);
  }

  lemma ReadyFramed(cfg: Config, v: Session, got: Option<nat>)
    requires Framed(v) && v.io == ReqTop && (v.conn.recvbuf.None? ==> v.recv == [])
    ensures Framed(RequestTop(cfg, v, got).value)
  {
    hide Flat, Ress, TooFarAhead;
  }

  lemma RecvKept(cfg: Config, v: Session, bytes: Bytes)
    requires Kept(cfg, v) && RecvBytes(cfg, v, bytes).Some?
    ensures Kept(cfg, RecvBytes(cfg, v, bytes).value)
  {
    hide Lay, Flat, Respond;
    var w := RecvBytes(cfg, v, bytes).value;
    assert Line(w) == Line(v);
    assert w.conn.hist.rx == Flat(v.conn.hist.delivered) + (v.recv[0].req + bytes);
  }

  lemma DeliverKept(cfg: Config, v: Session)
    requires Kept(cfg, v) && v.io == ReqCount && |v.recv| == 1
    ensures Kept(cfg, IoNext(v).value)
  {
    hide Lay, Flat, Respond;
    var h := v.conn.hist;
    FlatSnoc(h.delivered, v.recv[0].req);
    assert v.recv == [v.recv[0]];
    LineDeliver(h.answered, v.send, v.sendq, v.shand, v.sin, v.chand, v.cin, v.recv[0]);
  }

  lemma ForwardKept(cfg: Config, v: Session)
    requires Kept(cfg, v) && v.io == ReqPut
    ensures Kept(cfg, IoNext(v).value)
  {
    hide Lay, Flat, Respond;
    LineForward(v.conn.hist.answered, v.send, v.sendq, v.shand, v.sin, v.chand, v.cin, v.iohand);
  }

  lemma CompTakeKept(cfg: Config, v: Session)
    requires Kept(cfg, v) && v.comp == CompIdle && v.cin != [] && v.chand == []
    ensures Kept(cfg, Next(cfg, v, CompTake).value)
  {
    hide Lay, Flat, Respond;
    LineCompTake(v.conn.hist.answered, v.send, v.sendq, v.shand, v.sin, v.cin, Counted(v));
  }

  lemma ComputeKept(cfg: Config, v: Session)
    requires Kept(cfg, v) && v.comp == CompWork && |v.chand| == 1
    ensures Kept(cfg, CompNext(cfg, v).value)
  {
    hide Lay, Flat, Respond;
    assert v.chand == [v.chand[0]];
    LineCompute(v.conn.hist.answered, v.send, v.sendq, v.shand, v.sin, v.cin, Counted(v),
                v.chand[0], CompNext(cfg, v).value.chand[0]);
  }

  lemma CompPutKept(cfg: Config, v: Session)
    requires Kept(cfg, v) && v.comp == CompPut && v.chand != []
    ensures Kept(cfg, CompNext(cfg, v).value)
  {
    hide Lay, Flat, Respond;
    LineCompPut(v.conn.hist.answered, v.send, v.sendq, v.shand, v.sin, v.chand, v.cin, Counted(v));
  }

  lemma SubTakeKept(cfg: Config, v: Session)
    requires Kept(cfg, v) && v.sub == SubIdle && v.sin != [] && v.shand == []
    ensures Kept(cfg, Next(cfg, v, SubTake).value)
  {
    hide Lay, Flat, Respond;
    LineSubTake(v.conn.hist.answered, v.send, v.sendq, v.sin, v.chand, v.cin, Counted(v));
  }

  lemma RecycleKept(cfg: Config, v: Session)
    requires Kept(cfg, v) && v.sub == SubRecycle
    ensures Kept(cfg, SubNext(v).value)
  {
    hide Lay, Flat, Respond;
    LineRecycle(v.conn.hist.answered, v.send, v.sendq, v.shand, v.sin, v.chand, v.cin, Counted(v));
  }

  lemma QueueKept(cfg: Config, v: Session)
    requires Kept(cfg, v) && v.sub == SubQueue
    ensures Kept(cfg, SubNext(v).value)
  {
    hide Lay, Flat, Respond;
    LineQueue(v.conn.hist.answered, v.send, v.sendq, v.shand, v.sin, v.chand, v.cin, Counted(v));
  }

  // ---------------------------------------------------------------- who writes history

  /** Of the IO thread's own steps only the count of a request writes history. */
  lemma IoHistory(v: Session)
    requires IoNext(v).Some?
    ensures IoNext(v).value.conn.hist ==
            if v.io.ReqCount? then v.conn.hist.(delivered := v.conn.hist.delivered + [v.recv[0].req]) else v.conn.hist
  {
    hide Wrap64, E.KernelAfter, AfterResponse;
    if Responding(v.io) {
    } else if Requesting(v.io) {
    } else {
    }
  }

  /** The submitter writes the recycled mark, and nothing else. */
  lemma SubHistory(v: Session)
    requires SubNext(v).Some?
    ensures SubNext(v).value.conn.hist ==
            if v.sub == SubRecycle then v.conn.hist.(recycled := true) else v.conn.hist
  {
    hide Wrap64, E.KernelAfter;
  }
}
