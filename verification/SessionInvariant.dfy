/** What every step of the connection protocol keeps: the counters and the
    lock, the teardown shared between the IO thread and the submitter, and the
    epoll interest.
 */
module SessionInvariant {
  import opened Rpc
  import opened Epoll
  import opened SessionProtocol

  // ---------------------------------------------------------------- vocabulary

  /** The IO thread is between taking the connection lock and releasing it. */
  predicate IoHolds(io: IoPc) {
    io.RespCheck? || io.RespUnlock? || io.ReqCount? || io.ReqPut? || io.ReqUnlock? ||
    io.FinSend? || io.FinRecv? || io.FinClose? || io.FinDrain? || io.FinPut? || io.FinDecide? ||
    io.FinUnlock? || io.FinRelease?
  }

  predicate SubHolds(sub: SubPc) {
    sub.SubCount? || sub.SubDispose? || sub.SubDropLock? || sub.SubQueue? || sub.SubArm? || sub.SubUnlock?
  }

  /** finish_connection has given sendbuf (recvbuf, the descriptor) away. */
  predicate SendGone(io: IoPc) { io.FinRecv? || RecvGone(io) }
  predicate RecvGone(io: IoPc) { io.FinClose? || FdGone(io) }
  predicate FdGone(io: IoPc) { io.FinDrain? || io.FinPut? || io.FinDecide? }

  function Ones(b: bool): nat { if b then 1 else 0 }

  predicate HasIoHand(io: IoPc) { io.RespPut? || io.ReqPut? || io.FinPut? }
  predicate HasSubHand(sub: SubPc) {
    sub.SubTry? || sub.SubRecycle? || sub.SubCount? || sub.SubDispose? || sub.SubQueue?
  }

  /** Buffers of the compute and submit stages: received, not yet processed. */
  function Upstream(v: Session): nat {
    Ones(v.io.ReqPut?) + |v.cin| + |v.chand| + |v.sin| +
    Ones(v.sub.SubTry? || v.sub.SubRecycle? || v.sub.SubCount?)
  }

  /** Nothing in the pipeline and no thread refers to the connection. */
  predicate Quiet(v: Session) {
    && v.recv == [] && v.send == [] && v.sendq == [] && v.cin == [] && v.chand == []
    && v.sin == [] && v.shand == [] && v.iohand == []
    && v.io == IoIdle && v.comp == CompIdle && v.sub == SubIdle
  }

  predicate InService(v: Session) { v.nfree == 0 && !v.accepting }

  /** In service, and finish_connection has not got the lock. */
  predicate Serving(v: Session) {
    InService(v) && !v.conn.closed && !v.io.FinSend? && !SendGone(v.io)
  }

  // ---------------------------------------------------------------- the invariant

  predicate Shape(v: Session) {
    && |v.recv| == Ones(v.conn.recvbuf.Some? && !v.conn.closed && !RecvGone(v.io))
    && |v.send| == Ones(v.conn.sendbuf.Some? && !v.conn.closed && !SendGone(v.io))
    && |v.chand| == Ones(v.comp != CompIdle)
    && |v.shand| == Ones(HasSubHand(v.sub))
    && |v.iohand| == Ones(HasIoHand(v.io))
    && (v.recv != [] ==> v.conn.recvbuf == Some(v.recv[0].id))
    && (v.send != [] ==> v.conn.sendbuf == Some(v.send[0].id))
    && (v.io.ReqRecv? || v.io.ReqLock? || v.io.ReqCount? ==> v.conn.recvbuf.Some?)
    && (v.io.RespSend? ==> v.conn.sendbuf.Some?)
    && (v.conn.lock <==> IoHolds(v.io) || SubHolds(v.sub))
    && !(IoHolds(v.io) && SubHolds(v.sub))
  }

  /** The counters of a connection that is not closed; `sendbuf` stays set, and
      uncounted in `sent`, through the whole of finish_connection. */
  predicate OpenCounts(v: Session) {
    && v.conn.processed ==
       v.conn.sent + |v.sendq| + Ones(v.conn.sendbuf.Some?) + Ones(v.sub.SubQueue?)
    && !v.io.FinUnlock? && !v.io.FinRelease?
    && !v.sub.SubDispose? && !v.sub.SubDropLock? && !v.sub.SubCheck? && !v.sub.SubRelease?
    && (v.io.FinDecide? ==> v.sendq == [])
  }

  /** The case in which nobody is left to release a closed connection: the
      buffer being sent was the last one, and it is not counted in `sent`. */
  predicate Stranded(v: Session) {
    v.conn.closed && v.conn.sendbuf.Some? && v.conn.received == v.conn.sent + 1
  }

  predicate Disposing(sub: SubPc) {
    sub.SubDispose? || sub.SubDropLock? || sub.SubCheck? || sub.SubRelease?
  }

  predicate ClosedCounts(v: Session) {
    && v.sendq == []
    && (v.io.IoIdle? || v.io.FinUnlock? || v.io.FinRelease?)
    && !v.sub.SubQueue? && !v.sub.SubArm? && !v.sub.SubUnlock?
    && v.conn.sent + Ones(v.conn.sendbuf.Some?) <= v.conn.processed
    && (v.io.FinRelease? ==> v.conn.received == v.conn.sent)
    && (!v.io.FinRelease? ==> v.conn.received > v.conn.sent)
    && (!v.io.IoIdle? ==> !Disposing(v.sub) && !SubHolds(v.sub))
    && (!v.io.IoIdle? ==> v.conn.processed == v.conn.sent + Ones(v.conn.sendbuf.Some?))
    && (Disposing(v.sub) ==> v.conn.processed > v.conn.sent + Ones(v.conn.sendbuf.Some?))
    && (v.sub.SubRelease? ==> Upstream(v) == 0)
    && (v.io.IoIdle? ==> Upstream(v) > 0 || Disposing(v.sub) || Stranded(v))
  }

  predicate Counts(cfg: Config, v: Session) {
    && v.conn.received == v.conn.processed + Upstream(v)
    && (if v.conn.closed then ClosedCounts(v) else OpenCounts(v))
    && v.conn.received + |v.recv| <= v.conn.sent + cfg.readahead + 1
    && (v.io.RespPut? || v.io.FinPut? ==> v.conn.received + |v.recv| <= v.conn.sent + cfg.readahead)
  }

  /** The kernel's registration and the two directions of the wakeup rule. */
  predicate Wakeups(v: Session) {
    && (v.conn.kernel.Some? <==> !v.conn.closed && !FdGone(v.io))
    && (v.conn.kernel.Some? ==>
         && Mirrors(v.conn.epoll, v.conn.kernel)
         && v.conn.epoll.rd
         && (v.conn.processed != v.conn.sent ==> v.conn.epoll.wr || v.sub.SubQueue? || v.sub.SubArm?)
         && (v.conn.epoll.wr ==>
              v.conn.processed != v.conn.sent || v.io.RespPut? || v.io.RespLock? || v.io.RespCheck?)
         && (v.sub.SubArm? ==> v.conn.processed != v.conn.sent || v.io.RespPut? || v.io.RespLock?))
  }

  ghost predicate Inv(cfg: Config, v: Session) {
    && v.nfree <= 1
    && (v.accepting ==> v.nfree == 0)
    && (if InService(v) then Shape(v) && Counts(cfg, v) && Wakeups(v)
        else Quiet(v) && v.conn.kernel.None?)
  }

  // ---------------------------------------------------------------- preservation

  /** Whatever the fields of a never-accepted connection hold. */
  lemma InitInv(cfg: Config, v: Session)
    requires v.nfree == 1 && !v.accepting && Quiet(v) && v.conn.kernel.None?
    ensures Inv(cfg, v)
  {
  }

  lemma {:induction false} StepInv(cfg: Config, v: Session, a: Act)
    requires ValidConfig(cfg) && Inv(cfg, v)
    requires Good(v, a) && Next(cfg, v, a).Some?
    ensures Inv(cfg, Next(cfg, v, a).value)
  {
    match a
    case IoStep => IoStepInv(cfg, v);
    case SubStep => SubStepInv(cfg, v);
    case IoReqTop(got) => RequestTopInv(cfg, v, got);
    case IoRecv(bytes) => SocketInv(cfg, v, a);
    case IoRecvAgain => SocketInv(cfg, v, a);
    case IoRecvFail => SocketInv(cfg, v, a);
    case IoSend(n) => SendInv(cfg, v, n);
    case IoSendAgain => SocketInv(cfg, v, a);
    case IoSendFail => SocketInv(cfg, v, a);
    case IoEvent(_, _, _) => SocketInv(cfg, v, a);
    case AcceptTake => AcceptInv(cfg, v, a);
    case AcceptServe(_, _, _) => AcceptInv(cfg, v, a);
    case CompTake => StageInv(cfg, v, a);
    case CompStep => StageInv(cfg, v, a);
    case SubTake => StageInv(cfg, v, a);
  }

  /** Points of the IO thread at which it holds neither lock nor buffer. */
  predicate Calm(io: IoPc) {
    io.IoIdle? || io.RespTop? || io.RespSend? || io.ReqTop? || io.ReqRecv? || io.ReqLock? || io.FinTry?
  }

  /** Between calm points, the IO thread's own moves change nothing else. */
  lemma CalmMove(cfg: Config, v: Session, pc: IoPc)
    requires ValidConfig(cfg) && Inv(cfg, v)
    requires InService(v) && !v.conn.closed && Calm(v.io) && Calm(pc)
    requires pc.RespSend? ==> v.conn.sendbuf.Some?
    requires pc.ReqRecv? || pc.ReqLock? ==> v.conn.recvbuf.Some?
    ensures Inv(cfg, v.(io := pc))
  {
    var w := v.(io := pc);
    assert Shape(w);
    assert Counts(cfg, w);
  }

  lemma RequestTopInv(cfg: Config, v: Session, got: Option<nat>)
    requires ValidConfig(cfg) && Inv(cfg, v) && v.io == ReqTop
    ensures RequestTop(cfg, v, got).Some? && Inv(cfg, RequestTop(cfg, v, got).value)
  {
    var w := RequestTop(cfg, v, got).value;
    HeadRoom(cfg, v);
    assert InService(v) && !v.conn.closed;
    if w.conn == v.conn {
      CalmMove(cfg, v, w.io);
    } else {
      assert Shape(w);
      assert Counts(cfg, w);
    }
  }

  lemma SendInv(cfg: Config, v: Session, n: nat)
    requires ValidConfig(cfg) && Inv(cfg, v)
    requires SendBytes(cfg, v, n).Some?
    ensures Inv(cfg, SendBytes(cfg, v, n).value)
  {
    hide Inv, SendBytes, AfterResponse;
    var w := SendBytes(cfg, v, n).value;
    SendServes(cfg, v, n);
    SendForm(cfg, v, n);
    if w.io.RespPut? {
      assert w.iohand == [w.iohand[0]];
      SendLastInv(cfg, v, w.iohand[0], w.conn.hist);
    } else {
      assert w.send == [w.send[0]];
      SendPartInv(cfg, v, w.send[0], w.conn.hist);
      CalmMove(cfg, v.(send := w.send, conn := v.conn.(hist := w.conn.hist)), w.io);
    }
  }

  lemma SendServes(cfg: Config, v: Session, n: nat)
    requires Inv(cfg, v) && SendBytes(cfg, v, n).Some?
    ensures v.io.RespSend? && InService(v) && !v.conn.closed && |v.send| == 1
  {
    hide Wakeups, SentSlice, IoSize;
  }

  /** What a send makes of the session: the buffer goes on with less, or is
      detached. */
  lemma SendForm(cfg: Config, v: Session, n: nat)
    requires SendBytes(cfg, v, n).Some? && |v.send| == 1
    ensures v.io.RespSend?
    ensures var w := SendBytes(cfg, v, n).value;
            if w.io.RespPut? then
              |w.iohand| == 1 && w == v.(send := [], iohand := w.iohand, io := RespPut(v.io.more),
                                         conn := v.conn.(sent := v.conn.sent + 1, sendbuf := None, hist := w.conn.hist))
            else
              |w.send| == 1 && w.send[0].id == v.send[0].id && (w.io.RespTop? || w.io.ReqTop? || w.io.IoIdle?) &&
              w == v.(send := w.send, io := w.io, conn := v.conn.(hist := w.conn.hist))
  {
    hide SentSlice, IoSize;
  }

  lemma SendPartInv(cfg: Config, v: Session, it: Item, h: History)
    requires Inv(cfg, v) && InService(v) && |v.send| == 1 && it.id == v.send[0].id
    ensures Inv(cfg, v.(send := [it], conn := v.conn.(hist := h)))
  {
  }

  lemma SendLastInv(cfg: Config, v: Session, it: Item, h: History)
    requires Inv(cfg, v) && InService(v) && v.io.RespSend? && |v.send| == 1
    ensures Inv(cfg, v.(send := [], iohand := [it], io := RespPut(v.io.more),
                        conn := v.conn.(sent := v.conn.sent + 1, sendbuf := None, hist := h)))
  {
  }

  lemma SocketInv(cfg: Config, v: Session, a: Act)
    requires ValidConfig(cfg) && Inv(cfg, v) && Next(cfg, v, a).Some?
    requires a.IoRecv? || a.IoRecvAgain? || a.IoRecvFail? || a.IoSendAgain? || a.IoSendFail? || a.IoEvent?
    ensures Inv(cfg, Next(cfg, v, a).value)
  {
    var w := Next(cfg, v, a).value;
    assert InService(v) && !v.conn.closed;
    CalmMove(cfg, v, w.io);
  }

  lemma AcceptInv(cfg: Config, v: Session, a: Act)
    requires ValidConfig(cfg) && Inv(cfg, v) && Next(cfg, v, a).Some? && Good(v, a)
    requires a.AcceptTake? || a.AcceptServe?
    ensures Inv(cfg, Next(cfg, v, a).value)
  {
  }

  lemma StageInv(cfg: Config, v: Session, a: Act)
    requires ValidConfig(cfg) && Inv(cfg, v) && Next(cfg, v, a).Some?
    requires a.CompTake? || a.CompStep? || a.SubTake?
    ensures Inv(cfg, Next(cfg, v, a).value)
  {
    hide Inv, Shape, Wakeups, Counts, Next, Upstream;
    var w := Next(cfg, v, a).value;
    StageMoves(cfg, v, a);
    StageShape(cfg, v, a);
    InvParts(cfg, v);
    StageCounts(cfg, v, w);
    InvParts(cfg, w);
  }

  lemma InvParts(cfg: Config, v: Session)
    requires InService(v)
    ensures Inv(cfg, v) <==> Shape(v) && Counts(cfg, v) && Wakeups(v)
  {
    hide Shape, Counts, Wakeups, Quiet;
  }

  /** A buffer goes from one of the middle stages to the next. */
  lemma StageMoves(cfg: Config, v: Session, a: Act)
    requires Inv(cfg, v) && Next(cfg, v, a).Some? && (a.CompTake? || a.CompStep? || a.SubTake?)
    ensures InService(v) && Upstream(Next(cfg, v, a).value) == Upstream(v)
    ensures var w := Next(cfg, v, a).value;
            if a.SubTake? then v.sub == SubIdle && w == v.(sin := w.sin, shand := w.shand, sub := SubTry)
            else w == v.(cin := w.cin, chand := w.chand, sin := w.sin, comp := w.comp)
  {
    hide Counts, Wakeups, Respond;
  }

  lemma StageShape(cfg: Config, v: Session, a: Act)
    requires Inv(cfg, v) && InService(v) && Next(cfg, v, a).Some? && (a.CompTake? || a.CompStep? || a.SubTake?)
    ensures Shape(Next(cfg, v, a).value)
  {
    hide Counts, Wakeups, Respond, RecvGone, SendGone, IoHolds, HasIoHand;
  }

  lemma StageCounts(cfg: Config, v: Session, w: Session)
    requires Counts(cfg, v) && Wakeups(v) && Upstream(w) == Upstream(v)
    requires w == v.(cin := w.cin, chand := w.chand, sin := w.sin, comp := w.comp) ||
             (w == v.(sin := w.sin, shand := w.shand, sub := SubTry) && v.sub == SubIdle)
    ensures Counts(cfg, w) && Wakeups(w)
  {
    hide Upstream;
  }

  /** The stored counters tell the truth: every difference the code takes is
      the true one, so no unsigned subtraction wraps. */
  lemma HeadRoom(cfg: Config, v: Session)
    requires ValidConfig(cfg) && Inv(cfg, v) && InService(v)
    ensures v.conn.sent <= v.conn.processed <= v.conn.received
    ensures TooFarAhead(cfg, v.conn) <==> v.conn.received > v.conn.sent + cfg.readahead
    ensures Wrap64(v.conn.processed) == Wrap64(v.conn.sent) <==> v.conn.processed == v.conn.sent
    ensures Wrap64(v.conn.sent) == Wrap64(v.conn.received) <==> v.conn.sent == v.conn.received
    ensures Wrap64(v.conn.processed) == Wrap64(v.conn.received) <==> v.conn.processed == v.conn.received
  {
    WrapFaithful(v.conn.received, v.conn.sent);
    WrapFaithful(v.conn.processed, v.conn.sent);
    WrapFaithful(v.conn.received, v.conn.processed);
  }

  predicate Responding(io: IoPc) {
    io.RespTop? || io.RespPut? || io.RespLock? || io.RespCheck? || io.RespUnlock?
  }

  predicate Requesting(io: IoPc) {
    io.ReqLock? || io.ReqCount? || io.ReqPut? || io.ReqUnlock?
  }

  lemma IoStepInv(cfg: Config, v: Session)
    requires ValidConfig(cfg) && Inv(cfg, v)
    requires Good(v, IoStep) && IoNext(v).Some?
    ensures Inv(cfg, IoNext(v).value)
  {
    if Responding(v.io) {
      ResponseStepInv(cfg, v);
    } else if Requesting(v.io) {
      RequestStepInv(cfg, v);
    } else {
      FinishStepInv(cfg, v);
    }
  }

  lemma ResponseStepInv(cfg: Config, v: Session)
    requires ValidConfig(cfg) && Inv(cfg, v)
    requires Responding(v.io) && IoNext(v).Some?
    ensures Inv(cfg, IoNext(v).value)
  {
    hide Inv, IoNext;
    if v.io.RespTop? {
      ResponseTopInv(cfg, v);
    } else if v.io.RespPut? {
      ResponsePutInv(cfg, v);
    } else if v.io.RespCheck? {
      RecheckInv(cfg, v);
    } else {
      LockInv(cfg, v);
    }
  }

  lemma ResponsePutInv(cfg: Config, v: Session)
    requires Inv(cfg, v) && v.io.RespPut? && IoNext(v).Some?
    ensures Inv(cfg, IoNext(v).value)
  {
  }

  lemma RecheckInv(cfg: Config, v: Session)
    requires ValidConfig(cfg) && Inv(cfg, v) && v.io.RespCheck? && IoNext(v).Some?
    ensures Inv(cfg, IoNext(v).value)
  {
    hide Wrap64;
    assert InService(v);
    HeadRoom(cfg, v);
  }

  lemma ResponseTopInv(cfg: Config, v: Session)
    requires ValidConfig(cfg) && Inv(cfg, v)
    requires v.io.RespTop?
    ensures IoNext(v).Some? && Inv(cfg, IoNext(v).value)
  {
    var w := IoNext(v).value;
    assert InService(v) && !v.conn.closed;
    if w.conn == v.conn {
      CalmMove(cfg, v, w.io);
    } else {
      assert Shape(w);
      assert Counts(cfg, w);
    }
  }

  lemma RequestStepInv(cfg: Config, v: Session)
    requires ValidConfig(cfg) && Inv(cfg, v)
    requires Requesting(v.io) && IoNext(v).Some?
    ensures Inv(cfg, IoNext(v).value)
  {
    hide Inv, IoNext;
    if v.io.ReqCount? {
      CountInv(cfg, v);
    } else if v.io.ReqPut? {
      ReqPutInv(cfg, v);
    } else {
      LockInv(cfg, v);
    }
  }

  lemma CountInv(cfg: Config, v: Session)
    requires Inv(cfg, v) && v.io.ReqCount? && IoNext(v).Some?
    ensures Inv(cfg, IoNext(v).value)
  {
  }

  lemma ReqPutInv(cfg: Config, v: Session)
    requires Inv(cfg, v) && v.io.ReqPut? && IoNext(v).Some?
    ensures Inv(cfg, IoNext(v).value)
  {
  }

  /** The lock is taken, or dropped, around a count or a recheck. */
  lemma LockInv(cfg: Config, v: Session)
    requires Inv(cfg, v) && (v.io.ReqLock? || v.io.ReqUnlock? || v.io.RespLock? || v.io.RespUnlock?) && IoNext(v).Some?
    ensures Inv(cfg, IoNext(v).value)
  {
    hide Inv;
    if v.io.ReqLock? || v.io.RespLock? {
      LockedInv(cfg, v, if v.io.ReqLock? then ReqCount else RespCheck(v.io.more));
    } else {
      UnlockedInv(cfg, v, if v.io.ReqUnlock? then ReqTop else RespTop(v.io.more));
    }
  }

  lemma LockedInv(cfg: Config, v: Session, pc: IoPc)
    requires Inv(cfg, v) && !v.conn.lock
    requires (v.io.ReqLock? && pc == ReqCount) || (v.io.RespLock? && pc == RespCheck(v.io.more))
    ensures Inv(cfg, v.(conn := v.conn.(lock := true), io := pc))
  {
  }

  lemma UnlockedInv(cfg: Config, v: Session, pc: IoPc)
    requires Inv(cfg, v)
    requires (v.io.ReqUnlock? && pc == ReqTop) || (v.io.RespUnlock? && pc == RespTop(v.io.more))
    ensures Inv(cfg, v.(conn := v.conn.(lock := false), io := pc))
  {
  }

  lemma FinishStepInv(cfg: Config, v: Session)
    requires ValidConfig(cfg) && Inv(cfg, v)
    requires Good(v, IoStep) && !Responding(v.io) && !Requesting(v.io) && IoNext(v).Some?
    ensures Inv(cfg, IoNext(v).value)
  {
    match v.io
    case FinTry(_) => FinTryInv(cfg, v);
    case FinSend(_) => GiveAwayInv(cfg, v);
    case FinRecv(_) => GiveAwayInv(cfg, v);
    case FinClose(_) => GiveAwayInv(cfg, v);
    case FinDrain(_) => DrainInv(cfg, v);
    case FinPut(_) => DrainInv(cfg, v);
    case FinDecide(_) => DecideInv(cfg, v);
    case FinUnlock(_) => LeaveInv(cfg, v);
    case FinRelease(_) => LeaveInv(cfg, v);
  }

  lemma FinTryInv(cfg: Config, v: Session)
    requires ValidConfig(cfg) && Inv(cfg, v)
    requires v.io.FinTry?
    ensures IoNext(v).Some? && Inv(cfg, IoNext(v).value)
  {
    var w := IoNext(v).value;
    assert !v.conn.closed;
    if v.conn.lock {
      CalmMove(cfg, v, w.io);
    }
  }

  lemma GiveAwayInv(cfg: Config, v: Session)
    requires ValidConfig(cfg) && Inv(cfg, v)
    requires v.io.FinSend? || v.io.FinRecv? || v.io.FinClose?
    ensures IoNext(v).Some? && Inv(cfg, IoNext(v).value)
  {
    hide Inv, IoNext;
    if v.io.FinSend? {
      GiveSendInv(cfg, v);
    } else if v.io.FinRecv? {
      GiveRecvInv(cfg, v);
    } else {
      CloseInv(cfg, v);
    }
  }

  lemma GiveSendInv(cfg: Config, v: Session)
    requires Inv(cfg, v) && v.io.FinSend?
    ensures IoNext(v).Some? && Inv(cfg, IoNext(v).value)
  {
  }

  lemma GiveRecvInv(cfg: Config, v: Session)
    requires Inv(cfg, v) && v.io.FinRecv?
    ensures IoNext(v).Some? && Inv(cfg, IoNext(v).value)
  {
  }

  lemma CloseInv(cfg: Config, v: Session)
    requires Inv(cfg, v) && v.io.FinClose?
    ensures IoNext(v).Some? && Inv(cfg, IoNext(v).value)
  {
  }

  lemma DrainInv(cfg: Config, v: Session)
    requires ValidConfig(cfg) && Inv(cfg, v)
    requires v.io.FinDrain? || v.io.FinPut?
    ensures IoNext(v).Some? && Inv(cfg, IoNext(v).value)
  {
    hide Inv, IoNext;
    if v.io.FinDrain? {
      DrainOneInv(cfg, v);
    } else {
      DrainPutInv(cfg, v);
    }
  }

  lemma DrainOneInv(cfg: Config, v: Session)
    requires Inv(cfg, v) && v.io.FinDrain?
    ensures IoNext(v).Some? && Inv(cfg, IoNext(v).value)
  {
    hide Inv;
    if v.sendq == [] {
      DrainedInv(cfg, v);
    } else {
      DrainNextInv(cfg, v);
    }
  }

  lemma DrainedInv(cfg: Config, v: Session)
    requires Inv(cfg, v) && v.io.FinDrain? && v.sendq == []
    ensures Inv(cfg, v.(io := FinDecide(v.io.more)))
  {
  }

  lemma DrainNextInv(cfg: Config, v: Session)
    requires Inv(cfg, v) && v.io.FinDrain? && v.sendq != []
    ensures Inv(cfg, v.(sendq := v.sendq[1..], iohand := [v.sendq[0]], io := FinPut(v.io.more),
                        conn := v.conn.(sent := v.conn.sent + 1)))
  {
  }

  lemma DrainPutInv(cfg: Config, v: Session)
    requires Inv(cfg, v) && v.io.FinPut?
    ensures IoNext(v).Some? && Inv(cfg, IoNext(v).value)
  {
  }

  lemma DecideInv(cfg: Config, v: Session)
    requires ValidConfig(cfg) && Inv(cfg, v)
    requires v.io.FinDecide?
    ensures IoNext(v).Some? && Inv(cfg, IoNext(v).value)
  {
  }

  lemma LeaveInv(cfg: Config, v: Session)
    requires ValidConfig(cfg) && Inv(cfg, v)
    requires (v.io.FinUnlock? || v.io.FinRelease?) && Good(v, IoStep)
    ensures IoNext(v).Some? && Inv(cfg, IoNext(v).value)
  {
  }

  lemma SubStepInv(cfg: Config, v: Session)
    requires ValidConfig(cfg) && Inv(cfg, v)
    requires SubNext(v).Some?
    ensures Inv(cfg, SubNext(v).value)
  {
    if Disposing(v.sub) {
      DisposeStepInv(cfg, v);
    } else {
      SubmitStepInv(cfg, v);
    }
  }

  lemma DisposeStepInv(cfg: Config, v: Session)
    requires ValidConfig(cfg) && Inv(cfg, v)
    requires Disposing(v.sub) && SubNext(v).Some?
    ensures Inv(cfg, SubNext(v).value)
  {
    HeadRoom(cfg, v);
  }

  lemma SubmitStepInv(cfg: Config, v: Session)
    requires ValidConfig(cfg) && Inv(cfg, v)
    requires !Disposing(v.sub) && SubNext(v).Some?
    ensures Inv(cfg, SubNext(v).value)
  {
    match v.sub
    case SubTry => SubTryInv(cfg, v);
    case SubRecycle => SubRecycleInv(cfg, v);
    case SubCount => SubCountInv(cfg, v);
    case SubQueue => SubQueueInv(cfg, v);
    case SubArm => SubArmInv(cfg, v);
    case SubUnlock => SubArmInv(cfg, v);
  }

  lemma SubTryInv(cfg: Config, v: Session)
    requires ValidConfig(cfg) && Inv(cfg, v)
    requires v.sub.SubTry?
    ensures SubNext(v).Some? && Inv(cfg, SubNext(v).value)
  {
    var w := SubNext(v).value;
    assert InService(v);
    assert Upstream(w) == Upstream(v);
    if v.conn.lock {
      assert Shape(w);
      assert Counts(cfg, w);
    } else {
      SubTryGot(cfg, v);
    }
  }

  lemma SubTryGot(cfg: Config, v: Session)
    requires ValidConfig(cfg) && Inv(cfg, v)
    requires v.sub.SubTry? && !v.conn.lock
    ensures Inv(cfg, v.(conn := v.conn.(lock := true), sub := SubCount))
  {
  }

  lemma SubRecycleInv(cfg: Config, v: Session)
    requires ValidConfig(cfg) && Inv(cfg, v)
    requires v.sub.SubRecycle?
    ensures SubNext(v).Some? && Inv(cfg, SubNext(v).value)
  {
  }

  lemma SubCountInv(cfg: Config, v: Session)
    requires ValidConfig(cfg) && Inv(cfg, v)
    requires v.sub.SubCount?
    ensures SubNext(v).Some? && Inv(cfg, SubNext(v).value)
  {
  }

  lemma SubQueueInv(cfg: Config, v: Session)
    requires ValidConfig(cfg) && Inv(cfg, v)
    requires v.sub.SubQueue?
    ensures SubNext(v).Some? && Inv(cfg, SubNext(v).value)
  {
  }

  lemma SubArmInv(cfg: Config, v: Session)
    requires ValidConfig(cfg) && Inv(cfg, v)
    requires v.sub.SubArm? || v.sub.SubUnlock?
    ensures SubNext(v).Some? && Inv(cfg, SubNext(v).value)
  {
  }
}
