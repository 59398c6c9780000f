/** The simulation, act by act. */
module ServerSimulation {
  import opened Rpc
  import E = Epoll
  import opened ServerMachine
  import opened ServerView
  import opened ServerInvariant
  import S = SessionProtocol
  import I = SessionInvariant
  import H = SessionHistory

  // ---------------------------------------------------------------- steps that move nothing

  /** What the IO thread's step must not touch. */
  ghost predicate IoFrame(s: Server, s': Server, t: Tid, c: ConnId)
    requires c in s.conns
  {
    && c in s'.conns && s'.conns == s.conns[c := s'.conns[c]]
    && s'.conns[c].ioidx == s.conns[c].ioidx
    && s'.conns[c].computeidx == s.conns[c].computeidx
    && s'.conns[c].submitidx == s.conns[c].submitidx
    && s'.io == s.io[t := IoThread(c, Io(s', t).pc)]
    && s'.comp == s.comp && s'.sub == s.sub
    && s'.accepting == s.accepting
    && s.conns[c].ioidx == t && (Io(s, t).conn == c || Io(s, t).pc == S.IoIdle)
  }

  ghost predicate CompFrame(s: Server, s': Server, t: Tid, c: ConnId)
    requires c in s.conns
  {
    && s'.conns == s.conns
    && s'.comp == s.comp[t := CompThread(c, Comp(s', t).pc)]
    && s'.io == s.io && s'.sub == s.sub
    && s'.accepting == s.accepting && s'.free == s.free
    && s.conns[c].computeidx == t && (Comp(s, t).conn == c || Comp(s, t).pc == S.CompIdle)
  }

  ghost predicate SubFrame(s: Server, s': Server, t: Tid, c: ConnId)
    requires c in s.conns
  {
    && c in s'.conns && s'.conns == s.conns[c := s'.conns[c]]
    && s'.conns[c].ioidx == s.conns[c].ioidx
    && s'.conns[c].computeidx == s.conns[c].computeidx
    && s'.conns[c].submitidx == s.conns[c].submitidx
    && s'.sub == s.sub[t := SubThread(c, Sub(s', t).pc)]
    && s'.comp == s.comp && s'.io == s.io
    && s'.accepting == s.accepting
    && s.conns[c].submitidx == t && (Sub(s, t).conn == c || Sub(s, t).pc == S.SubIdle)
  }

  lemma FramesOnlyFor(s: Server, s': Server, t: Tid, c: ConnId)
    requires c in s.conns
    requires IoFrame(s, s', t, c) || CompFrame(s, s', t, c) || SubFrame(s, s', t, c)
    ensures OnlyFor(s, s', c)
  {
  }

  lemma RollGrows(s: Server, s': Server, c: ConnId)
    requires s'.accepting == s.accepting && (s'.free == s.free || s'.free == s.free + [c])
    ensures forall d :: d != c ==> SameRoll(s, s', d)
  {
  }

  lemma IoPlain(s: Server, s': Server, t: Tid, c: ConnId)
    requires Struct(s) && c in s.conns && IoFrame(s, s', t, c)
    requires s'.at == s.at && s'.bufs == s.bufs && (s'.free == s.free || s'.free == s.free + [c])
    ensures OnlyFor(s, s', c) && Struct(s')
    ensures forall d :: d in s.conns && d != c ==> View(s', d) == View(s, d)
    ensures View(s', c) == View(s, c).(conn := s'.conns[c], io := Io(s', t).pc, nfree := multiset(s'.free)[c])
  {
    hide Conserved, Placed, Assigned, Proj;
    FramesOnlyFor(s, s', t, c);
    RollGrows(s, s', c);
    PlainStep(s, s', c);
  }

  lemma SubPlain(s: Server, s': Server, t: Tid, c: ConnId)
    requires Struct(s) && c in s.conns && SubFrame(s, s', t, c)
    requires s'.at == s.at && s'.bufs == s.bufs && (s'.free == s.free || s'.free == s.free + [c])
    ensures OnlyFor(s, s', c) && Struct(s')
    ensures forall d :: d in s.conns && d != c ==> View(s', d) == View(s, d)
    ensures View(s', c) == View(s, c).(conn := s'.conns[c], sub := Sub(s', t).pc, nfree := multiset(s'.free)[c])
  {
    hide Conserved, Placed, Assigned, Proj;
    FramesOnlyFor(s, s', t, c);
    RollGrows(s, s', c);
    PlainStep(s, s', c);
  }

  /** The IO thread's steps that move no buffer. */
  predicate PlainIo(s: Server, t: Tid, c: ConnId, a: S.Act)
    requires c in s.conns
  {
    var pc := Io(s, t).pc;
    match a
    case IoRecvAgain => true
    case IoRecvFail => true
    case IoSendAgain => true
    case IoSendFail => true
    case IoStep =>
      !pc.RespPut? && !pc.ReqCount? && !pc.ReqPut? && !pc.FinPut?
      && !(pc.RespTop? && s.conns[c].sendbuf.None? && At(s, SendQueue(c)) != [])
      && !(pc.FinDrain? && At(s, SendQueue(c)) != [])
      && !(pc.FinSend? && s.conns[c].sendbuf.Some?)
      && !(pc.FinRecv? && s.conns[c].recvbuf.Some?)
    case _ => false
  }

  lemma PlainIoFrame(cfg: Config, s: Server, t: Tid, c: ConnId, a: S.Act)
    requires Assigned(s) && c in s.conns && Io(s, t).conn == c && PlainIo(s, t, c, a)
    requires Handler(cfg, s, t, c, a).Some?
    ensures IoFrame(s, Handler(cfg, s, t, c, a).value, t, c)
    ensures var s' := Handler(cfg, s, t, c, a).value;
            s'.at == s.at && s'.bufs == s.bufs && (s'.free == s.free || s'.free == s.free + [c])
  {
    assert Io(s, t).pc != S.IoIdle;
    assert s.conns[c := s.conns[c]] == s.conns;
    if a == S.IoStep {
      PlainStepFrame(cfg, s, Handler(cfg, s, t, c, a).value, t, c);
    }
  }

  lemma PutFrame(s: Server, s1: Server, t: Tid, c: ConnId, k: S.Conn, pc: S.IoPc)
    requires c in s.conns && s.conns[c].ioidx == t && Io(s, t).conn == c
    requires k.ioidx == s.conns[c].ioidx && k.computeidx == s.conns[c].computeidx && k.submitidx == s.conns[c].submitidx
    requires s1 == s || s1 == s.(free := s.free + [c])
    ensures IoFrame(s, PutIo(PutConn(s1, c, k), t, c, pc), t, c)
    ensures IoFrame(s, PutIo(s1, t, c, pc), t, c)
  {
  }

  lemma PlainStepFrame(cfg: Config, s: Server, s': Server, t: Tid, c: ConnId)
    requires c in s.conns && PlainIo(s, t, c, S.IoStep) && s.conns[c].ioidx == t && Io(s, t).conn == c
    requires IoNext(s, t, c) == Some(s')
    ensures PlainPut(s, s', t, c)
  {
    hide PlainPut;
    var pc := Io(s, t).pc;
    if pc.RespTop? || pc.RespCheck? {
      PlainResponse(s, s', t, c);
    } else if pc.RespLock? || pc.RespUnlock? || pc.ReqLock? || pc.ReqUnlock? {
      PlainLock(s, s', t, c);
    } else if pc.FinTry? || pc.FinSend? || pc.FinRecv? || pc.FinClose? {
      PlainClosing(s, s', t, c);
    } else {
      PlainDraining(s, s', t, c);
    }
  }

  ghost predicate PlainPut(s: Server, s': Server, t: Tid, c: ConnId)
    requires c in s.conns
  {
    IoFrame(s, s', t, c) && s'.at == s.at && s'.bufs == s.bufs && (s'.free == s.free || s'.free == s.free + [c])
  }

  lemma PlainResponse(s: Server, s': Server, t: Tid, c: ConnId)
    requires c in s.conns && PlainIo(s, t, c, S.IoStep) && s.conns[c].ioidx == t && Io(s, t).conn == c
    requires (Io(s, t).pc.RespTop? || Io(s, t).pc.RespCheck?) && IoNext(s, t, c) == Some(s')
    ensures PlainPut(s, s', t, c)
  {
    hide PlainPut, IoNext;
    if Io(s, t).pc.RespTop? {
      PlainTop(s, s', t, c);
    } else {
      PlainCheck(s, s', t, c);
    }
  }

  lemma PlainTop(s: Server, s': Server, t: Tid, c: ConnId)
    requires c in s.conns && PlainIo(s, t, c, S.IoStep) && s.conns[c].ioidx == t && Io(s, t).conn == c
    requires Io(s, t).pc.RespTop? && IoNext(s, t, c) == Some(s')
    ensures PlainPut(s, s', t, c)
  {
    hide IoFrame;
    PutFrame(s, s, t, c, s.conns[c], Io(s', t).pc);
  }

  lemma PlainCheck(s: Server, s': Server, t: Tid, c: ConnId)
    requires c in s.conns && s.conns[c].ioidx == t && Io(s, t).conn == c
    requires Io(s, t).pc.RespCheck? && IoNext(s, t, c) == Some(s')
    ensures PlainPut(s, s', t, c)
  {
    hide Wrap64, E.KernelAfter, IoFrame;
    PutFrame(s, s, t, c, s'.conns[c], Io(s', t).pc);
  }

  lemma PlainLock(s: Server, s': Server, t: Tid, c: ConnId)
    requires c in s.conns && PlainIo(s, t, c, S.IoStep) && s.conns[c].ioidx == t && Io(s, t).conn == c
    requires Io(s, t).pc.RespLock? || Io(s, t).pc.RespUnlock? || Io(s, t).pc.ReqLock? || Io(s, t).pc.ReqUnlock?
    requires IoNext(s, t, c) == Some(s')
    ensures PlainPut(s, s', t, c)
  {
    hide IoFrame;
    PutFrame(s, s, t, c, s'.conns[c], Io(s', t).pc);
  }

  lemma PlainClosing(s: Server, s': Server, t: Tid, c: ConnId)
    requires c in s.conns && PlainIo(s, t, c, S.IoStep) && s.conns[c].ioidx == t && Io(s, t).conn == c
    requires IoNext(s, t, c) == Some(s')
    requires Io(s, t).pc.FinTry? || Io(s, t).pc.FinSend? || Io(s, t).pc.FinRecv? || Io(s, t).pc.FinClose?
    ensures PlainPut(s, s', t, c)
  {
    hide IoFrame;
    PutFrame(s, s, t, c, s'.conns[c], Io(s', t).pc);
  }

  lemma PlainDraining(s: Server, s': Server, t: Tid, c: ConnId)
    requires c in s.conns && PlainIo(s, t, c, S.IoStep) && s.conns[c].ioidx == t && Io(s, t).conn == c
    requires IoNext(s, t, c) == Some(s')
    requires Io(s, t).pc.FinDrain? || Io(s, t).pc.FinDecide? || Io(s, t).pc.FinUnlock? || Io(s, t).pc.FinRelease?
    ensures PlainPut(s, s', t, c)
  {
    hide Wrap64, IoFrame;
    PutFrame(s, if Io(s, t).pc.FinRelease? then s.(free := s.free + [c]) else s, t, c, s'.conns[c], Io(s', t).pc);
  }

  lemma EmptyShows(s: Server, p: Place, c: ConnId)
    requires At(s, p) == []
    ensures Q(s, p, c) == []
  {
  }

  /** The plain steps are the same function of the connection and the pc. */
  ghost predicate SameStep(cfg: Config, s: Server, s': Server, t: Tid, c: ConnId, a: S.Act)
    requires c in s.conns
  {
    c in s'.conns &&
    S.Next(cfg, View(s, c), a) ==
    Some(View(s, c).(conn := s'.conns[c], io := Io(s', t).pc, nfree := multiset(s'.free)[c]))
  }

  lemma PlainIoSame(cfg: Config, s: Server, t: Tid, c: ConnId, a: S.Act)
    requires Assigned(s) && c in s.conns && Io(s, t).conn == c && PlainIo(s, t, c, a)
    requires Handler(cfg, s, t, c, a).Some? && I.Inv(cfg, View(s, c))
    ensures SameStep(cfg, s, Handler(cfg, s, t, c, a).value, t, c, a)
  {
    hide Wrap64, Q, I.Inv, IoNext, S.IoNext, Assigned;
    if a == S.IoStep { PlainPcs(s, t, c); }
    BusyView(s, t, c, a);
    if a == S.IoStep {
      var s' := Handler(cfg, s, t, c, a).value;
      var pc := Io(s, t).pc;
      if pc.RespTop? || pc.RespCheck? {
        SameResponse(cfg, s, s', t, c);
      } else if pc.RespLock? || pc.RespUnlock? || pc.ReqLock? || pc.ReqUnlock? {
        SameLock(cfg, s, s', t, c);
      } else if pc.FinTry? || pc.FinSend? || pc.FinRecv? || pc.FinClose? {
        SameClosing(cfg, s, s', t, c);
      } else {
        SameDraining(cfg, s, s', t, c);
      }
    }
  }

  lemma PlainPcs(s: Server, t: Tid, c: ConnId)
    requires c in s.conns && PlainIo(s, t, c, S.IoStep) && IoNext(s, t, c).Some?
    ensures var pc := Io(s, t).pc;
            || pc.RespTop? || pc.RespCheck? || pc.RespLock? || pc.RespUnlock? || pc.ReqLock? || pc.ReqUnlock?
            || pc.FinTry? || pc.FinSend? || pc.FinRecv? || pc.FinClose?
            || pc.FinDrain? || pc.FinDecide? || pc.FinUnlock? || pc.FinRelease?
  {
  }

  lemma BusyView(s: Server, t: Tid, c: ConnId, a: S.Act)
    requires Assigned(s) && c in s.conns && Io(s, t).conn == c && Io(s, t).pc != S.IoIdle
    ensures View(s, c).io == Io(s, t).pc && View(s, c).conn == s.conns[c] && s.conns[c].ioidx == t
  {
    hide Q;
  }

  lemma SameResponse(cfg: Config, s: Server, s': Server, t: Tid, c: ConnId)
    requires c in s.conns && View(s, c).io == Io(s, t).pc && PlainIo(s, t, c, S.IoStep)
    requires (Io(s, t).pc.RespTop? || Io(s, t).pc.RespCheck?) && IoNext(s, t, c) == Some(s')
    ensures SameStep(cfg, s, s', t, c, S.IoStep)
  {
  }

  lemma SameLock(cfg: Config, s: Server, s': Server, t: Tid, c: ConnId)
    requires c in s.conns && View(s, c).io == Io(s, t).pc && IoNext(s, t, c) == Some(s')
    requires Io(s, t).pc.RespLock? || Io(s, t).pc.RespUnlock? || Io(s, t).pc.ReqLock? || Io(s, t).pc.ReqUnlock?
    ensures SameStep(cfg, s, s', t, c, S.IoStep)
  {
    hide Q;
  }

  lemma SameClosing(cfg: Config, s: Server, s': Server, t: Tid, c: ConnId)
    requires c in s.conns && View(s, c).io == Io(s, t).pc && PlainIo(s, t, c, S.IoStep) && I.Inv(cfg, View(s, c))
    requires Io(s, t).pc.FinTry? || Io(s, t).pc.FinSend? || Io(s, t).pc.FinRecv? || Io(s, t).pc.FinClose?
    requires IoNext(s, t, c) == Some(s')
    ensures SameStep(cfg, s, s', t, c, S.IoStep)
  {
    hide Q, I.Inv;
    PlainShape(cfg, View(s, c));
  }

  lemma SameDraining(cfg: Config, s: Server, s': Server, t: Tid, c: ConnId)
    requires c in s.conns && View(s, c).io == Io(s, t).pc && PlainIo(s, t, c, S.IoStep)
    requires Io(s, t).pc.FinDrain? || Io(s, t).pc.FinDecide? || Io(s, t).pc.FinUnlock? || Io(s, t).pc.FinRelease?
    requires IoNext(s, t, c) == Some(s')
    ensures SameStep(cfg, s, s', t, c, S.IoStep)
  {
    hide Wrap64, Q;
    if At(s, SendQueue(c)) == [] { EmptyShows(s, SendQueue(c), c); }
  }

  lemma PlainShape(cfg: Config, v: S.Session)
    requires I.Inv(cfg, v)
    ensures v.io.FinSend? && v.conn.sendbuf.None? ==> v.send == []
    ensures v.io.FinRecv? && v.conn.recvbuf.None? ==> v.recv == []
  {
  }

  lemma PlainIoSim(cfg: Config, s: Server, t: Tid, c: ConnId, a: S.Act)
    requires Inv(cfg, s) && c in s.conns && Io(s, t).conn == c && PlainIo(s, t, c, a)
    requires Handler(cfg, s, t, c, a).Some?
    ensures Sim(cfg, s, Handler(cfg, s, t, c, a).value, c, a)
  {
    hide Conserved, Placed, Assigned, View, Handler, S.Next, I.Inv, H.Faithful;
    assert I.Inv(cfg, View(s, c));
    PlainIoFrame(cfg, s, t, c, a);
    IoPlain(s, Handler(cfg, s, t, c, a).value, t, c);
    PlainIoSame(cfg, s, t, c, a);
  }

  // ---------------------------------------------------------------- steps that move a buffer

  lemma ShiftIs(s: Server, s': Server, p: Place, q: Place)
    requires p != q && At(s, p) != [] && s'.at == Shift(s, p, q).at
    ensures Shifted(s, s', p, q)
  {
  }

  lemma ReleaseIs(s: Server, s': Server, slot: Place, q: Place, b: Buf)
    requires slot != q && At(s, slot) == [b] && s'.at == Release(s, slot, q, b).at
    ensures Shifted(s, s', slot, q)
  {
  }

  lemma SingleShape(v: S.Session)
    requires I.Shape(v) || I.Quiet(v)
    ensures |v.iohand| <= 1 && |v.chand| <= 1 && |v.shand| <= 1 && |v.recv| <= 1 && |v.send| <= 1
    ensures Lone(v.iohand) && Lone(v.chand) && Lone(v.shand) && Lone(v.recv) && Lone(v.send)
    ensures Joins(v.cin, v.iohand) && Joins(v.sin, v.chand) && Joins(v.sin, v.shand) && Joins(v.sendq, v.shand)
  {
  }

  predicate Lone(h: seq<S.Item>) { |h| == 1 ==> h == [h[0]] && h[1..] == [] }

  predicate Joins(stage: seq<S.Item>, h: seq<S.Item>) { stage == [] ==> stage + h == h }

  /** One item less in front, or one more behind. */
  lemma Single(v: S.Session, cfg: Config)
    requires I.Inv(cfg, v)
    ensures |v.iohand| <= 1 && |v.chand| <= 1 && |v.shand| <= 1 && |v.recv| <= 1 && |v.send| <= 1
    ensures I.InService(v) && v.conn.sendbuf.Some? && !v.conn.closed && !I.SendGone(v.io) ==>
              |v.send| == 1 && v.send[0].id == v.conn.sendbuf.value
    ensures I.InService(v) && v.conn.recvbuf.Some? && !v.conn.closed && !I.RecvGone(v.io) ==>
              |v.recv| == 1 && v.recv[0].id == v.conn.recvbuf.value
    ensures v.io != S.IoIdle ==> I.InService(v)
    ensures v.io != S.IoIdle && !v.io.FinUnlock? && !v.io.FinRelease? ==> !v.conn.closed
    ensures v.conn.sendbuf.None? && I.InService(v) ==> v.send == []
    ensures v.conn.recvbuf.None? && I.InService(v) ==> v.recv == []
    ensures !I.HasIoHand(v.io) ==> v.iohand == []
    ensures v.comp == S.CompIdle ==> v.chand == []
    ensures Lone(v.iohand) && Lone(v.chand) && Lone(v.shand) && Lone(v.recv) && Lone(v.send)
    ensures Joins(v.cin, v.iohand) && Joins(v.sin, v.chand) && Joins(v.sin, v.shand) && Joins(v.sendq, v.shand)
    ensures v.sub == S.SubIdle ==> v.shand == []
  {
    hide Lone, Joins, I.Wakeups;
    SingleShape(v);
  }

  function Tail(q: seq<S.Item>): seq<S.Item> { if q == [] then [] else q[1..] }
  function Grown(q: seq<S.Item>, it: S.Item): seq<S.Item> { if q == [] then [it] else q + [it] }

  lemma FromIoHand(v: S.Session, c: ConnId, it: S.Item)
    ensures ShiftView(v, c, IoHand(v.conn.ioidx), Pool, it) == v.(iohand := Tail(v.iohand))
  {
  }

  lemma ToCompute(v: S.Session, c: ConnId, it: S.Item)
    ensures ShiftView(v, c, IoHand(v.conn.ioidx), ComputeInbox(v.conn.computeidx), it)
            == v.(iohand := Tail(v.iohand), cin := Grown(v.cin, it))
  {
  }

  lemma FromSendQueue(v: S.Session, c: ConnId, it: S.Item)
    ensures ShiftView(v, c, SendQueue(c), IoHand(v.conn.ioidx), it)
            == v.(sendq := Tail(v.sendq), iohand := Grown(v.iohand, it))
  {
  }

  lemma FromPool(v: S.Session, c: ConnId, it: S.Item)
    ensures ShiftView(v, c, Pool, RecvSlot(c), it) == v.(recv := Grown(v.recv, it))
  {
  }

  lemma FromComputeInbox(v: S.Session, c: ConnId, it: S.Item)
    ensures ShiftView(v, c, ComputeInbox(v.conn.computeidx), ComputeHand(v.conn.computeidx), it)
            == v.(cin := Tail(v.cin), chand := Grown(v.chand, it))
  {
  }

  lemma FromSubmitInbox(v: S.Session, c: ConnId, it: S.Item)
    ensures ShiftView(v, c, SubmitInbox(v.conn.submitidx), SubmitHand(v.conn.submitidx), it)
            == v.(sin := Tail(v.sin), shand := Grown(v.shand, it))
  {
  }

  lemma FromSubmitHand(v: S.Session, c: ConnId, it: S.Item)
    ensures ShiftView(v, c, SubmitHand(v.conn.submitidx), Pool, it) == v.(shand := Tail(v.shand))
  {
  }

  lemma ToSubmitInbox(v: S.Session, c: ConnId, it: S.Item)
    ensures ShiftView(v, c, SubmitHand(v.conn.submitidx), SubmitInbox(v.conn.submitidx), it)
            == v.(shand := Tail(v.shand), sin := Grown(v.sin, it))
  {
  }

  lemma ToSendQueue(v: S.Session, c: ConnId, it: S.Item)
    ensures ShiftView(v, c, SubmitHand(v.conn.submitidx), SendQueue(c), it)
            == v.(shand := Tail(v.shand), sendq := Grown(v.sendq, it))
  {
  }

  lemma ToSendSlot(v: S.Session, c: ConnId, it: S.Item)
    ensures ShiftView(v, c, SendQueue(c), SendSlot(c), it) == v.(sendq := Tail(v.sendq), send := Grown(v.send, it))
  {
  }

  lemma FromSendSlot(v: S.Session, c: ConnId, it: S.Item)
    ensures ShiftView(v, c, SendSlot(c), Pool, it) == v.(send := Tail(v.send))
  {
  }

  lemma FromRecvSlot(v: S.Session, c: ConnId, it: S.Item)
    ensures ShiftView(v, c, RecvSlot(c), Pool, it) == v.(recv := Tail(v.recv))
  {
  }

  lemma FromRecvToHand(v: S.Session, c: ConnId, it: S.Item)
    ensures ShiftView(v, c, RecvSlot(c), IoHand(v.conn.ioidx), it)
            == v.(recv := Tail(v.recv), iohand := Grown(v.iohand, it))
  {
  }

  lemma FromSendToHand(v: S.Session, c: ConnId, it: S.Item)
    ensures ShiftView(v, c, SendSlot(c), IoHand(v.conn.ioidx), it)
            == v.(send := Tail(v.send), iohand := Grown(v.iohand, it))
  {
  }

  lemma ToSubmit(v: S.Session, c: ConnId, it: S.Item)
    ensures ShiftView(v, c, ComputeHand(v.conn.computeidx), SubmitInbox(v.conn.submitidx), it)
            == v.(chand := Tail(v.chand), sin := Grown(v.sin, it))
  {
  }

  lemma CompTakeIs(cfg: Config, v: S.Session)
    requires v.comp == S.CompIdle && v.cin != []
    ensures S.Next(cfg, v, S.CompTake) == Some(v.(cin := v.cin[1..], chand := [v.cin[0]], comp := S.CompWork))
  {
  }

  lemma SubTakeIs(cfg: Config, v: S.Session)
    requires v.sub == S.SubIdle && v.sin != []
    ensures S.Next(cfg, v, S.SubTake) == Some(v.(sin := v.sin[1..], shand := [v.sin[0]], sub := S.SubTry))
  {
  }

  lemma ActSteps(cfg: Config, v: S.Session)
    ensures S.Next(cfg, v, S.IoStep) == S.IoNext(v)
    ensures S.Next(cfg, v, S.CompStep) == S.CompNext(cfg, v)
    ensures S.Next(cfg, v, S.SubStep) == S.SubNext(v)
  {
  }

  /** What is known of a view before a step. */
  ghost predicate Known(cfg: Config, s: Server, c: ConnId)
    requires c in s.conns
  {
    I.Inv(cfg, View(s, c)) && View(s, c).conn == s.conns[c]
  }

  /** `it` is the first item of the stage kept at p. */
  predicate HeadIs(v: S.Session, c: ConnId, p: Place, it: S.Item) {
    && (p == RecvSlot(c) ==> v.recv != [] && v.recv[0] == it)
    && (p == SendSlot(c) ==> v.send != [] && v.send[0] == it)
    && (p == SendQueue(c) ==> v.sendq != [] && v.sendq[0] == it)
    && (p == ComputeInbox(v.conn.computeidx) ==> v.cin != [] && v.cin[0] == it)
    && (p == ComputeHand(v.conn.computeidx) ==> v.chand != [] && v.chand[0] == it)
    && (p == SubmitInbox(v.conn.submitidx) ==> v.sin != [] && v.sin[0] == it)
    && (p == SubmitHand(v.conn.submitidx) ==> v.shand != [] && v.shand[0] == it)
    && (p == IoHand(v.conn.ioidx) ==> v.iohand != [] && v.iohand[0] == it)
  }

  lemma HeadOfView(s: Server, c: ConnId, p: Place, it: S.Item)
    requires c in s.conns && Q(s, p, c) != [] && Q(s, p, c)[0] == it
    ensures HeadIs(View(s, c), c, p, it)
  {
    hide Q;
  }

  /** What the IO thread's move of a buffer makes of its connection's view. */
  lemma IoMoved(cfg: Config, s: Server, s': Server, t: Tid, c: ConnId, p: Place, q: Place, x: Buf, it: S.Item)
    requires Inv(cfg, s) && c in s.conns && IoFrame(s, s', t, c) && Moves(s, s', c, p, q, x, it)
    ensures s.conns[c].ioidx == t
    ensures s'.conns.Keys == s.conns.Keys && s'.bufs.Keys == s.bufs.Keys && Struct(s')
    ensures forall d :: d in s.conns && d != c ==> View(s', d) == View(s, d)
    ensures Known(cfg, s, c) && View(s, c).io == (if Io(s, t).conn == c then Io(s, t).pc else S.IoIdle)
    ensures p != Pool ==> x in s.bufs && HeadIs(View(s, c), c, p, ItemOf(x, s.bufs[x]))
    ensures View(s', c) == ShiftView(View(s, c), c, p, q, it).(conn := s'.conns[c], io := Io(s', t).pc)
  {
    hide Struct, Q, I.Inv, H.Faithful, ItemOf, ShiftView, HeadIs;
    ShiftInView(s, s', c, p, q, x, it);
    if p != Pool { HeadOfView(s, c, p, ItemOf(x, s.bufs[x])); }
  }

  lemma IoWrote(cfg: Config, s: Server, s': Server, t: Tid, c: ConnId, p: Place, x: Buf, it: S.Item)
    requires Inv(cfg, s) && c in s.conns && IoFrame(s, s', t, c) && Writes(s, s', c, p, x, it)
    ensures s.conns[c].ioidx == t
    ensures s'.conns.Keys == s.conns.Keys && s'.bufs.Keys == s.bufs.Keys && Struct(s')
    ensures forall d :: d in s.conns && d != c ==> View(s', d) == View(s, d)
    ensures Known(cfg, s, c) && View(s, c).io == (if Io(s, t).conn == c then Io(s, t).pc else S.IoIdle)
    ensures x in s.bufs && HeadIs(View(s, c), c, p, ItemOf(x, s.bufs[x]))
    ensures View(s', c) == WriteView(View(s, c), c, p, it).(conn := s'.conns[c], io := Io(s', t).pc)
  {
    hide Struct, Q, I.Inv, H.Faithful, ItemOf, WriteView, HeadIs;
    WriteInView(s, s', c, p, x, it);
    HeadOfView(s, c, p, ItemOf(x, s.bufs[x]));
  }

  /** What a compute thread's move of a buffer makes of its connection's view. */
  lemma CompMoved(cfg: Config, s: Server, s': Server, t: Tid, c: ConnId, p: Place, q: Place, x: Buf, it: S.Item)
    requires Inv(cfg, s) && c in s.conns && CompFrame(s, s', t, c) && Moves(s, s', c, p, q, x, it)
    ensures s.conns[c].computeidx == t
    ensures s'.conns.Keys == s.conns.Keys && s'.bufs.Keys == s.bufs.Keys && Struct(s')
    ensures forall d :: d in s.conns && d != c ==> View(s', d) == View(s, d)
    ensures Known(cfg, s, c) && View(s, c).comp == (if Comp(s, t).conn == c then Comp(s, t).pc else S.CompIdle)
    ensures p != Pool ==> x in s.bufs && HeadIs(View(s, c), c, p, ItemOf(x, s.bufs[x]))
    ensures View(s', c) == ShiftView(View(s, c), c, p, q, it).(conn := s'.conns[c], comp := Comp(s', t).pc)
  {
    hide Struct, Q, I.Inv, H.Faithful, ItemOf, ShiftView, HeadIs;
    ShiftInView(s, s', c, p, q, x, it);
    if p != Pool { HeadOfView(s, c, p, ItemOf(x, s.bufs[x])); }
  }

  lemma CompWrote(cfg: Config, s: Server, s': Server, t: Tid, c: ConnId, p: Place, x: Buf, it: S.Item)
    requires Inv(cfg, s) && c in s.conns && CompFrame(s, s', t, c) && Writes(s, s', c, p, x, it)
    ensures s.conns[c].computeidx == t
    ensures s'.conns.Keys == s.conns.Keys && s'.bufs.Keys == s.bufs.Keys && Struct(s')
    ensures forall d :: d in s.conns && d != c ==> View(s', d) == View(s, d)
    ensures Known(cfg, s, c) && View(s, c).comp == (if Comp(s, t).conn == c then Comp(s, t).pc else S.CompIdle)
    ensures x in s.bufs && HeadIs(View(s, c), c, p, ItemOf(x, s.bufs[x]))
    ensures View(s', c) == WriteView(View(s, c), c, p, it).(conn := s'.conns[c], comp := Comp(s', t).pc)
  {
    hide Struct, Q, I.Inv, H.Faithful, ItemOf, WriteView, HeadIs;
    WriteInView(s, s', c, p, x, it);
    HeadOfView(s, c, p, ItemOf(x, s.bufs[x]));
  }

  /** What a submitter's move of a buffer makes of its connection's view. */
  lemma SubMoved(cfg: Config, s: Server, s': Server, t: Tid, c: ConnId, p: Place, q: Place, x: Buf, it: S.Item)
    requires Inv(cfg, s) && c in s.conns && SubFrame(s, s', t, c) && Moves(s, s', c, p, q, x, it)
    ensures s.conns[c].submitidx == t
    ensures s'.conns.Keys == s.conns.Keys && s'.bufs.Keys == s.bufs.Keys && Struct(s')
    ensures forall d :: d in s.conns && d != c ==> View(s', d) == View(s, d)
    ensures Known(cfg, s, c) && View(s, c).sub == (if Sub(s, t).conn == c then Sub(s, t).pc else S.SubIdle)
    ensures p != Pool ==> x in s.bufs && HeadIs(View(s, c), c, p, ItemOf(x, s.bufs[x]))
    ensures View(s', c) == ShiftView(View(s, c), c, p, q, it).(conn := s'.conns[c], sub := Sub(s', t).pc)
  {
    hide Struct, Q, I.Inv, H.Faithful, ItemOf, ShiftView, HeadIs;
    ShiftInView(s, s', c, p, q, x, it);
    if p != Pool { HeadOfView(s, c, p, ItemOf(x, s.bufs[x])); }
  }

  /** handle_response takes a response from the send queue. */
  lemma AttachMoves(cfg: Config, s: Server, s': Server, t: Tid, c: ConnId)
    requires Inv(cfg, s) && c in s.conns && Io(s, t).conn == c
    requires Io(s, t).pc.RespTop? && s.conns[c].sendbuf.None? && At(s, SendQueue(c)) != []
    requires IoNext(s, t, c) == Some(s')
    ensures IoFrame(s, s', t, c)
    ensures var x := At(s, SendQueue(c))[0];
            x in s.bufs && Moves(s, s', c, SendQueue(c), SendSlot(c), x, ItemOf(x, s.bufs[x]).(left := RESPONSE_SIZE))
  {
    hide Conserved, Proj, Sessions;
    SlotOwned(s, c, SendQueue(c));
    ShiftIs(s, s', SendQueue(c), SendSlot(c));
    FramesOnlyFor(s, s', t, c);
  }

  lemma AttachSim(cfg: Config, s: Server, s': Server, t: Tid, c: ConnId)
    requires Inv(cfg, s) && c in s.conns && Io(s, t).conn == c
    requires Io(s, t).pc.RespTop? && s.conns[c].sendbuf.None? && At(s, SendQueue(c)) != []
    requires IoNext(s, t, c) == Some(s')
    ensures Sim(cfg, s, s', c, S.IoStep)
  {
    hide ShiftView, S.Next, Struct, Sessions, View, Q, I.Inv, H.Faithful, Moves, Writes, IoFrame;
    var x := At(s, SendQueue(c))[0];
    AttachMoves(cfg, s, s', t, c);
    IoMoved(cfg, s, s', t, c, SendQueue(c), SendSlot(c), x, ItemOf(x, s.bufs[x]).(left := RESPONSE_SIZE));
    ToSendSlot(View(s, c), c, ItemOf(x, s.bufs[x]).(left := RESPONSE_SIZE));
    Single(View(s, c), cfg);
    ActSteps(cfg, View(s, c));
  }

  /** A sent response goes back to the pool. */
  lemma RespPutMoves(cfg: Config, s: Server, s': Server, t: Tid, c: ConnId)
    requires Inv(cfg, s) && c in s.conns && Io(s, t).conn == c
    requires (Io(s, t).pc.RespPut? || Io(s, t).pc.FinPut?) && At(s, IoHand(t)) != []
    requires IoNext(s, t, c) == Some(s')
    ensures IoFrame(s, s', t, c)
    ensures var x := At(s, IoHand(t))[0];
            x in s.bufs && Moves(s, s', c, IoHand(t), Pool, x, ItemOf(x, s.bufs[x]))
  {
    hide Conserved, Placed, Assigned, Sessions;
    IoHandOwned(cfg, s, t);
    assert s.conns[c := s.conns[c]] == s.conns;
    ShiftIs(s, s', IoHand(t), Pool);
    FramesOnlyFor(s, s', t, c);
  }

  lemma RespPutSim(cfg: Config, s: Server, s': Server, t: Tid, c: ConnId)
    requires Inv(cfg, s) && c in s.conns && Io(s, t).conn == c
    requires Io(s, t).pc.RespPut? && At(s, IoHand(t)) != []
    requires IoNext(s, t, c) == Some(s')
    ensures Sim(cfg, s, s', c, S.IoStep)
  {
    hide ShiftView, S.Next, Struct, Sessions, View, Q, I.Inv, H.Faithful, Moves, Writes, IoFrame;
    var x := At(s, IoHand(t))[0];
    RespPutMoves(cfg, s, s', t, c);
    IoMoved(cfg, s, s', t, c, IoHand(t), Pool, x, ItemOf(x, s.bufs[x]));
    FromIoHand(View(s, c), c, ItemOf(x, s.bufs[x]));
    Single(View(s, c), cfg);
    ActSteps(cfg, View(s, c));
  }

  lemma FinPutSim(cfg: Config, s: Server, s': Server, t: Tid, c: ConnId)
    requires Inv(cfg, s) && c in s.conns && Io(s, t).conn == c
    requires Io(s, t).pc.FinPut? && At(s, IoHand(t)) != []
    requires IoNext(s, t, c) == Some(s')
    ensures Sim(cfg, s, s', c, S.IoStep)
  {
    hide ShiftView, S.Next, Struct, Sessions, View, Q, I.Inv, H.Faithful, Moves, Writes, IoFrame;
    var x := At(s, IoHand(t))[0];
    RespPutMoves(cfg, s, s', t, c);
    IoMoved(cfg, s, s', t, c, IoHand(t), Pool, x, ItemOf(x, s.bufs[x]));
    FromIoHand(View(s, c), c, ItemOf(x, s.bufs[x]));
    Single(View(s, c), cfg);
    ActSteps(cfg, View(s, c));
  }

  /** A counted request goes to the compute stage. */
  lemma ReqPutMoves(cfg: Config, s: Server, s': Server, t: Tid, c: ConnId)
    requires Inv(cfg, s) && c in s.conns && Io(s, t).conn == c
    requires Io(s, t).pc == S.ReqPut && At(s, IoHand(t)) != []
    requires IoNext(s, t, c) == Some(s')
    ensures IoFrame(s, s', t, c)
    ensures var x := At(s, IoHand(t))[0];
            x in s.bufs && Moves(s, s', c, IoHand(t), ComputeInbox(s.conns[c].computeidx), x, ItemOf(x, s.bufs[x]))
  {
    hide Conserved, Placed, Assigned, Sessions;
    IoHandOwned(cfg, s, t);
    assert s.conns[c := s.conns[c]] == s.conns;
    ShiftIs(s, s', IoHand(t), ComputeInbox(s.conns[c].computeidx));
    FramesOnlyFor(s, s', t, c);
  }

  lemma ReqPutSim(cfg: Config, s: Server, s': Server, t: Tid, c: ConnId)
    requires Inv(cfg, s) && c in s.conns && Io(s, t).conn == c
    requires Io(s, t).pc == S.ReqPut && At(s, IoHand(t)) != []
    requires IoNext(s, t, c) == Some(s')
    ensures Sim(cfg, s, s', c, S.IoStep)
  {
    hide ShiftView, S.Next, Struct, Sessions, View, Q, I.Inv, H.Faithful, Moves, Writes, IoFrame;
    var x := At(s, IoHand(t))[0];
    ReqPutMoves(cfg, s, s', t, c);
    IoMoved(cfg, s, s', t, c, IoHand(t), ComputeInbox(s.conns[c].computeidx), x, ItemOf(x, s.bufs[x]));
    ToCompute(View(s, c), c, ItemOf(x, s.bufs[x]));
    Single(View(s, c), cfg);
    ActSteps(cfg, View(s, c));
  }

  /** finish_connection drains the send queue. */
  lemma DrainMoves(cfg: Config, s: Server, s': Server, t: Tid, c: ConnId)
    requires Inv(cfg, s) && c in s.conns && Io(s, t).conn == c
    requires Io(s, t).pc.FinDrain? && At(s, SendQueue(c)) != []
    requires IoNext(s, t, c) == Some(s')
    ensures IoFrame(s, s', t, c)
    ensures var x := At(s, SendQueue(c))[0];
            x in s.bufs && Moves(s, s', c, SendQueue(c), IoHand(t), x, ItemOf(x, s.bufs[x]))
  {
    hide Conserved, Proj, Sessions;
    SlotOwned(s, c, SendQueue(c));
    ShiftIs(s, s', SendQueue(c), IoHand(t));
    FramesOnlyFor(s, s', t, c);
  }

  lemma DrainSim(cfg: Config, s: Server, s': Server, t: Tid, c: ConnId)
    requires Inv(cfg, s) && c in s.conns && Io(s, t).conn == c
    requires Io(s, t).pc.FinDrain? && At(s, SendQueue(c)) != []
    requires IoNext(s, t, c) == Some(s')
    ensures Sim(cfg, s, s', c, S.IoStep)
  {
    hide ShiftView, S.Next, Struct, Sessions, View, Q, I.Inv, H.Faithful, Moves, Writes, IoFrame;
    var x := At(s, SendQueue(c))[0];
    DrainMoves(cfg, s, s', t, c);
    IoMoved(cfg, s, s', t, c, SendQueue(c), IoHand(t), x, ItemOf(x, s.bufs[x]));
    FromSendQueue(View(s, c), c, ItemOf(x, s.bufs[x]));
    Single(View(s, c), cfg);
    ActSteps(cfg, View(s, c));
  }

  /** While a buffer field owns a buffer, it is the one it points at. */
  lemma SlotLive(cfg: Config, s: Server, t: Tid, c: ConnId)
    requires Inv(cfg, s) && c in s.conns && Io(s, t).conn == c && Io(s, t).pc != S.IoIdle
    requires !Io(s, t).pc.FinUnlock? && !Io(s, t).pc.FinRelease?
    ensures s.conns[c].ioidx == t
    ensures s.conns[c].sendbuf.Some? && !I.SendGone(Io(s, t).pc) ==>
              At(s, SendSlot(c)) == [s.conns[c].sendbuf.value] && Mine(s, s.conns[c].sendbuf.value, c)
    ensures s.conns[c].recvbuf.Some? && !I.RecvGone(Io(s, t).pc) ==>
              At(s, RecvSlot(c)) == [s.conns[c].recvbuf.value] && Mine(s, s.conns[c].recvbuf.value, c)
  {
    hide Conserved, Proj, Q, I.Inv, H.Faithful, Placed;
    assert I.Inv(cfg, View(s, c));
    Single(View(s, c), cfg);
    SlotOwned(s, c, SendSlot(c));
    SlotOwned(s, c, RecvSlot(c));
  }

  predicate Mine(s: Server, b: Buf, c: ConnId) { b in s.bufs && s.bufs[b].conn == c }

  /** handle_request counts a request and detaches its buffer. */
  lemma CountMoves(cfg: Config, s: Server, s': Server, t: Tid, c: ConnId)
    requires Inv(cfg, s) && c in s.conns && Io(s, t).conn == c
    requires Io(s, t).pc == S.ReqCount && s.conns[c].recvbuf.Some?
    requires IoNext(s, t, c) == Some(s')
    ensures IoFrame(s, s', t, c)
    ensures var x := s.conns[c].recvbuf.value;
            x in s.bufs && Moves(s, s', c, RecvSlot(c), IoHand(t), x, ItemOf(x, s.bufs[x]))
  {
    hide Conserved, Placed, Assigned, Sessions;
    SlotLive(cfg, s, t, c);
    ReleaseIs(s, s', RecvSlot(c), IoHand(t), s.conns[c].recvbuf.value);
    FramesOnlyFor(s, s', t, c);
  }

  lemma CountSim(cfg: Config, s: Server, s': Server, t: Tid, c: ConnId)
    requires Inv(cfg, s) && c in s.conns && Io(s, t).conn == c
    requires Io(s, t).pc == S.ReqCount && s.conns[c].recvbuf.Some?
    requires IoNext(s, t, c) == Some(s')
    ensures Sim(cfg, s, s', c, S.IoStep)
  {
    hide ShiftView, S.Next, Struct, Sessions, View, Q, I.Inv, H.Faithful, Moves, Writes, IoFrame;
    var x := s.conns[c].recvbuf.value;
    CountMoves(cfg, s, s', t, c);
    IoMoved(cfg, s, s', t, c, RecvSlot(c), IoHand(t), x, ItemOf(x, s.bufs[x]));
    FromRecvToHand(View(s, c), c, ItemOf(x, s.bufs[x]));
    Single(View(s, c), cfg);
    ActSteps(cfg, View(s, c));
  }

  /** finish_connection gives sendbuf back, and then recvbuf. */
  lemma GiveSendMoves(cfg: Config, s: Server, s': Server, t: Tid, c: ConnId)
    requires Inv(cfg, s) && c in s.conns && Io(s, t).conn == c
    requires Io(s, t).pc.FinSend? && s.conns[c].sendbuf.Some?
    requires IoNext(s, t, c) == Some(s')
    ensures IoFrame(s, s', t, c)
    ensures var x := s.conns[c].sendbuf.value;
            x in s.bufs && Moves(s, s', c, SendSlot(c), Pool, x, ItemOf(x, s.bufs[x]))
  {
    hide Conserved, Placed, Assigned, Sessions;
    assert s.conns[c := s.conns[c]] == s.conns;
    SlotLive(cfg, s, t, c);
    ReleaseIs(s, s', SendSlot(c), Pool, s.conns[c].sendbuf.value);
    FramesOnlyFor(s, s', t, c);
  }

  lemma GiveSendSim(cfg: Config, s: Server, s': Server, t: Tid, c: ConnId)
    requires Inv(cfg, s) && c in s.conns && Io(s, t).conn == c
    requires Io(s, t).pc.FinSend? && s.conns[c].sendbuf.Some?
    requires IoNext(s, t, c) == Some(s')
    ensures Sim(cfg, s, s', c, S.IoStep)
  {
    hide ShiftView, S.Next, Struct, Sessions, View, Q, I.Inv, H.Faithful, Moves, Writes, IoFrame;
    var x := s.conns[c].sendbuf.value;
    GiveSendMoves(cfg, s, s', t, c);
    IoMoved(cfg, s, s', t, c, SendSlot(c), Pool, x, ItemOf(x, s.bufs[x]));
    FromSendSlot(View(s, c), c, ItemOf(x, s.bufs[x]));
    Single(View(s, c), cfg);
    ActSteps(cfg, View(s, c));
  }

  lemma GiveRecvMoves(cfg: Config, s: Server, s': Server, t: Tid, c: ConnId)
    requires Inv(cfg, s) && c in s.conns && Io(s, t).conn == c
    requires Io(s, t).pc.FinRecv? && s.conns[c].recvbuf.Some?
    requires IoNext(s, t, c) == Some(s')
    ensures IoFrame(s, s', t, c)
    ensures var x := s.conns[c].recvbuf.value;
            x in s.bufs && Moves(s, s', c, RecvSlot(c), Pool, x, ItemOf(x, s.bufs[x]))
  {
    hide Conserved, Placed, Assigned, Sessions;
    assert s.conns[c := s.conns[c]] == s.conns;
    SlotLive(cfg, s, t, c);
    ReleaseIs(s, s', RecvSlot(c), Pool, s.conns[c].recvbuf.value);
    FramesOnlyFor(s, s', t, c);
  }

  lemma GiveRecvSim(cfg: Config, s: Server, s': Server, t: Tid, c: ConnId)
    requires Inv(cfg, s) && c in s.conns && Io(s, t).conn == c
    requires Io(s, t).pc.FinRecv? && s.conns[c].recvbuf.Some?
    requires IoNext(s, t, c) == Some(s')
    ensures Sim(cfg, s, s', c, S.IoStep)
  {
    hide ShiftView, S.Next, Struct, Sessions, View, Q, I.Inv, H.Faithful, Moves, Writes, IoFrame;
    var x := s.conns[c].recvbuf.value;
    GiveRecvMoves(cfg, s, s', t, c);
    IoMoved(cfg, s, s', t, c, RecvSlot(c), Pool, x, ItemOf(x, s.bufs[x]));
    FromRecvSlot(View(s, c), c, ItemOf(x, s.bufs[x]));
    Single(View(s, c), cfg);
    ActSteps(cfg, View(s, c));
  }


  /** A send that leaves bytes of the response. */
  lemma SendPartMoves(cfg: Config, s: Server, s': Server, t: Tid, c: ConnId, n: nat)
    requires Inv(cfg, s) && c in s.conns && Io(s, t).conn == c
    requires Io(s, t).pc.RespSend? && s.conns[c].sendbuf.Some? && n < BufferOf(s, s.conns[c].sendbuf.value).left
    requires SendBytes(cfg, s, t, c, n) == Some(s')
    ensures IoFrame(s, s', t, c)
    ensures var x := s.conns[c].sendbuf.value;
            x in s.bufs && Writes(s, s', c, SendSlot(c), x, ItemOf(x, s.bufs[x]).(left := s.bufs[x].left - n))
  {
    hide Conserved, Placed, Assigned, Sessions, IoFrame, S.SentSlice, S.AfterResponse;
    SlotLive(cfg, s, t, c);
    SendPartFrame(cfg, s, s', t, c, n);
    FramesOnlyFor(s, s', t, c);
  }

  lemma SendPartFrame(cfg: Config, s: Server, s': Server, t: Tid, c: ConnId, n: nat)
    requires c in s.conns && Io(s, t).conn == c && s.conns[c].ioidx == t
    requires Io(s, t).pc.RespSend? && s.conns[c].sendbuf.Some? && n < BufferOf(s, s.conns[c].sendbuf.value).left
    requires SendBytes(cfg, s, t, c, n) == Some(s')
    ensures IoFrame(s, s', t, c)
  {
    hide S.SentSlice, S.AfterResponse;
  }

  lemma SendPartSim(cfg: Config, s: Server, s': Server, t: Tid, c: ConnId, n: nat)
    requires Inv(cfg, s) && c in s.conns && Io(s, t).conn == c
    requires Io(s, t).pc.RespSend? && s.conns[c].sendbuf.Some? && n < BufferOf(s, s.conns[c].sendbuf.value).left
    requires SendBytes(cfg, s, t, c, n) == Some(s')
    ensures Sim(cfg, s, s', c, S.IoSend(n))
  {
    hide WriteView, S.Next, Struct, Sessions, View, Q, I.Inv, H.Faithful, Moves, Writes, IoFrame;
    var x := s.conns[c].sendbuf.value;
    SendPartMoves(cfg, s, s', t, c, n);
    IoWrote(cfg, s, s', t, c, SendSlot(c), x, ItemOf(x, s.bufs[x]).(left := s.bufs[x].left - n));
    IntoSendSlot(View(s, c), c, ItemOf(x, s.bufs[x]).(left := s.bufs[x].left - n));
    Single(View(s, c), cfg);
    SendIs(cfg, View(s, c), n);
  }

  lemma IntoSendSlot(v: S.Session, c: ConnId, it: S.Item)
    ensures WriteView(v, c, SendSlot(c), it) == v.(send := [it])
  {
  }

  lemma SendIs(cfg: Config, v: S.Session, n: nat)
    ensures S.Next(cfg, v, S.IoSend(n)) == S.SendBytes(cfg, v, n)
  {
  }

  /** A send that completes the response. */
  lemma SendLastMoves(cfg: Config, s: Server, s': Server, t: Tid, c: ConnId, n: nat)
    requires Inv(cfg, s) && c in s.conns && Io(s, t).conn == c
    requires Io(s, t).pc.RespSend? && s.conns[c].sendbuf.Some? && n == BufferOf(s, s.conns[c].sendbuf.value).left
    requires SendBytes(cfg, s, t, c, n) == Some(s')
    ensures IoFrame(s, s', t, c)
    ensures var x := s.conns[c].sendbuf.value;
            x in s.bufs && Moves(s, s', c, SendSlot(c), IoHand(t), x, ItemOf(x, s.bufs[x]).(left := 0))
  {
    hide Conserved, Placed, Assigned, Sessions;
    SlotLive(cfg, s, t, c);
    ReleaseIs(s, s', SendSlot(c), IoHand(t), s.conns[c].sendbuf.value);
    FramesOnlyFor(s, s', t, c);
  }

  lemma SendLastSim(cfg: Config, s: Server, s': Server, t: Tid, c: ConnId, n: nat)
    requires Inv(cfg, s) && c in s.conns && Io(s, t).conn == c
    requires Io(s, t).pc.RespSend? && s.conns[c].sendbuf.Some? && n == BufferOf(s, s.conns[c].sendbuf.value).left
    requires SendBytes(cfg, s, t, c, n) == Some(s')
    ensures Sim(cfg, s, s', c, S.IoSend(n))
  {
    hide ShiftView, Struct, Sessions, View, Q, I.Inv, H.Faithful, Moves, Writes, IoFrame;
    var x := s.conns[c].sendbuf.value;
    SendLastMoves(cfg, s, s', t, c, n);
    IoMoved(cfg, s, s', t, c, SendSlot(c), IoHand(t), x, ItemOf(x, s.bufs[x]).(left := 0));
    FromSendToHand(View(s, c), c, ItemOf(x, s.bufs[x]).(left := 0));
    Single(View(s, c), cfg);
  }

  /** A receive into the attached buffer. */
  lemma RecvMoves(cfg: Config, s: Server, s': Server, t: Tid, c: ConnId, bytes: Bytes)
    requires Inv(cfg, s) && c in s.conns && Io(s, t).conn == c
    requires Io(s, t).pc == S.ReqRecv && s.conns[c].recvbuf.Some?
             && |bytes| <= BufferOf(s, s.conns[c].recvbuf.value).left
    requires RecvBytes(cfg, s, t, c, bytes) == Some(s')
    ensures IoFrame(s, s', t, c)
    ensures var x := s.conns[c].recvbuf.value;
            x in s.bufs && Writes(s, s', c, RecvSlot(c), x, S.ReceivedInto(ItemOf(x, s.bufs[x]), bytes))
  {
    hide Conserved, Placed, Assigned, Sessions;
    SlotLive(cfg, s, t, c);
    FramesOnlyFor(s, s', t, c);
  }

  lemma RecvSim(cfg: Config, s: Server, s': Server, t: Tid, c: ConnId, bytes: Bytes)
    requires Inv(cfg, s) && c in s.conns && Io(s, t).conn == c
    requires Io(s, t).pc == S.ReqRecv && s.conns[c].recvbuf.Some?
             && |bytes| <= BufferOf(s, s.conns[c].recvbuf.value).left
    requires RecvBytes(cfg, s, t, c, bytes) == Some(s')
    ensures Sim(cfg, s, s', c, S.IoRecv(bytes))
  {
    hide Struct, Sessions, View, Q, I.Inv, H.Faithful, Moves, Writes, IoFrame;
    var x := s.conns[c].recvbuf.value;
    RecvMoves(cfg, s, s', t, c, bytes);
    IoWrote(cfg, s, s', t, c, RecvSlot(c), x, S.ReceivedInto(ItemOf(x, s.bufs[x]), bytes));
    Single(View(s, c), cfg);
  }

  /** handle_request takes a buffer from the pool. */
  lemma ReadyMoves(cfg: Config, s: Server, s': Server, t: Tid, c: ConnId, got: Option<nat>)
    requires Inv(cfg, s) && c in s.conns && Io(s, t).conn == c
    requires Io(s, t).pc == S.ReqTop && s.conns[c].recvbuf.None? && got.Some? && !S.TooFarAhead(cfg, s.conns[c])
             && At(s, Pool) != []
    requires RequestTop(cfg, s, t, c, got) == Some(s')
    ensures IoFrame(s, s', t, c)
    ensures var x := At(s, Pool)[0];
            x in s.bufs && Moves(s, s', c, Pool, RecvSlot(c), x, S.Item(x, [], [], REQUEST_SIZE))
  {
    hide NoAlias, Located, Placed, Sessions;
    assert At(s, Pool)[0] in At(s, Pool);
    ShiftIs(s, s', Pool, RecvSlot(c));
    FramesOnlyFor(s, s', t, c);
  }

  lemma ReadySim(cfg: Config, s: Server, s': Server, t: Tid, c: ConnId, got: Option<nat>)
    requires Inv(cfg, s) && c in s.conns && Io(s, t).conn == c
    requires Io(s, t).pc == S.ReqTop && s.conns[c].recvbuf.None? && got.Some? && !S.TooFarAhead(cfg, s.conns[c])
             && At(s, Pool) != []
    requires RequestTop(cfg, s, t, c, got) == Some(s')
    ensures Sim(cfg, s, s', c, S.IoReqTop(got))
  {
    hide ShiftView, Struct, Sessions, View, Q, I.Inv, H.Faithful, Moves, Writes, IoFrame;
    var x := At(s, Pool)[0];
    ReadyMoves(cfg, s, s', t, c, got);
    IoMoved(cfg, s, s', t, c, Pool, RecvSlot(c), x, S.Item(x, [], [], REQUEST_SIZE));
    FromPool(View(s, c), c, S.Item(x, [], [], REQUEST_SIZE));
    Single(View(s, c), cfg);
  }

  /** A compute thread takes a request. */
  lemma CompTakeMoves(cfg: Config, s: Server, s': Server, t: Tid, c: ConnId)
    requires Inv(cfg, s) && c in s.conns
    requires Comp(s, t).pc == S.CompIdle && At(s, ComputeInbox(t)) != []
    requires Next(cfg, s, Move(t, c, S.CompTake)) == Some(s')
    ensures CompFrame(s, s', t, c)
    ensures var x := At(s, ComputeInbox(t))[0];
            x in s.bufs && Moves(s, s', c, ComputeInbox(t), ComputeHand(t), x, ItemOf(x, s.bufs[x]))
  {
    hide Conserved, Assigned, Sessions, Handler;
    assert Home(s, ComputeInbox(t), At(s, ComputeInbox(t))[0]);
    assert s.conns[c := s.conns[c]] == s.conns;
    ShiftIs(s, s', ComputeInbox(t), ComputeHand(t));
    FramesOnlyFor(s, s', t, c);
  }

  lemma CompTakeSim(cfg: Config, s: Server, s': Server, t: Tid, c: ConnId)
    requires Inv(cfg, s) && c in s.conns
    requires Comp(s, t).pc == S.CompIdle && At(s, ComputeInbox(t)) != []
    requires Next(cfg, s, Move(t, c, S.CompTake)) == Some(s')
    ensures Sim(cfg, s, s', c, S.CompTake)
  {
    hide S.Next, Handler, SubNext, CompNext, ShiftView, Struct, Sessions, View, Q, I.Inv, H.Faithful, Moves, Writes,
         CompFrame;
    var x := At(s, ComputeInbox(t))[0];
    CompTakeMoves(cfg, s, s', t, c);
    CompMoved(cfg, s, s', t, c, ComputeInbox(t), ComputeHand(t), x, ItemOf(x, s.bufs[x]));
    FromComputeInbox(View(s, c), c, ItemOf(x, s.bufs[x]));
    Single(View(s, c), cfg);
    CompTakeIs(cfg, View(s, c));
  }

  /** It computes the response in place. */
  lemma ComputeMoves(cfg: Config, s: Server, s': Server, t: Tid, c: ConnId)
    requires Inv(cfg, s) && c in s.conns && Comp(s, t).conn == c
    requires Comp(s, t).pc == S.CompWork && At(s, ComputeHand(t)) != []
    requires CompNext(cfg, s, t, c) == Some(s')
    ensures CompFrame(s, s', t, c)
    ensures var x := At(s, ComputeHand(t))[0];
            && x in s.bufs
            && Writes(s, s', c, ComputeHand(t), x, ItemOf(x, s.bufs[x]).(res := Respond(cfg, s.bufs[x].req)))
  {
    hide Conserved, Placed, Assigned, Sessions;
    ComputeHandOwned(cfg, s, t);
    assert s.conns[c := s.conns[c]] == s.conns;
    FramesOnlyFor(s, s', t, c);
  }

  lemma ComputeSim(cfg: Config, s: Server, s': Server, t: Tid, c: ConnId)
    requires Inv(cfg, s) && c in s.conns && Comp(s, t).conn == c
    requires Comp(s, t).pc == S.CompWork && At(s, ComputeHand(t)) != []
    requires CompNext(cfg, s, t, c) == Some(s')
    ensures Sim(cfg, s, s', c, S.CompStep)
  {
    hide S.Next, Struct, Sessions, View, Q, I.Inv, H.Faithful, Moves, Writes, CompFrame;
    var x := At(s, ComputeHand(t))[0];
    ComputeMoves(cfg, s, s', t, c);
    CompWrote(cfg, s, s', t, c, ComputeHand(t), x, ItemOf(x, s.bufs[x]).(res := Respond(cfg, s.bufs[x].req)));
    Single(View(s, c), cfg);
    ActSteps(cfg, View(s, c));
  }

  /** It passes the buffer on to the connection's submitter. */
  lemma CompPutMoves(cfg: Config, s: Server, s': Server, t: Tid, c: ConnId)
    requires Inv(cfg, s) && c in s.conns && Comp(s, t).conn == c
    requires Comp(s, t).pc == S.CompPut && At(s, ComputeHand(t)) != []
    requires CompNext(cfg, s, t, c) == Some(s')
    ensures CompFrame(s, s', t, c)
    ensures var x := At(s, ComputeHand(t))[0];
            x in s.bufs && Moves(s, s', c, ComputeHand(t), SubmitInbox(s.conns[c].submitidx), x, ItemOf(x, s.bufs[x]))
  {
    hide Conserved, Placed, Assigned, Sessions;
    ComputeHandOwned(cfg, s, t);
    assert s.conns[c := s.conns[c]] == s.conns;
    ShiftIs(s, s', ComputeHand(t), SubmitInbox(s.conns[c].submitidx));
    FramesOnlyFor(s, s', t, c);
  }

  lemma CompPutSim(cfg: Config, s: Server, s': Server, t: Tid, c: ConnId)
    requires Inv(cfg, s) && c in s.conns && Comp(s, t).conn == c
    requires Comp(s, t).pc == S.CompPut && At(s, ComputeHand(t)) != []
    requires CompNext(cfg, s, t, c) == Some(s')
    ensures Sim(cfg, s, s', c, S.CompStep)
  {
    hide ShiftView, S.Next, Struct, Sessions, View, Q, I.Inv, H.Faithful, Moves, Writes, CompFrame;
    var x := At(s, ComputeHand(t))[0];
    CompPutMoves(cfg, s, s', t, c);
    CompMoved(cfg, s, s', t, c, ComputeHand(t), SubmitInbox(s.conns[c].submitidx), x, ItemOf(x, s.bufs[x]));
    ToSubmit(View(s, c), c, ItemOf(x, s.bufs[x]));
    Single(View(s, c), cfg);
    ActSteps(cfg, View(s, c));
  }

  /** A submitter takes a response. */
  lemma SubTakeMoves(cfg: Config, s: Server, s': Server, t: Tid, c: ConnId)
    requires Inv(cfg, s) && c in s.conns
    requires Sub(s, t).pc == S.SubIdle && At(s, SubmitInbox(t)) != []
    requires Next(cfg, s, Move(t, c, S.SubTake)) == Some(s')
    ensures SubFrame(s, s', t, c)
    ensures var x := At(s, SubmitInbox(t))[0];
            x in s.bufs && Moves(s, s', c, SubmitInbox(t), SubmitHand(t), x, ItemOf(x, s.bufs[x]))
  {
    hide Conserved, Assigned, Sessions, Handler;
    assert Home(s, SubmitInbox(t), At(s, SubmitInbox(t))[0]);
    assert s.conns[c := s.conns[c]] == s.conns;
    ShiftIs(s, s', SubmitInbox(t), SubmitHand(t));
    FramesOnlyFor(s, s', t, c);
  }

  lemma SubTakeSim(cfg: Config, s: Server, s': Server, t: Tid, c: ConnId)
    requires Inv(cfg, s) && c in s.conns
    requires Sub(s, t).pc == S.SubIdle && At(s, SubmitInbox(t)) != []
    requires Next(cfg, s, Move(t, c, S.SubTake)) == Some(s')
    ensures Sim(cfg, s, s', c, S.SubTake)
  {
    hide S.Next, Handler, SubNext, CompNext, ShiftView, Struct, Sessions, View, Q, I.Inv, H.Faithful, Moves, Writes,
         SubFrame, Inv, ItemOf;
    var x := At(s, SubmitInbox(t))[0];
    SubTakeMoves(cfg, s, s', t, c);
    SubMoved(cfg, s, s', t, c, SubmitInbox(t), SubmitHand(t), x, ItemOf(x, s.bufs[x]));
    FromSubmitInbox(View(s, c), c, ItemOf(x, s.bufs[x]));
    Single(View(s, c), cfg);
    SubTakeIs(cfg, View(s, c));
  }

  /** It could not lock the connection, and recycles the response. */
  lemma RecycleMoves(cfg: Config, s: Server, s': Server, t: Tid, c: ConnId)
    requires Inv(cfg, s) && c in s.conns && Sub(s, t).conn == c
    requires Sub(s, t).pc == S.SubRecycle && At(s, SubmitHand(t)) != []
    requires SubNext(s, t, c) == Some(s')
    ensures SubFrame(s, s', t, c)
    ensures var x := At(s, SubmitHand(t))[0];
            x in s.bufs && Moves(s, s', c, SubmitHand(t), SubmitInbox(t), x, ItemOf(x, s.bufs[x]))
  {
    hide Conserved, Placed, Assigned, Sessions;
    SubmitHandOwned(cfg, s, t);
    assert s.conns[c := s.conns[c]] == s.conns;
    ShiftIs(s, s', SubmitHand(t), SubmitInbox(t));
    FramesOnlyFor(s, s', t, c);
  }

  lemma RecycleSim(cfg: Config, s: Server, s': Server, t: Tid, c: ConnId)
    requires Inv(cfg, s) && c in s.conns && Sub(s, t).conn == c
    requires Sub(s, t).pc == S.SubRecycle && At(s, SubmitHand(t)) != []
    requires SubNext(s, t, c) == Some(s')
    ensures Sim(cfg, s, s', c, S.SubStep)
  {
    hide ShiftView, S.Next, Struct, Sessions, View, Q, I.Inv, H.Faithful, Moves, Writes, SubFrame;
    var x := At(s, SubmitHand(t))[0];
    RecycleMoves(cfg, s, s', t, c);
    SubMoved(cfg, s, s', t, c, SubmitHand(t), SubmitInbox(t), x, ItemOf(x, s.bufs[x]));
    ToSubmitInbox(View(s, c), c, ItemOf(x, s.bufs[x]));
    Single(View(s, c), cfg);
    ActSteps(cfg, View(s, c));
  }

  /** The connection is closed; the buffer goes back to the pool. */
  lemma DisposeMoves(cfg: Config, s: Server, s': Server, t: Tid, c: ConnId)
    requires Inv(cfg, s) && c in s.conns && Sub(s, t).conn == c
    requires Sub(s, t).pc == S.SubDispose && At(s, SubmitHand(t)) != []
    requires SubNext(s, t, c) == Some(s')
    ensures SubFrame(s, s', t, c)
    ensures var x := At(s, SubmitHand(t))[0];
            x in s.bufs && Moves(s, s', c, SubmitHand(t), Pool, x, ItemOf(x, s.bufs[x]))
  {
    hide Conserved, Placed, Assigned, Sessions;
    SubmitHandOwned(cfg, s, t);
    assert s.conns[c := s.conns[c]] == s.conns;
    ShiftIs(s, s', SubmitHand(t), Pool);
    FramesOnlyFor(s, s', t, c);
  }

  lemma DisposeSim(cfg: Config, s: Server, s': Server, t: Tid, c: ConnId)
    requires Inv(cfg, s) && c in s.conns && Sub(s, t).conn == c
    requires Sub(s, t).pc == S.SubDispose && At(s, SubmitHand(t)) != []
    requires SubNext(s, t, c) == Some(s')
    ensures Sim(cfg, s, s', c, S.SubStep)
  {
    hide ShiftView, S.Next, Struct, Sessions, View, Q, I.Inv, H.Faithful, Moves, Writes, SubFrame;
    var x := At(s, SubmitHand(t))[0];
    DisposeMoves(cfg, s, s', t, c);
    SubMoved(cfg, s, s', t, c, SubmitHand(t), Pool, x, ItemOf(x, s.bufs[x]));
    FromSubmitHand(View(s, c), c, ItemOf(x, s.bufs[x]));
    Single(View(s, c), cfg);
    ActSteps(cfg, View(s, c));
  }

  /** The response goes to the connection's send queue. */
  lemma QueueMoves(cfg: Config, s: Server, s': Server, t: Tid, c: ConnId)
    requires Inv(cfg, s) && c in s.conns && Sub(s, t).conn == c
    requires Sub(s, t).pc == S.SubQueue && At(s, SubmitHand(t)) != []
    requires SubNext(s, t, c) == Some(s')
    ensures SubFrame(s, s', t, c)
    ensures var x := At(s, SubmitHand(t))[0];
            x in s.bufs && Moves(s, s', c, SubmitHand(t), SendQueue(c), x, ItemOf(x, s.bufs[x]))
  {
    hide Conserved, Placed, Assigned, Sessions;
    SubmitHandOwned(cfg, s, t);
    assert s.conns[c := s.conns[c]] == s.conns;
    ShiftIs(s, s', SubmitHand(t), SendQueue(c));
    FramesOnlyFor(s, s', t, c);
  }

  lemma QueueSim(cfg: Config, s: Server, s': Server, t: Tid, c: ConnId)
    requires Inv(cfg, s) && c in s.conns && Sub(s, t).conn == c
    requires Sub(s, t).pc == S.SubQueue && At(s, SubmitHand(t)) != []
    requires SubNext(s, t, c) == Some(s')
    ensures Sim(cfg, s, s', c, S.SubStep)
  {
    hide ShiftView, S.Next, Struct, Sessions, View, Q, I.Inv, H.Faithful, Moves, Writes, SubFrame;
    var x := At(s, SubmitHand(t))[0];
    QueueMoves(cfg, s, s', t, c);
    SubMoved(cfg, s, s', t, c, SubmitHand(t), SendQueue(c), x, ItemOf(x, s.bufs[x]));
    ToSendQueue(View(s, c), c, ItemOf(x, s.bufs[x]));
    Single(View(s, c), cfg);
    ActSteps(cfg, View(s, c));
  }


  // ---------------------------------------------------------------- the other plain steps

  lemma SubPutFrame(s: Server, s1: Server, t: Tid, c: ConnId, k: S.Conn, pc: S.SubPc)
    requires c in s.conns && s.conns[c].submitidx == t && Sub(s, t).conn == c
    requires k.ioidx == s.conns[c].ioidx && k.computeidx == s.conns[c].computeidx && k.submitidx == s.conns[c].submitidx
    requires s1 == s || s1 == s.(free := s.free + [c])
    ensures SubFrame(s, PutSub(PutConn(s1, c, k), t, c, pc), t, c)
    ensures SubFrame(s, PutSub(s1, t, c, pc), t, c)
  {
    assert s.conns[c := s.conns[c]] == s.conns;
  }

  predicate PlainSub(s: Server, t: Tid) {
    var pc := Sub(s, t).pc;
    pc != S.SubIdle && pc != S.SubRecycle && pc != S.SubDispose && pc != S.SubQueue
  }

  lemma PlainSubFrame(s: Server, s': Server, t: Tid, c: ConnId)
    requires Struct(s) && c in s.conns && Sub(s, t).conn == c && PlainSub(s, t) && SubNext(s, t, c) == Some(s')
    ensures SubFrame(s, s', t, c)
    ensures s'.at == s.at && s'.bufs == s.bufs && (s'.free == s.free || s'.free == s.free + [c])
  {
    hide SubFrame, Conserved, Placed, SubNext;
    var pc := Sub(s, t).pc;
    if pc.SubTry? || pc.SubDropLock? || pc.SubUnlock? {
      PlainSubLock(s, s', t, c);
    } else {
      PlainSubCount(s, s', t, c);
    }
  }

  lemma PlainSubLock(s: Server, s': Server, t: Tid, c: ConnId)
    requires c in s.conns && s.conns[c].submitidx == t && Sub(s, t).conn == c && SubNext(s, t, c) == Some(s')
    requires Sub(s, t).pc.SubTry? || Sub(s, t).pc.SubDropLock? || Sub(s, t).pc.SubUnlock?
    ensures SubFrame(s, s', t, c) && s'.at == s.at && s'.bufs == s.bufs && s'.free == s.free
  {
    hide SubFrame;
    SubPutFrame(s, s, t, c, s'.conns[c], Sub(s', t).pc);
  }

  lemma PlainSubCount(s: Server, s': Server, t: Tid, c: ConnId)
    requires c in s.conns && s.conns[c].submitidx == t && Sub(s, t).conn == c && SubNext(s, t, c) == Some(s')
    requires Sub(s, t).pc.SubCount? || Sub(s, t).pc.SubCheck? || Sub(s, t).pc.SubRelease? || Sub(s, t).pc.SubArm?
    ensures SubFrame(s, s', t, c)
    ensures s'.at == s.at && s'.bufs == s.bufs && (s'.free == s.free || s'.free == s.free + [c])
  {
    hide Wrap64, E.KernelAfter, SubFrame;
    SubPutFrame(s, if Sub(s, t).pc.SubRelease? then s.(free := s.free + [c]) else s, t, c, s'.conns[c], Sub(s', t).pc);
  }

  ghost predicate SameSubStep(s: Server, s': Server, t: Tid, c: ConnId)
    requires c in s.conns
  {
    c in s'.conns &&
    S.SubNext(View(s, c)) ==
    Some(View(s, c).(conn := s'.conns[c], sub := Sub(s', t).pc, nfree := multiset(s'.free)[c]))
  }

  lemma PlainSubSame(s: Server, s': Server, t: Tid, c: ConnId)
    requires Assigned(s) && c in s.conns && Sub(s, t).conn == c && PlainSub(s, t) && SubNext(s, t, c) == Some(s')
    ensures SameSubStep(s, s', t, c)
  {
    hide Q, SubNext, SameSubStep;
    var pc := Sub(s, t).pc;
    assert View(s, c).sub == pc && View(s, c).conn == s.conns[c];
    if pc.SubTry? || pc.SubDropLock? || pc.SubUnlock? {
      SameSubLock(s, s', t, c);
    } else {
      SameSubCount(s, s', t, c);
    }
  }

  lemma SameSubLock(s: Server, s': Server, t: Tid, c: ConnId)
    requires c in s.conns && View(s, c).sub == Sub(s, t).pc && SubNext(s, t, c) == Some(s')
    requires Sub(s, t).pc.SubTry? || Sub(s, t).pc.SubDropLock? || Sub(s, t).pc.SubUnlock?
    ensures SameSubStep(s, s', t, c)
  {
    hide Q;
  }

  lemma SameSubCount(s: Server, s': Server, t: Tid, c: ConnId)
    requires c in s.conns && View(s, c).sub == Sub(s, t).pc && SubNext(s, t, c) == Some(s')
    requires Sub(s, t).pc.SubCount? || Sub(s, t).pc.SubCheck? || Sub(s, t).pc.SubRelease? || Sub(s, t).pc.SubArm?
    ensures SameSubStep(s, s', t, c)
  {
    hide Q, Wrap64, S.SetEpoll;
  }

  lemma PlainSubSim(cfg: Config, s: Server, s': Server, t: Tid, c: ConnId)
    requires Inv(cfg, s) && c in s.conns && Sub(s, t).conn == c && PlainSub(s, t) && SubNext(s, t, c) == Some(s')
    ensures Sim(cfg, s, s', c, S.SubStep)
  {
    hide Conserved, Placed, Assigned, View, SubNext, I.Inv, H.Faithful, S.SubNext;
    PlainSubFrame(s, s', t, c);
    SubPlain(s, s', t, c);
    PlainSubSame(s, s', t, c);
  }

  /** handle_request goes on with the buffer it has, or gives up for now. */
  lemma TopSim(cfg: Config, s: Server, s': Server, t: Tid, c: ConnId, got: Option<nat>)
    requires Inv(cfg, s) && c in s.conns && Io(s, t).conn == c && Io(s, t).pc == S.ReqTop
    requires s.conns[c].recvbuf.Some? || got.None? || S.TooFarAhead(cfg, s.conns[c])
    requires RequestTop(cfg, s, t, c, got) == Some(s')
    ensures Sim(cfg, s, s', c, S.IoReqTop(got))
  {
    hide Conserved, Placed, I.Inv, H.Faithful, View, S.Next, S.TooFarAhead, Sessions;
    assert s.conns[c].ioidx == t;
    PutFrame(s, s, t, c, s.conns[c], Io(s', t).pc);
    IoPlain(s, s', t, c);
    TopSame(cfg, s, s', t, c, got);
  }

  lemma TopSame(cfg: Config, s: Server, s': Server, t: Tid, c: ConnId, got: Option<nat>)
    requires Assigned(s) && c in s.conns && Io(s, t).conn == c && Io(s, t).pc == S.ReqTop
    requires s.conns[c].recvbuf.Some? || got.None? || S.TooFarAhead(cfg, s.conns[c])
    requires RequestTop(cfg, s, t, c, got) == Some(s')
    ensures SameStep(cfg, s, s', t, c, S.IoReqTop(got))
  {
    hide Q, S.TooFarAhead;
  }

  lemma EventSim(cfg: Config, s: Server, s': Server, t: Tid, c: ConnId, err: bool, out: bool, inp: bool)
    requires Inv(cfg, s) && c in s.conns && Next(cfg, s, Move(t, c, S.IoEvent(err, out, inp))) == Some(s')
    ensures Sim(cfg, s, s', c, S.IoEvent(err, out, inp))
  {
    hide Conserved, Placed, I.Inv, H.Faithful, Q, Handler;
    assert s.conns[c := s.conns[c]] == s.conns;
    assert IoFrame(s, s', t, c);
    IoPlain(s, s', t, c);
  }

  // ---------------------------------------------------------------- accept

  /** A connection whose view is quiet is referred to by no buffer outside the
      pool and by no busy thread. */
  lemma QuietMeans(s: Server, c: ConnId)
    requires Placed(s) && Assigned(s) && c in s.conns && I.Quiet(View(s, c))
    ensures forall p, b :: p != Pool && b in At(s, p) ==> b in s.bufs && s.bufs[b].conn != c
    ensures forall t :: Io(s, t).pc != S.IoIdle ==> Io(s, t).conn != c
    ensures forall t :: Comp(s, t).pc != S.CompIdle ==> Comp(s, t).conn != c
    ensures forall t :: Sub(s, t).pc != S.SubIdle ==> Sub(s, t).conn != c
  {
    forall p, b | p != Pool && b in At(s, p) ensures b in s.bufs && s.bufs[b].conn != c {
      assert Home(s, p, b);
      if s.bufs[b].conn == c {
        ProjHas(s.bufs, At(s, p), c, b);
      }
    }
  }

  lemma QuietShows(s: Server, c: ConnId)
    requires forall p, b :: p != Pool && b in At(s, p) ==> b in s.bufs && s.bufs[b].conn != c
    ensures forall p :: p != Pool ==> Q(s, p, c) == []
    ensures At(s, SendQueue(c)) == [] || Q(s, SendQueue(c), c) == []
  {
    forall p | p != Pool ensures Q(s, p, c) == [] { ProjNone(s.bufs, At(s, p), c); }
  }

  lemma TakeSim(cfg: Config, s: Server, s': Server, t: Tid, c: ConnId)
    requires Inv(cfg, s) && c in s.conns && Next(cfg, s, Move(t, c, S.AcceptTake)) == Some(s')
    ensures Sim(cfg, s, s', c, S.AcceptTake)
  {
    hide Conserved, Placed, Assigned, Sessions, Q, View, S.Next;
    TakeIs(cfg, s, s', t, c);
    PlainStep(s, s', c);
    TakeView(cfg, s, s', c);
  }

  lemma TakeIs(cfg: Config, s: Server, s': Server, t: Tid, c: ConnId)
    requires c in s.conns && Next(cfg, s, Move(t, c, S.AcceptTake)) == Some(s')
    ensures s == s'.(free := s.free, accepting := None) && s.free == [c] + s'.free && s'.accepting == Some(c)
    ensures multiset(s.free) == multiset{c} + multiset(s'.free)
  {
    hide Handler, SubNext, CompNext;
    assert s.free == [c] + s.free[1..];
  }

  lemma TakeView(cfg: Config, s: Server, s': Server, c: ConnId)
    requires c in s.conns && s == s'.(free := s.free, accepting := None) && s'.accepting == Some(c)
    requires multiset(s.free) == multiset{c} + multiset(s'.free)
    requires forall r, d :: Q(s', r, d) == Q(s, r, d)
    ensures S.Next(cfg, View(s, c), S.AcceptTake) == Some(View(s', c))
  {
    hide Q;
    assert forall t :: Io(s', t) == Io(s, t) && Comp(s', t) == Comp(s, t) && Sub(s', t) == Sub(s, t);
  }

  lemma ServeSim(cfg: Config, s: Server, s': Server, t: Tid, c: ConnId, i: nat, k: nat, n: nat)
    requires Inv(cfg, s) && c in s.conns && Next(cfg, s, Move(t, c, S.AcceptServe(i, k, n))) == Some(s')
    ensures Sim(cfg, s, s', c, S.AcceptServe(i, k, n))
  {
    hide View, S.Accepted, I.Quiet, Sessions, Conserved, Placed, Assigned, I.Inv, H.Faithful, Handler, Q, E.KernelAfter;
    ServeQuiet(cfg, s, c);
    QuietMeans(s, c);
    ServeAt(s, s', c);
    ServePlaced(s, s', c);
    ServeView(s, s', c, i, k, n);
    ServeOthers(s, s', c, S.Accepted(s.conns[c], i, k, n));
  }

  lemma ServeQuiet(cfg: Config, s: Server, c: ConnId)
    requires Sessions(cfg, s) && c in s.conns && s.accepting == Some(c)
    ensures View(s, c).accepting && View(s, c).conn == s.conns[c] && I.Quiet(View(s, c))
  {
  }

  lemma ServeView(s: Server, s': Server, c: ConnId, i: nat, k: nat, n: nat)
    requires c in s.conns && s.accepting == Some(c) && I.Quiet(View(s, c))
    requires s'.conns == s.conns[c := S.Accepted(s.conns[c], i, k, n)] && s'.accepting == None && s'.free == s.free
    requires s'.io == s.io && s'.comp == s.comp && s'.sub == s.sub
    requires forall p, b :: p != Pool && b in At(s, p) ==> b in s.bufs && s.bufs[b].conn != c
    requires forall t :: Io(s, t).pc != S.IoIdle ==> Io(s, t).conn != c
    requires forall t :: Comp(s, t).pc != S.CompIdle ==> Comp(s, t).conn != c
    requires forall t :: Sub(s, t).pc != S.SubIdle ==> Sub(s, t).conn != c
    requires forall p, d :: Q(s', p, d) == Q(s, p, d)
    ensures View(s', c) == View(s, c).(accepting := false, conn := S.Accepted(s.conns[c], i, k, n), sendq := [])
  {
    hide View, I.Quiet, S.Accepted, Q;
    QuietShows(s, c);
    QuietView(s, c);
    assert forall t :: Io(s', t) == Io(s, t) && Comp(s', t) == Comp(s, t) && Sub(s', t) == Sub(s, t);
    QuietView(s', c);
  }

  /** A connection to which nothing refers, as it is seen. */
  lemma QuietView(s: Server, c: ConnId)
    requires c in s.conns && forall p :: p != Pool ==> Q(s, p, c) == []
    requires forall t :: Io(s, t).pc != S.IoIdle ==> Io(s, t).conn != c
    requires forall t :: Comp(s, t).pc != S.CompIdle ==> Comp(s, t).conn != c
    requires forall t :: Sub(s, t).pc != S.SubIdle ==> Sub(s, t).conn != c
    ensures View(s, c) == S.Session(s.conns[c], [], [], [], [], [], [], [], [], S.IoIdle, S.CompIdle, S.SubIdle,
                                    multiset(s.free)[c], s.accepting == Some(c))
  {
    hide Q;
  }

  lemma ServeOthers(s: Server, s': Server, c: ConnId, k: S.Conn)
    requires c in s.conns && s'.conns == s.conns[c := k] && s'.free == s.free
    requires s.accepting == Some(c) && s'.accepting == None
    requires s'.io == s.io && s'.comp == s.comp && s'.sub == s.sub
    requires forall p, d :: Q(s', p, d) == Q(s, p, d)
    ensures forall d :: d in s.conns && d != c ==> View(s', d) == View(s, d)
  {
    hide Q;
  }

  lemma HeadHome(s: Server, p: Place)
    requires Placed(s) && p != Pool
    ensures At(s, p) != [] ==> At(s, p)[0] in At(s, p) && Home(s, p, At(s, p)[0])
  {
  }

  lemma ServeAt(s: Server, s': Server, c: ConnId)
    requires Placed(s) && Conserved(s) && c in s.conns && s'.bufs == s.bufs && s'.at == s.at[SendQueue(c) := []]
    requires forall p, b :: p != Pool && b in At(s, p) ==> b in s.bufs && s.bufs[b].conn != c
    ensures SamePlaces(s, s') && Conserved(s')
    ensures forall p, d :: Q(s', p, d) == Q(s, p, d)
  {
    hide NoAlias, Located;
    HeadHome(s, SendQueue(c));
    SameConserved(s, s');
  }

  lemma ServePlaced(s: Server, s': Server, c: ConnId)
    requires Placed(s) && Assigned(s) && c in s.conns && s'.bufs == s.bufs && SamePlaces(s, s')
    requires s'.conns.Keys == s.conns.Keys && forall d :: d in s.conns && d != c ==> s'.conns[d] == s.conns[d]
    requires s'.io == s.io && s'.comp == s.comp && s'.sub == s.sub
    requires forall p, b :: p != Pool && b in At(s, p) ==> b in s.bufs && s.bufs[b].conn != c
    requires forall t :: Io(s, t).pc != S.IoIdle ==> Io(s, t).conn != c
    requires forall t :: Comp(s, t).pc != S.CompIdle ==> Comp(s, t).conn != c
    requires forall t :: Sub(s, t).pc != S.SubIdle ==> Sub(s, t).conn != c
    ensures Placed(s') && Assigned(s')
  {
    forall p, b | p != Pool && b in At(s', p) ensures Home(s', p, b) {
      assert Home(s, p, b);
    }
    assert forall t :: Io(s', t) == Io(s, t) && Comp(s', t) == Comp(s, t) && Sub(s', t) == Sub(s, t);
  }

  // ---------------------------------------------------------------- every step

  lemma IoStepSim(cfg: Config, s: Server, s': Server, t: Tid, c: ConnId)
    requires Inv(cfg, s) && c in s.conns && Io(s, t).conn == c && IoNext(s, t, c) == Some(s')
    ensures Sim(cfg, s, s', c, S.IoStep)
  {
    hide Struct, Sessions, Sim, Wrap64, S.SetEpoll;
    var (k, pc) := (s.conns[c], Io(s, t).pc);
    if pc.RespTop? && k.sendbuf.None? && At(s, SendQueue(c)) != [] {
      AttachSim(cfg, s, s', t, c);
    } else if pc.RespPut? {
      RespPutSim(cfg, s, s', t, c);
    } else if pc.FinPut? {
      FinPutSim(cfg, s, s', t, c);
    } else if pc.ReqCount? {
      CountSim(cfg, s, s', t, c);
    } else if pc.ReqPut? {
      ReqPutSim(cfg, s, s', t, c);
    } else if pc.FinDrain? && At(s, SendQueue(c)) != [] {
      DrainSim(cfg, s, s', t, c);
    } else if pc.FinSend? && k.sendbuf.Some? {
      GiveSendSim(cfg, s, s', t, c);
    } else if pc.FinRecv? && k.recvbuf.Some? {
      GiveRecvSim(cfg, s, s', t, c);
    } else {
      PlainIoSim(cfg, s, t, c, S.IoStep);
    }
  }

  lemma HandlerSim(cfg: Config, s: Server, s': Server, t: Tid, c: ConnId, a: S.Act)
    requires Inv(cfg, s) && c in s.conns && Io(s, t).conn == c && Handler(cfg, s, t, c, a) == Some(s')
    ensures Sim(cfg, s, s', c, a)
  {
    hide Struct, Sessions, Sim, IoNext;
    var k := s.conns[c];
    match a
    case IoRecv(bytes) => RecvSim(cfg, s, s', t, c, bytes);
    case IoSend(n) =>
      if n < BufferOf(s, k.sendbuf.value).left {
        SendPartSim(cfg, s, s', t, c, n);
      } else {
        SendLastSim(cfg, s, s', t, c, n);
      }
    case IoReqTop(got) =>
      if k.recvbuf.Some? || got.None? || S.TooFarAhead(cfg, k) {
        TopSim(cfg, s, s', t, c, got);
      } else {
        ReadySim(cfg, s, s', t, c, got);
      }
    case IoStep => IoStepSim(cfg, s, s', t, c);
    case _ => PlainIoSim(cfg, s, t, c, a);
  }

  lemma SubStepSim(cfg: Config, s: Server, s': Server, t: Tid, c: ConnId)
    requires Inv(cfg, s) && c in s.conns && Sub(s, t).conn == c && SubNext(s, t, c) == Some(s')
    ensures Sim(cfg, s, s', c, S.SubStep)
  {
    hide Struct, Sessions, Sim, Wrap64, S.SetEpoll;
    match Sub(s, t).pc
    case SubRecycle => RecycleSim(cfg, s, s', t, c);
    case SubDispose => DisposeSim(cfg, s, s', t, c);
    case SubQueue => QueueSim(cfg, s, s', t, c);
    case _ => PlainSubSim(cfg, s, s', t, c);
  }

  /** A step of the server is a step of one session, and no step of another. */
  lemma StepSim(cfg: Config, s: Server, s': Server, m: Move)
    requires Inv(cfg, s) && Next(cfg, s, m) == Some(s')
    ensures m.c in s.conns && Sim(cfg, s, s', m.c, m.a)
  {
    hide Struct, Sessions, Sim, Handler, SubNext;
    var (t, c) := (m.t, m.c);
    match m.a
    case AcceptTake => TakeSim(cfg, s, s', t, c);
    case AcceptServe(i, k, n) => ServeSim(cfg, s, s', t, c, i, k, n);
    case IoEvent(err, out, inp) => EventSim(cfg, s, s', t, c, err, out, inp);
    case CompTake => CompTakeSim(cfg, s, s', t, c);
    case CompStep =>
      if Comp(s, t).pc == S.CompWork {
        ComputeSim(cfg, s, s', t, c);
      } else {
        CompPutSim(cfg, s, s', t, c);
      }
    case SubTake => SubTakeSim(cfg, s, s', t, c);
    case SubStep => SubStepSim(cfg, s, s', t, c);
    case _ => HandlerSim(cfg, s, s', t, c, m.a);
  }
}
