/** An IO thread that goes on after its connection is finished is harmless when
    there is nothing for handle_request to do: recvbuf is NULL and there is no
    head room. Such a thread may as well be waiting already; seen so, the server
    keeps its invariant, and so its buffers.
 */
module AstrayThreads {
  import opened Rpc
  import opened Epoll
  import opened ServerMachine
  import opened ServerView
  import opened ServerInvariant
  import opened ServerSimulation
  import opened ServerTheorems
  import S = SessionProtocol
  import I = SessionInvariant
  import H = SessionHistory

  /** At the top of handle_request, on a connection that is finished. */
  predicate Astray(s: Server, t: Tid) {
    Io(s, t).pc == S.ReqTop && Io(s, t).conn in s.conns && s.conns[Io(s, t).conn].closed
  }

  function Waiting(s: Server, t: Tid): IoThread {
    if Astray(s, t) then IoThread(Io(s, t).conn, S.IoIdle) else Io(s, t)
  }

  /** The server as it is when every astray thread has come back to its wait. */
  function Settle(s: Server): Server {
    s.(io := map t | t in s.io :: Waiting(s, t))
  }

  /** There is nothing for handle_request to do on the connection, and accept may
      not take it, for its sendbuf is stale. */
  predicate Harmless(cfg: Config, k: S.Conn) {
    k.closed && k.recvbuf.None? && k.sendbuf.Some? && S.TooFarAhead(cfg, k)
  }

  /** A finish that handle_response began, in an event that goes on. */
  predicate FinishesInSend(pc: S.IoPc) {
    && (pc.FinTry? || pc.FinSend? || pc.FinRecv? || pc.FinClose? || pc.FinDrain? || pc.FinPut? || pc.FinDecide? ||
        pc.FinUnlock? || pc.FinRelease?)
    && pc.more
  }

  ghost predicate Idlers(cfg: Config, s: Server) {
    forall t :: Astray(s, t) ==> s.conns[Io(s, t).conn].ioidx == t && Harmless(cfg, s.conns[Io(s, t).conn])
  }

  /** Such a finish leaves sendbuf set; and with room for one request only, it
      finds recvbuf NULL. With `clean` (every sendbuf NULL at the start) and room
      for one request only, a free connection has sendbuf NULL. */
  predicate SenderOk(cfg: Config, clean: bool, v: S.Session) {
    && (FinishesInSend(v.io) ==> v.conn.sendbuf.Some? && (cfg.readahead == 0 ==> v.conn.recvbuf.None?))
    && (clean && cfg.readahead == 0 && (v.nfree > 0 || v.accepting) ==> v.conn.sendbuf.None?)
  }

  ghost predicate Senders(cfg: Config, clean: bool, s: Server) {
    forall c :: c in s.conns ==> SenderOk(cfg, clean, View(s, c))
  }

  ghost predicate Settled(cfg: Config, clean: bool, s: Server) {
    Inv(cfg, Settle(s)) && Idlers(cfg, s) && Senders(cfg, clean, Settle(s))
  }

  lemma SettleReads(s: Server)
    ensures forall t :: Io(Settle(s), t) == Waiting(s, t)
    ensures forall t :: !Astray(Settle(s), t)
    ensures forall p :: At(Settle(s), p) == At(s, p)
  {
  }

  lemma SettledConserved(cfg: Config, clean: bool, s: Server)
    requires Settled(cfg, clean, s)
    ensures Conserved(s)
  {
    SettleReads(s);
    SameConserved(Settle(s), s);
  }

  // ---------------------------------------------------------------- steps do not look at other IO threads

  /** The server with other IO threads. */
  function Swap(s: Server, io: map<Tid, IoThread>): Server { s.(io := io) }

  function Swapped(next: Option<Server>, io: map<Tid, IoThread>, t: Tid): Option<Server> {
    match next
    case None => None
    case Some(s') => Some(Swap(s', io[t := Io(s', t)]))
  }

  predicate SwapsIo(s: Server, io: map<Tid, IoThread>, t: Tid, c: ConnId)
    requires c in s.conns
  {
    && IoNext(Swap(s, io), t, c) == Swapped(IoNext(s, t, c), io, t)
    && (IoNext(s, t, c).Some? ==> IoNext(s, t, c).value.io == s.io[t := Io(IoNext(s, t, c).value, t)])
  }

  predicate SamePc(s: Server, io: map<Tid, IoThread>, t: Tid) { Io(Swap(s, io), t) == Io(s, t) }

  lemma SwapLocks(s: Server, io: map<Tid, IoThread>, t: Tid, c: ConnId)
    requires c in s.conns && SamePc(s, io, t) && (Io(s, t).pc.RespLock? || Io(s, t).pc.ReqLock? || Io(s, t).pc.FinTry?)
    ensures SwapsIo(s, io, t, c)
  {
    hide S.AfterResponse, Shift, Release, At;
  }

  lemma SwapUnlocks(s: Server, io: map<Tid, IoThread>, t: Tid, c: ConnId)
    requires c in s.conns && SamePc(s, io, t)
    requires Io(s, t).pc.RespUnlock? || Io(s, t).pc.ReqUnlock? || Io(s, t).pc.FinUnlock?
    ensures SwapsIo(s, io, t, c)
  {
    hide S.AfterResponse, Shift, Release, At;
  }

  lemma SwapPuts(s: Server, io: map<Tid, IoThread>, t: Tid, c: ConnId)
    requires c in s.conns && SamePc(s, io, t)
    requires Io(s, t).pc.RespPut? || Io(s, t).pc.ReqPut? || Io(s, t).pc.FinPut?
    ensures SwapsIo(s, io, t, c)
  {
    hide Release;
  }

  lemma SwapGives(s: Server, io: map<Tid, IoThread>, t: Tid, c: ConnId)
    requires c in s.conns && SamePc(s, io, t) && (Io(s, t).pc.FinSend? || Io(s, t).pc.FinRecv?)
    ensures SwapsIo(s, io, t, c)
  {
    hide Shift;
    if Io(s, t).pc.FinSend? { SwapGivesSend(s, io, t, c); } else { SwapGivesRecv(s, io, t, c); }
  }

  lemma SwapGivesSend(s: Server, io: map<Tid, IoThread>, t: Tid, c: ConnId)
    requires c in s.conns && SamePc(s, io, t) && Io(s, t).pc.FinSend?
    ensures SwapsIo(s, io, t, c)
  {
    hide Shift;
  }

  lemma SwapGivesRecv(s: Server, io: map<Tid, IoThread>, t: Tid, c: ConnId)
    requires c in s.conns && SamePc(s, io, t) && Io(s, t).pc.FinRecv?
    ensures SwapsIo(s, io, t, c)
  {
    hide Shift;
  }

  lemma SwapFree(s: Server, io: map<Tid, IoThread>, t: Tid, c: ConnId)
    requires c in s.conns && SamePc(s, io, t) && Io(s, t).pc.FinRelease?
    ensures SwapsIo(s, io, t, c)
  {
    hide Shift, Release, S.AfterResponse;
  }

  lemma SwapTop(s: Server, io: map<Tid, IoThread>, t: Tid, c: ConnId)
    requires c in s.conns && SamePc(s, io, t) && Io(s, t).pc.RespTop?
    ensures SwapsIo(s, io, t, c)
  {
  }

  lemma SwapCounts(s: Server, io: map<Tid, IoThread>, t: Tid, c: ConnId)
    requires c in s.conns && SamePc(s, io, t) && (Io(s, t).pc.RespCheck? || Io(s, t).pc.ReqCount?)
    ensures SwapsIo(s, io, t, c)
  {
    hide Wrap64, S.SetEpoll;
  }

  lemma SwapEnds(s: Server, io: map<Tid, IoThread>, t: Tid, c: ConnId)
    requires c in s.conns && SamePc(s, io, t)
    requires var pc := Io(s, t).pc; pc.FinClose? || pc.FinDrain? || pc.FinDecide?
    ensures SwapsIo(s, io, t, c)
  {
    hide SwapsIo;
    if Io(s, t).pc.FinDrain? { SwapDrain(s, io, t, c); } else { SwapCloses(s, io, t, c); }
  }

  lemma SwapDrain(s: Server, io: map<Tid, IoThread>, t: Tid, c: ConnId)
    requires c in s.conns && SamePc(s, io, t) && Io(s, t).pc.FinDrain?
    ensures SwapsIo(s, io, t, c)
  {
  }

  lemma SwapCloses(s: Server, io: map<Tid, IoThread>, t: Tid, c: ConnId)
    requires c in s.conns && SamePc(s, io, t) && (Io(s, t).pc.FinClose? || Io(s, t).pc.FinDecide?)
    ensures SwapsIo(s, io, t, c)
  {
    hide Wrap64, Shift;
  }

  lemma SwapIoNext(s: Server, io: map<Tid, IoThread>, t: Tid, c: ConnId)
    requires c in s.conns && SamePc(s, io, t)
    ensures SwapsIo(s, io, t, c)
  {
    var pc := Io(s, t).pc;
    if pc.IoIdle? || pc.RespSend? || pc.ReqTop? || pc.ReqRecv? {
    } else {
      hide SwapsIo;
      if pc.RespTop? {
        SwapTop(s, io, t, c);
      } else if pc.RespCheck? || pc.ReqCount? {
        SwapCounts(s, io, t, c);
      } else if pc.FinClose? || pc.FinDrain? || pc.FinDecide? {
        SwapEnds(s, io, t, c);
      } else if pc.RespPut? || pc.ReqPut? || pc.FinPut? {
        SwapPuts(s, io, t, c);
      } else if pc.FinSend? || pc.FinRecv? {
        SwapGives(s, io, t, c);
      } else if pc.FinRelease? {
        SwapFree(s, io, t, c);
      } else if pc.RespLock? || pc.ReqLock? || pc.FinTry? {
        SwapLocks(s, io, t, c);
      } else {
        SwapUnlocks(s, io, t, c);
      }
    }
  }

  predicate SwapsHandler(cfg: Config, s: Server, io: map<Tid, IoThread>, t: Tid, c: ConnId, a: S.Act)
    requires c in s.conns
  {
    && Handler(cfg, Swap(s, io), t, c, a) == Swapped(Handler(cfg, s, t, c, a), io, t)
    && (Handler(cfg, s, t, c, a).Some? ==>
          Handler(cfg, s, t, c, a).value.io == s.io[t := Io(Handler(cfg, s, t, c, a).value, t)])
  }

  lemma SwapRecv(cfg: Config, s: Server, io: map<Tid, IoThread>, t: Tid, c: ConnId, a: S.Act)
    requires c in s.conns && SamePc(s, io, t) && a.IoRecv?
    ensures SwapsHandler(cfg, s, io, t, c, a)
  {
    hide S.ReceivedInto, S.IoSize, IoNext, SendBytes, RequestTop;
  }

  lemma SwapRequest(cfg: Config, s: Server, io: map<Tid, IoThread>, t: Tid, c: ConnId, a: S.Act)
    requires c in s.conns && SamePc(s, io, t) && a.IoReqTop?
    ensures SwapsHandler(cfg, s, io, t, c, a)
  {
    hide S.TooFarAhead, IoNext, SendBytes, RecvBytes;
  }

  /** The send that n bytes complete. */
  predicate Completes(cfg: Config, s: Server, c: ConnId, n: nat)
    requires c in s.conns
  {
    s.conns[c].sendbuf.Some? &&
    var it := ItemOf(s.conns[c].sendbuf.value, BufferOf(s, s.conns[c].sendbuf.value));
    n == it.left == S.IoSize(cfg, it)
  }

  lemma SwapSendLast(cfg: Config, s: Server, io: map<Tid, IoThread>, t: Tid, c: ConnId, n: nat)
    requires c in s.conns && SamePc(s, io, t) && Completes(cfg, s, c, n)
    ensures SwapsHandler(cfg, s, io, t, c, S.IoSend(n))
  {
    hide S.SentSlice, S.IoSize, S.AfterResponse, IoNext, RecvBytes, RequestTop, Shift;
  }

  lemma SwapSendPart(cfg: Config, s: Server, io: map<Tid, IoThread>, t: Tid, c: ConnId, n: nat)
    requires c in s.conns && SamePc(s, io, t) && !Completes(cfg, s, c, n)
    ensures SwapsHandler(cfg, s, io, t, c, S.IoSend(n))
  {
    hide S.SentSlice, S.AfterResponse, IoNext, RecvBytes, RequestTop, Release;
  }

  lemma SwapHandler(cfg: Config, s: Server, io: map<Tid, IoThread>, t: Tid, c: ConnId, a: S.Act)
    requires c in s.conns && SamePc(s, io, t) && S.InHandler(a)
    ensures SwapsHandler(cfg, s, io, t, c, a)
  {
    hide IoNext, RecvBytes, SendBytes, RequestTop;
    if a.IoStep? {
      SwapIoNext(s, io, t, c);
    } else if a.IoRecv? {
      SwapRecv(cfg, s, io, t, c, a);
    } else if a.IoReqTop? {
      SwapRequest(cfg, s, io, t, c, a);
    } else if a.IoSend? {
      if Completes(cfg, s, c, a.n) {
        SwapSendLast(cfg, s, io, t, c, a.n);
      } else {
        SwapSendPart(cfg, s, io, t, c, a.n);
      }
    }
  }

  function SwappedAll(next: Option<Server>, io: map<Tid, IoThread>): Option<Server> {
    match next
    case None => None
    case Some(s') => Some(Swap(s', io))
  }

  predicate SwapsSub(s: Server, io: map<Tid, IoThread>, t: Tid, c: ConnId)
    requires c in s.conns
  {
    && SubNext(Swap(s, io), t, c) == SwappedAll(SubNext(s, t, c), io)
    && (SubNext(s, t, c).Some? ==> SubNext(s, t, c).value.io == s.io)
  }

  lemma SwapSubPuts(s: Server, io: map<Tid, IoThread>, t: Tid, c: ConnId)
    requires c in s.conns
    requires var pc := Sub(s, t).pc; pc.SubRecycle? || pc.SubDispose? || pc.SubQueue? || pc.SubRelease?
    ensures SwapsSub(s, io, t, c)
  {
  }

  lemma SwapSubLocks(s: Server, io: map<Tid, IoThread>, t: Tid, c: ConnId)
    requires c in s.conns
    requires var pc := Sub(s, t).pc; pc.SubTry? || pc.SubDropLock? || pc.SubUnlock? || pc.SubIdle?
    ensures SwapsSub(s, io, t, c)
  {
  }

  lemma SwapSubCounts(s: Server, io: map<Tid, IoThread>, t: Tid, c: ConnId)
    requires c in s.conns && (Sub(s, t).pc.SubCount? || Sub(s, t).pc.SubCheck? || Sub(s, t).pc.SubArm?)
    ensures SwapsSub(s, io, t, c)
  {
    hide Wrap64, S.SetEpoll;
  }

  lemma SwapComp(cfg: Config, s: Server, io: map<Tid, IoThread>, t: Tid, c: ConnId)
    requires c in s.conns
    ensures CompNext(cfg, Swap(s, io), t, c) == SwappedAll(CompNext(cfg, s, t, c), io)
    ensures CompNext(cfg, s, t, c).Some? ==> CompNext(cfg, s, t, c).value.io == s.io
  {
    hide Respond;
  }

  predicate SwapsAll(cfg: Config, s: Server, io: map<Tid, IoThread>, m: Move) {
    && Next(cfg, Swap(s, io), m) == SwappedAll(Next(cfg, s, m), io)
    && (Next(cfg, s, m).Some? ==> Next(cfg, s, m).value.io == s.io)
  }

  lemma SwapAccepts(cfg: Config, s: Server, io: map<Tid, IoThread>, m: Move)
    requires m.a.AcceptTake? || m.a.AcceptServe?
    ensures SwapsAll(cfg, s, io, m)
  {
    hide S.Accepted, Handler, SubNext, CompNext, Shift;
  }

  lemma SwapTakes(cfg: Config, s: Server, io: map<Tid, IoThread>, m: Move)
    requires m.a.CompTake? || m.a.SubTake?
    ensures SwapsAll(cfg, s, io, m)
  {
    hide S.Accepted, Handler, SubNext, CompNext;
  }

  /** A step of another thread leaves the IO threads alone. */
  lemma SwapOther(cfg: Config, s: Server, io: map<Tid, IoThread>, m: Move)
    requires !S.InHandler(m.a) && !m.a.IoEvent?
    ensures SwapsAll(cfg, s, io, m)
  {
    if m.a.AcceptTake? || m.a.AcceptServe? {
      SwapAccepts(cfg, s, io, m);
    } else if m.a.CompTake? || m.a.SubTake? {
      SwapTakes(cfg, s, io, m);
    } else {
      SwapSteps(cfg, s, io, m);
    }
  }

  lemma SwapSteps(cfg: Config, s: Server, io: map<Tid, IoThread>, m: Move)
    requires m.a.SubStep? || m.a.CompStep?
    ensures SwapsAll(cfg, s, io, m)
  {
    hide Handler, SubNext, CompNext, S.Accepted, Shift;
    if m.c in s.conns {
      SwapComp(cfg, s, io, m.t, m.c);
      var pc := Sub(s, m.t).pc;
      if pc.SubRecycle? || pc.SubDispose? || pc.SubQueue? || pc.SubRelease? {
        SwapSubPuts(s, io, m.t, m.c);
      } else if pc.SubCount? || pc.SubCheck? || pc.SubArm? {
        SwapSubCounts(s, io, m.t, m.c);
      } else {
        SwapSubLocks(s, io, m.t, m.c);
      }
    }
  }

  lemma SwapEvent(cfg: Config, s: Server, io: map<Tid, IoThread>, m: Move)
    requires m.a.IoEvent? && SamePc(s, io, m.t)
    ensures Next(cfg, Swap(s, io), m) == Swapped(Next(cfg, s, m), io, m.t)
    ensures Next(cfg, s, m).Some? ==> Next(cfg, s, m).value.io == s.io[m.t := Io(Next(cfg, s, m).value, m.t)]
  {
    hide Handler, CompNext, SubNext;
  }

  // ---------------------------------------------------------------- what a settled server says

  /** In a state of the invariant a finished connection has no thread in a
      handler, and a busy thread is the connection's own. */
  lemma BusyThread(cfg: Config, u: Server, t: Tid)
    requires Inv(cfg, u) && Io(u, t).pc != S.IoIdle
    ensures Io(u, t).conn in u.conns && u.conns[Io(u, t).conn].ioidx == t
    ensures View(u, Io(u, t).conn).io == Io(u, t).pc && View(u, Io(u, t).conn).conn == u.conns[Io(u, t).conn]
    ensures I.Inv(cfg, View(u, Io(u, t).conn)) && I.InService(View(u, Io(u, t).conn))
    ensures u.conns[Io(u, t).conn].closed ==> Io(u, t).pc.FinUnlock? || Io(u, t).pc.FinRelease?
  {
    hide Conserved, Placed, Q, H.Faithful, I.Wakeups;
    assert I.Inv(cfg, View(u, Io(u, t).conn));
  }

  lemma SenderStep(cfg: Config, clean: bool, v: S.Session, a: S.Act)
    requires ValidConfig(cfg) && I.Inv(cfg, v) && SenderOk(cfg, clean, v) && S.Next(cfg, v, a).Some?
    ensures SenderOk(cfg, clean, S.Next(cfg, v, a).value)
  {
    hide I.Inv, SenderOk, S.SubNext, S.CompNext, S.IoNext, S.RecvBytes, S.SendBytes, S.RequestTop, S.Accepted;
    match a
    case IoStep => IoSender(cfg, clean, v);
    case CompStep => StageSender(cfg, clean, v);
    case SubStep => StageSender(cfg, clean, v);
    case _ => SocketSender(cfg, clean, v, a);
  }

  lemma SocketSender(cfg: Config, clean: bool, v: S.Session, a: S.Act)
    requires ValidConfig(cfg) && I.Inv(cfg, v) && SenderOk(cfg, clean, v) && S.Next(cfg, v, a).Some?
    requires !a.IoStep? && !a.CompStep? && !a.SubStep?
    ensures SenderOk(cfg, clean, S.Next(cfg, v, a).value)
  {
    hide Sub64, KernelAfter, S.ReceivedInto, S.SentSlice, S.IoSize, S.TooFarAhead, I.Inv;
    if a.IoSendFail? { FailSender(cfg, v); }
    if a.AcceptServe? || v.nfree > 0 || v.accepting { FreeStays(cfg, v, a); }
  }

  /** A send is tried with sendbuf set, so something is in flight. */
  lemma FailSender(cfg: Config, v: S.Session)
    requires I.Inv(cfg, v) && v.io.RespSend?
    ensures v.conn.sendbuf.Some? && (cfg.readahead == 0 ==> v.conn.recvbuf.None?)
    ensures v.nfree == 0 && !v.accepting
  {
    hide I.Wakeups;
  }

  lemma FreeStays(cfg: Config, v: S.Session, a: S.Act)
    requires I.Inv(cfg, v) && S.Next(cfg, v, a).Some? && (v.nfree > 0 || v.accepting)
    requires !a.IoStep? && !a.CompStep? && !a.SubStep?
    ensures a.AcceptTake? || a.AcceptServe?
    ensures a.AcceptServe? ==> v.nfree == 0
  {
    hide I.Shape, I.Counts, I.Wakeups, S.Accepted;
  }

  lemma IoSender(cfg: Config, clean: bool, v: S.Session)
    requires I.Inv(cfg, v) && SenderOk(cfg, clean, v) && S.IoNext(v).Some?
    ensures SenderOk(cfg, clean, S.IoNext(v).value)
  {
    hide S.IoNext, SenderOk;
    if FinishesInSend(v.io) || v.io.FinUnlock? || v.io.FinRelease? {
      FinishSender(cfg, clean, v);
    } else {
      OwnSender(cfg, clean, v);
    }
  }

  lemma FinishSender(cfg: Config, clean: bool, v: S.Session)
    requires I.Inv(cfg, v) && SenderOk(cfg, clean, v) && S.IoNext(v).Some?
    requires FinishesInSend(v.io) || v.io.FinUnlock? || v.io.FinRelease?
    ensures SenderOk(cfg, clean, S.IoNext(v).value)
  {
    hide Wrap64, I.Wakeups, I.Shape;
  }

  lemma OwnSender(cfg: Config, clean: bool, v: S.Session)
    requires I.Inv(cfg, v) && SenderOk(cfg, clean, v) && S.IoNext(v).Some?
    requires !FinishesInSend(v.io) && !v.io.FinUnlock? && !v.io.FinRelease?
    ensures SenderOk(cfg, clean, S.IoNext(v).value)
  {
    hide Wrap64, KernelAfter, I.Shape, I.Counts, I.Wakeups;
  }

  lemma StageSender(cfg: Config, clean: bool, v: S.Session)
    requires I.Inv(cfg, v) && SenderOk(cfg, clean, v)
    ensures S.SubNext(v).Some? ==> SenderOk(cfg, clean, S.SubNext(v).value)
    ensures S.CompNext(cfg, v).Some? ==> SenderOk(cfg, clean, S.CompNext(cfg, v).value)
  {
    hide Wrap64, KernelAfter, Respond, I.Wakeups, I.Shape;
  }

  /** A finished connection with a stale sendbuf is not served again, and what
      the other threads do leaves these fields alone. */
  lemma Lingers(cfg: Config, v: S.Session, a: S.Act)
    requires I.Inv(cfg, v) && v.io == S.IoIdle && v.conn.closed && v.conn.sendbuf.Some?
    requires S.Good(v, a) && S.Next(cfg, v, a).Some?
    ensures var (k, k') := (v.conn, S.Next(cfg, v, a).value.conn);
            && k'.closed && k'.sendbuf == k.sendbuf && k'.recvbuf == k.recvbuf && k'.ioidx == k.ioidx
            && k'.received == k.received && k'.sent == k.sent
  {
    hide Wrap64, Respond, KernelAfter, I.Counts, I.Shape, S.SubNext, S.CompNext;
    StageLingers(cfg, v);
  }

  lemma StageLingers(cfg: Config, v: S.Session)
    ensures S.SubNext(v).Some? ==>
              var (k, k') := (v.conn, S.SubNext(v).value.conn);
              && k'.closed == k.closed && k'.sendbuf == k.sendbuf && k'.recvbuf == k.recvbuf && k'.ioidx == k.ioidx
              && k'.received == k.received && k'.sent == k.sent
    ensures S.CompNext(cfg, v).Some? ==> S.CompNext(cfg, v).value.conn == v.conn
  {
    hide Wrap64, Respond, KernelAfter;
  }

  /** A step of a thread that is not astray, seen in the settled server. */
  ghost predicate Mirrored(cfg: Config, s: Server, m: Move, s': Server, u': Server) {
    && Next(cfg, Settle(s), m) == Some(u') && GoodMove(Settle(s), m)
    && u' == Swap(s', u'.io)
    && (forall t :: Io(u', t) == Io(s', t) || (Io(s', t) == Io(s, t) && Io(u', t) == Waiting(s, t)))
    && u'.io.Keys == s'.io.Keys
  }

  lemma Mirror(cfg: Config, s: Server, m: Move, s': Server) returns (u': Server)
    requires Next(cfg, s, m) == Some(s') && GoodMove(s, m)
    requires S.InHandler(m.a) || m.a.IoEvent? ==> !Astray(s, m.t)
    ensures Mirrored(cfg, s, m, s', u')
  {
    hide Next, Mirrored, GoodMove;
    if S.InHandler(m.a) || m.a.IoEvent? {
      u' := MirrorIo(cfg, s, m, s');
    } else {
      u' := MirrorOther(cfg, s, m, s');
    }
  }

  lemma SettleSwaps(s: Server)
    ensures Settle(s) == Swap(s, Settle(s).io) && Settle(s).io.Keys == s.io.Keys
    ensures forall t :: !Astray(s, t) ==> SamePc(s, Settle(s).io, t)
    ensures forall t :: Io(Settle(s), t) == Waiting(s, t)
  {
  }

  lemma MirrorIo(cfg: Config, s: Server, m: Move, s': Server) returns (u': Server)
    requires Next(cfg, s, m) == Some(s') && GoodMove(s, m)
    requires (S.InHandler(m.a) || m.a.IoEvent?) && !Astray(s, m.t)
    ensures Mirrored(cfg, s, m, s', u')
  {
    hide Settle, Waiting;
    var u := Settle(s);
    SettleSwaps(s);
    u' := Swap(s', u.io[m.t := Io(s', m.t)]);
    SwapIo(cfg, s, u.io, m, s');
  }

  lemma SwapIo(cfg: Config, s: Server, io: map<Tid, IoThread>, m: Move, s': Server)
    requires Next(cfg, s, m) == Some(s') && SamePc(s, io, m.t) && (S.InHandler(m.a) || m.a.IoEvent?)
    ensures Next(cfg, Swap(s, io), m) == Some(Swap(s', io[m.t := Io(s', m.t)])) && s'.io == s.io[m.t := Io(s', m.t)]
  {
    hide Handler, SubNext, CompNext;
    if S.InHandler(m.a) {
      SwapHandler(cfg, s, io, m.t, m.c, m.a);
    } else {
      SwapEvent(cfg, s, io, m);
    }
  }

  lemma MirrorOther(cfg: Config, s: Server, m: Move, s': Server) returns (u': Server)
    requires Next(cfg, s, m) == Some(s') && GoodMove(s, m)
    requires !S.InHandler(m.a) && !m.a.IoEvent?
    ensures Mirrored(cfg, s, m, s', u')
  {
    hide Next;
    var u := Settle(s);
    SettleSwaps(s);
    SwapOther(cfg, s, u.io, m);
    u' := Swap(s', u.io);
  }

  // ---------------------------------------------------------------- preservation

  /** The settled server after the step is the mirrored step's. */
  lemma StaysSettled(cfg: Config, clean: bool, s: Server, m: Move, s': Server, u': Server)
    requires ValidConfig(cfg) && Settled(cfg, clean, s) && Next(cfg, s, m) == Some(s') && Mirrored(cfg, s, m, s', u')
    ensures Settled(cfg, clean, s')
  {
    hide Inv, Next, View, GoodMove, S.TooFarAhead;
    var u := Settle(s);
    StepInv(cfg, u, u', m);
    forall t ensures Io(u', t) == Waiting(s', t) && (Astray(s', t) ==> Idler(cfg, s', t)) {
      if Io(u', t) == Io(s', t) {
        NotAstray(cfg, s', u', t);
      } else {
        StaysAway(cfg, clean, s, m, s', u', t);
      }
    }
    assert u' == Settle(s');
    forall c | c in u'.conns ensures SenderOk(cfg, clean, View(u', c)) {
      if c == m.c {
        SessionKept(cfg, u, c);
        SenderStep(cfg, clean, View(u, c), m.a);
      }
    }
  }

  predicate Idler(cfg: Config, s: Server, t: Tid) {
    && Io(s, t).conn in s.conns && s.conns[Io(s, t).conn].ioidx == t && Harmless(cfg, s.conns[Io(s, t).conn])
  }

  lemma SessionKept(cfg: Config, u: Server, c: ConnId)
    requires Inv(cfg, u) && c in u.conns
    ensures I.Inv(cfg, View(u, c)) && View(u, c).conn == u.conns[c]
  {
  }

  lemma NotAstray(cfg: Config, s': Server, u': Server, t: Tid)
    requires Inv(cfg, u') && u' == Swap(s', u'.io) && Io(u', t) == Io(s', t)
    ensures !Astray(s', t)
  {
    hide Inv, View;
    if Io(u', t).pc == S.ReqTop { BusyThread(cfg, u', t); }
  }

  lemma StaysAway(cfg: Config, clean: bool, s: Server, m: Move, s': Server, u': Server, t: Tid)
    requires ValidConfig(cfg) && Settled(cfg, clean, s) && Mirrored(cfg, s, m, s', u') && Inv(cfg, u')
    requires Sim(cfg, Settle(s), u', m.c, m.a) && m.c in s.conns && S.Good(View(Settle(s), m.c), m.a)
    requires Io(u', t) != Io(s', t)
    ensures Astray(s', t) && Idler(cfg, s', t) && Io(u', t) == Waiting(s', t)
  {
    hide Inv, View, Next, GoodMove, S.Next, S.Good, Struct;
    var u := Settle(s);
    var d := Io(s, t).conn;
    SettleReads(s);
    assert Astray(s, t) && Io(s', t) == Io(s, t);
    SessionKept(cfg, u, d);
    SessionKept(cfg, u', d);
    IdleView(u, d, t);
    if d == m.c {
      Lingers(cfg, View(u, d), m.a);
    }
    assert Harmless(cfg, s'.conns[d]);
  }

  lemma IdleView(u: Server, d: ConnId, t: Tid)
    requires d in u.conns && u.conns[d].ioidx == t && Io(u, t).pc == S.IoIdle
    ensures View(u, d).io == S.IoIdle
  {
    hide Q;
  }

  /** An astray thread that finds nothing to do comes back to its wait. */
  lemma AstrayReturns(cfg: Config, clean: bool, s: Server, m: Move, s': Server)
    requires Settled(cfg, clean, s) && Next(cfg, s, m) == Some(s') && Astray(s, m.t) && S.InHandler(m.a)
    ensures Settle(s') == Settle(s) && Settled(cfg, clean, s')
  {
    hide Inv, View, Senders, Next, S.TooFarAhead;
    ReturnsSo(cfg, s, m, s');
    SettleReads(s);
    SettleReads(s');
    assert Settle(s').io == Settle(s).io;
    forall t | Astray(s', t) ensures s'.conns[Io(s', t).conn].ioidx == t && Harmless(cfg, s'.conns[Io(s', t).conn]) {
      assert Astray(s, t);
    }
  }

  lemma ReturnsSo(cfg: Config, s: Server, m: Move, s': Server)
    requires Idlers(cfg, s) && Next(cfg, s, m) == Some(s') && Astray(s, m.t) && S.InHandler(m.a)
    ensures s' == PutIo(s, m.t, m.c, S.IoIdle) && Io(s, m.t).conn == m.c
  {
    hide RecvBytes, SendBytes, S.TooFarAhead;
  }

  // ---------------------------------------------------------------- the step astray

  /** The event that goes on and the event that does not differ in nothing else. */
  lemma MoreIsNothing(cfg: Config, u: Server, t: Tid, c: ConnId)
    requires Inv(cfg, u) && Io(u, t) == IoThread(c, S.FinUnlock(true))
    ensures Inv(cfg, PutIo(u, t, c, S.FinUnlock(false)))
  {
    hide Conserved, Placed, Assigned, View, I.Inv, H.Faithful;
    var w := PutIo(u, t, c, S.FinUnlock(false));
    LessStruct(u, t, c);
    forall d | d in w.conns ensures I.Inv(cfg, View(w, d)) && H.Faithful(cfg, View(w, d)) {
      assert I.Inv(cfg, View(u, d)) && H.Faithful(cfg, View(u, d));
      LessViews(u, t, c, d);
      LessView(cfg, View(u, d), View(w, d));
    }
  }

  lemma LessStruct(u: Server, t: Tid, c: ConnId)
    requires Struct(u) && Io(u, t) == IoThread(c, S.FinUnlock(true))
    ensures Struct(PutIo(u, t, c, S.FinUnlock(false)))
  {
    hide Conserved;
    var w := PutIo(u, t, c, S.FinUnlock(false));
    SameConserved(u, w);
    forall p, b | p != Pool && b in At(w, p) ensures Home(w, p, b) {
      assert Home(u, p, b);
    }
    assert forall r :: Comp(w, r) == Comp(u, r) && Sub(w, r) == Sub(u, r) && (r != t ==> Io(w, r) == Io(u, r));
    assert Io(u, t).pc != S.IoIdle && Io(w, t).conn == c;
    assert Assigned(w);
  }

  lemma LessViews(u: Server, t: Tid, c: ConnId, d: ConnId)
    requires Assigned(u) && Io(u, t) == IoThread(c, S.FinUnlock(true)) && d in u.conns
    ensures View(PutIo(u, t, c, S.FinUnlock(false)), d) ==
            if d == c then View(u, c).(io := S.FinUnlock(false)) else View(u, d)
    ensures d == c ==> View(u, c).io == S.FinUnlock(true)
  {
    hide Proj;
    var w := PutIo(u, t, c, S.FinUnlock(false));
    assert forall p :: Q(w, p, d) == Q(u, p, d);
  }

  lemma LessView(cfg: Config, v: S.Session, w: S.Session)
    requires I.Inv(cfg, v) && H.Faithful(cfg, v)
    requires w == v || (v.io == S.FinUnlock(true) && w == v.(io := S.FinUnlock(false)))
    ensures I.Inv(cfg, w) && H.Faithful(cfg, w)
  {
  }

  /** The unlock of an event that goes on, and then nothing more of it, is the
      unlock of one that does not. */
  lemma UnlocksAsIf(cfg: Config, u: Server, t: Tid, c: ConnId) returns (u': Server)
    requires ValidConfig(cfg) && Inv(cfg, u) && Io(u, t) == IoThread(c, S.FinUnlock(true)) && c in u.conns
    ensures u' == PutIo(PutConn(u, c, u.conns[c].(lock := false)), t, c, S.IoIdle)
    ensures Inv(cfg, u') && Sim(cfg, PutIo(u, t, c, S.FinUnlock(false)), u', c, S.IoStep)
  {
    hide Inv, Next, Sim, GoodMove;
    MoreIsNothing(cfg, u, t, c);
    var w := PutIo(u, t, c, S.FinUnlock(false));
    var m := Move(t, c, S.IoStep);
    Unlocks(cfg, w, m, false);
    u' := PutIo(PutConn(u, c, u.conns[c].(lock := false)), t, c, S.IoIdle);
    assert w.io[t := IoThread(c, S.IoIdle)] == u'.io;
    StepInv(cfg, w, u', m);
  }

  lemma GoesAstray(cfg: Config, clean: bool, s: Server, m: Move, s': Server)
    requires ValidConfig(cfg) && Settled(cfg, clean, s) && Next(cfg, s, m) == Some(s')
    requires m.a == S.IoStep && Io(s, m.t) == IoThread(m.c, S.FinUnlock(true))
    requires s.conns[m.c].recvbuf.None? && S.TooFarAhead(cfg, s.conns[m.c])
    ensures Settled(cfg, clean, s')
  {
    hide Inv, View, Next, S.TooFarAhead, S.Next, Struct, GoodMove, Sim;
    var (t, c) := (m.t, m.c);
    var u := Settle(s);
    SettleReads(s);
    BusyThread(cfg, u, t);
    var u' := UnlocksAsIf(cfg, u, t, c);
    Unlocks(cfg, s, m, true);
    assert SenderOk(cfg, clean, View(u, c));
    SettlesSo(cfg, s, s', t, c, s.conns[c].(lock := false));
    assert Settle(s') == u';
    forall d | d in u'.conns ensures SenderOk(cfg, clean, View(u', d)) {
      AstraySender(cfg, clean, u, PutIo(u, t, c, S.FinUnlock(false)), u', m, d);
    }
  }

  lemma Unlocks(cfg: Config, s: Server, m: Move, more: bool)
    requires m.c in s.conns && m.a == S.IoStep && Io(s, m.t) == IoThread(m.c, S.FinUnlock(more))
    ensures Next(cfg, s, m) ==
            Some(PutIo(PutConn(s, m.c, s.conns[m.c].(lock := false)), m.t, m.c, S.AfterResponse(more)))
    ensures !more ==> GoodMove(s, m)
  {
    hide SubNext, CompNext;
  }

  lemma SettlesSo(cfg: Config, s: Server, s': Server, t: Tid, c: ConnId, k: S.Conn)
    requires c in s.conns && s.conns[c].closed && k == s.conns[c].(lock := false) && Idlers(cfg, s)
    requires s.conns[c].ioidx == t && s.conns[c].sendbuf.Some? && s.conns[c].recvbuf.None?
    requires S.TooFarAhead(cfg, s.conns[c]) && s' == PutIo(PutConn(s, c, k), t, c, S.ReqTop)
    ensures Settle(s') == PutIo(PutConn(Settle(s), c, k), t, c, S.IoIdle) && Idlers(cfg, s')
  {
    hide Sub64, Wrap64, Settle;
    StillAstray(s, s', t, c, k);
    assert Settle(s').io == Settle(s).io[t := IoThread(c, S.IoIdle)] by { SettlesIo(s, s', t, c); }
    SettleKeeps(s);
    SettleKeeps(s');
  }

  lemma SettleKeeps(s: Server)
    ensures Settle(s) == Swap(s, Settle(s).io)
  {
  }

  lemma StillAstray(s: Server, s': Server, t: Tid, c: ConnId, k: S.Conn)
    requires c in s.conns && s.conns[c].closed && k == s.conns[c].(lock := false)
    requires s' == PutIo(PutConn(s, c, k), t, c, S.ReqTop)
    ensures Astray(s', t) && Io(s', t) == IoThread(c, S.ReqTop)
    ensures forall r :: r != t ==> Astray(s', r) == Astray(s, r) && Io(s', r) == Io(s, r)
    ensures s'.io.Keys == s.io.Keys + {t}
  {
  }

  lemma SettlesIo(s: Server, s': Server, t: Tid, c: ConnId)
    requires Astray(s', t) && Io(s', t) == IoThread(c, S.ReqTop) && s'.io.Keys == s.io.Keys + {t}
    requires forall r :: r != t ==> Astray(s', r) == Astray(s, r) && Io(s', r) == Io(s, r)
    ensures Settle(s').io == Settle(s).io[t := IoThread(c, S.IoIdle)]
  {
    hide Astray;
    SettleReads(s);
    SettleReads(s');
  }

  lemma AstraySender(cfg: Config, clean: bool, u: Server, w: Server, u': Server, m: Move, d: ConnId)
    requires Inv(cfg, u) && Senders(cfg, clean, u) && d in u'.conns && m.c in w.conns && u'.conns.Keys == u.conns.Keys
    requires Io(u, m.t) == IoThread(m.c, S.FinUnlock(true)) && w == PutIo(u, m.t, m.c, S.FinUnlock(false))
    requires Sim(cfg, w, u', m.c, S.IoStep)
    ensures SenderOk(cfg, clean, View(u', d))
  {
    hide Conserved, Placed, Sessions, View, S.Next;
    LessViews(u, m.t, m.c, d);
    if d == m.c {
      ActSteps(cfg, View(w, d));
      assert View(u', d).io == S.IoIdle;
    }
  }
}
