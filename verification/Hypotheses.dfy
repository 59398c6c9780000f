/** Where the code falls short of what it promises. The two hypotheses of
    SessionProtocol are exactly what its steps need; a finish leaves sendbuf
    behind; a closed connection can be lost; the order of the answers can be.
 */
module Hypotheses {
  import opened Rpc
  import opened Epoll
  import opened SessionProtocol
  import opened SessionInvariant
  import opened SessionHistory
  import opened SessionTheorems

  // ---------------------------------------------------------------- the hypotheses are exact

  /** A step from a state of the invariant leads to a state of the invariant if
      and only if it meets the hypotheses: sendbuf is NULL when a connection
      enters service, and a completed finish is the end of its event. */
  lemma {:induction false} GoodIsExact(cfg: Config, v: Session, a: Act)
    requires ValidConfig(cfg) && Inv(cfg, v) && Next(cfg, v, a).Some?
    ensures Inv(cfg, Next(cfg, v, a).value) <==> Good(v, a)
  {
    if Good(v, a) {
      StepInv(cfg, v, a);
    } else if a.AcceptServe? {
      StaleAccept(cfg, v, a);
    } else {
      AstrayStep(cfg, v);
    }
  }

  lemma StaleAccept(cfg: Config, v: Session, a: Act)
    requires Inv(cfg, v) && a.AcceptServe? && v.accepting && v.conn.sendbuf.Some?
    ensures !Inv(cfg, Next(cfg, v, a).value)
  {
  }

  lemma AstrayStep(cfg: Config, v: Session)
    requires Inv(cfg, v) && (v.io.FinUnlock? || v.io.FinRelease?) && v.io.more
    ensures !Inv(cfg, IoNext(v).value)
  {
  }

  /** On any run from the moment finish_connection gets the lock to the moment
      the connection is back on the free list, sendbuf keeps what it had: the
      next accept meets the first hypothesis if and only if the finish found
      sendbuf NULL. */
  lemma {:induction false} NextAcceptIsGood(cfg: Config, vs: seq<Session>, acts: seq<Act>, i: nat, c: nat, s: nat)
    requires ValidConfig(cfg) && Run(cfg, vs, acts) && Reachable(cfg, vs[0])
    requires vs[0].io.FinSend? && AcceptTake !in acts && vs[|acts|].nfree > 0
    ensures Next(cfg, vs[|acts|], AcceptTake).Some?
    ensures Good(Next(cfg, vs[|acts|], AcceptTake).value, AcceptServe(i, c, s)) <==> vs[0].conn.sendbuf.None?
  {
    var v := vs[0];
    ReachableKeeps(cfg, v);
    RunFinished(cfg, vs, acts, v.conn.processed, v.conn.received, v.conn.sendbuf.Some?, |acts|);
  }

  // ---------------------------------------------------------------- reaching a state

  lemma {:induction false} Go(cfg: Config, v: Session, a: Act) returns (w: Session)
    requires Reachable(cfg, v) && Good(v, a) && Next(cfg, v, a).Some?
    ensures w == Next(cfg, v, a).value && Reachable(cfg, w)
  {
    hide Next, Good, Initial;
    w := Next(cfg, v, a).value;
    var vs, acts :| Run(cfg, vs, acts) && Initial(vs[0]) && v == vs[|acts|];
    var ws, more := vs + [w], acts + [a];
    forall i | 0 <= i < |more|
      ensures Good(ws[i], more[i]) && Next(cfg, ws[i], more[i]) == Some(ws[i + 1])
    {
      if i < |acts| {
        assert Good(vs[i], acts[i]) && Next(cfg, vs[i], acts[i]) == Some(vs[i + 1]);
      }
    }
    assert Run(cfg, ws, more) && ws[0] == vs[0];
  }

  /** A connection just accepted, on the free list before. */
  function Fresh(): Session {
    Session(Conn(0, 0, 0, 0, 0, 0, false, false, EPOLLIN, Some(EPOLLIN), None, None, NO_HISTORY),
            [], [], [], [], [], [], [], [], IoIdle, CompIdle, SubIdle, 0, false)
  }

  lemma FreshReachable(cfg: Config)
    ensures Reachable(cfg, Fresh())
  {
    var k := Conn(0, 0, 0, 0, 0, 0, false, false, NO_INTEREST, None, None, None, NO_HISTORY);
    var v := Session(k, [], [], [], [], [], [], [], [], IoIdle, CompIdle, SubIdle, 1, false);
    assert Run(cfg, [v], []) && Initial([v][0]);
    var w := Go(cfg, v, AcceptTake);
    w := Go(cfg, w, AcceptServe(0, 0, 0));
  }

  // ---------------------------------------------------------------- a stale sendbuf

  /** With room for one request only, that cannot be: a finish that finds sendbuf
      set is the end of the connection. */
  lemma {:induction false} NoReadaheadNoStale(cfg: Config, vs: seq<Session>, acts: seq<Act>)
    requires ValidConfig(cfg) && cfg.readahead == 0 && Run(cfg, vs, acts) && Reachable(cfg, vs[0])
    requires vs[0].io.FinSend? && AcceptTake !in acts && vs[|acts|].nfree > 0
    ensures vs[|acts|].conn.sendbuf.None?
  {
    var v := vs[0];
    ReachableKeeps(cfg, v);
    RunFinished(cfg, vs, acts, v.conn.processed, v.conn.received, v.conn.sendbuf.Some?, |acts|);
  }

  // ---------------------------------------------------------------- when the order is safe

  /** The session with the recycled mark rubbed out. No step reads the mark. */
  function Unmarked(v: Session): Session {
    v.(conn := v.conn.(hist := v.conn.hist.(recycled := false)))
  }

  ghost predicate Ordered(cfg: Config, v: Session) {
    Faithful(cfg, v) && Faithful(cfg, Unmarked(v))
  }

  lemma UnmarkedInv(cfg: Config, v: Session)
    requires Inv(cfg, v)
    ensures Inv(cfg, Unmarked(v))
  {
  }

  predicate SameIo(v: Session) {
    IoNext(Unmarked(v)) == match IoNext(v) case None => None case Some(w) => Some(Unmarked(w))
  }

  lemma UnmarkedResponding(v: Session)
    requires Responding(v.io)
    ensures SameIo(v)
  {
    hide Wrap64, KernelAfter, AfterResponse;
  }

  lemma UnmarkedRequesting(v: Session)
    requires Requesting(v.io)
    ensures SameIo(v)
  {
  }

  lemma UnmarkedClosing(v: Session)
    requires v.io.FinTry? || v.io.FinSend? || v.io.FinRecv? || v.io.FinClose?
    ensures SameIo(v)
  {
    hide AfterResponse;
  }

  lemma UnmarkedDraining(v: Session)
    requires v.io.FinDrain? || v.io.FinPut? || v.io.FinDecide? || v.io.FinUnlock? || v.io.FinRelease?
    ensures SameIo(v)
  {
    hide Wrap64, AfterResponse;
  }

  lemma UnmarkedWaiting(v: Session)
    requires v.io.IoIdle? || v.io.RespSend? || v.io.ReqTop? || v.io.ReqRecv?
    ensures SameIo(v)
  {
  }

  lemma UnmarkedIo(v: Session)
    ensures SameIo(v)
  {
    hide SameIo;
    if Responding(v.io) {
      UnmarkedResponding(v);
    } else if Requesting(v.io) {
      UnmarkedRequesting(v);
    } else if v.io.FinTry? || v.io.FinSend? || v.io.FinRecv? || v.io.FinClose? {
      UnmarkedClosing(v);
    } else if v.io.IoIdle? || v.io.RespSend? || v.io.ReqTop? || v.io.ReqRecv? {
      UnmarkedWaiting(v);
    } else {
      UnmarkedDraining(v);
    }
  }

  lemma UnmarkedSub(v: Session)
    requires v.sub != SubRecycle
    ensures SubNext(Unmarked(v)) == match SubNext(v) case None => None case Some(w) => Some(Unmarked(w))
  {
    hide Wrap64, KernelAfter;
  }

  lemma UnmarkedComp(cfg: Config, v: Session)
    ensures CompNext(cfg, Unmarked(v)) == match CompNext(cfg, v) case None => None case Some(w) => Some(Unmarked(w))
  {
    hide Respond;
  }

  lemma UnmarkedSocket(cfg: Config, v: Session, a: Act)
    requires a.IoRecv? || a.IoSend?
    ensures Next(cfg, Unmarked(v), a) == match Next(cfg, v, a) case None => None case Some(w) => Some(Unmarked(w))
  {
    hide ReceivedInto, SentSlice, IoSize, AfterResponse;
  }

  lemma UnmarkedStep(cfg: Config, v: Session, a: Act)
    requires Next(cfg, v, a).Some? && !(a == SubStep && v.sub == SubRecycle)
    ensures Next(cfg, Unmarked(v), a) == Some(Unmarked(Next(cfg, v, a).value))
    ensures Good(Unmarked(v), a) == Good(v, a)
  {
    hide IoNext, SubNext, CompNext, SendBytes, RecvBytes, Sub64, Wrap64;
    match a
    case IoStep => UnmarkedIo(v);
    case SubStep => UnmarkedSub(v);
    case CompStep => UnmarkedComp(cfg, v);
    case IoRecv(_) => UnmarkedSocket(cfg, v, a);
    case IoSend(_) => UnmarkedSocket(cfg, v, a);
    case _ =>
  }

  /** With room for one request only, a buffer that is sent back has the inbox to
      itself. */
  lemma AloneInInbox(cfg: Config, v: Session)
    requires Inv(cfg, v) && cfg.readahead == 0 && v.sub == SubRecycle
    ensures v.sin == []
  {
  }

  lemma RecycleAlone(cfg: Config, v: Session)
    requires v.sub == SubRecycle && v.sin == [] && Faithful(cfg, Unmarked(v)) && SubNext(v).Some?
    ensures Faithful(cfg, Unmarked(SubNext(v).value))
  {
    hide Flat, Replied, Whole, Lay;
    var u, w := Unmarked(v), Unmarked(SubNext(v).value);
    assert v.sin + v.shand == v.shand;
    LineAlone(u.conn.hist.answered, u.send, u.sendq, u.shand, u.chand, u.cin, Counted(u));
    assert Line(w) == Line(u);
    if Serving(w) {
      NoneInHand(cfg);
      assert Sound(cfg, w);
    }
  }

  lemma NoneInHand(cfg: Config)
    ensures Whole([]) && Replied(cfg, [])
  {
  }

  lemma LineAlone(a: seq<Item>, s: seq<Item>, q: seq<Item>, h: seq<Item>, c: seq<Item>, i: seq<Item>, k: seq<Item>)
    ensures Lay(a, s, q, [], h, c, i, k) == Lay(a, s, q, h, [], c, i, k)
  {
  }

  lemma OrderedStep(cfg: Config, v: Session, a: Act)
    requires ValidConfig(cfg) && cfg.readahead == 0 && Inv(cfg, v) && Ordered(cfg, v)
    requires Good(v, a) && Next(cfg, v, a).Some?
    ensures Ordered(cfg, Next(cfg, v, a).value)
  {
    hide Inv, Faithful, SubNext, Good;
    StepFaithful(cfg, v, a);
    if a == SubStep && v.sub == SubRecycle {
      AloneInInbox(cfg, v);
      RecycleAlone(cfg, v);
    } else {
      UnmarkedInv(cfg, v);
      UnmarkedStep(cfg, v, a);
      StepFaithful(cfg, Unmarked(v), a);
    }
  }

  lemma {:induction false} RunOrdered(cfg: Config, vs: seq<Session>, acts: seq<Act>, n: nat)
    requires ValidConfig(cfg) && cfg.readahead == 0 && Run(cfg, vs, acts) && Initial(vs[0]) && n <= |acts|
    ensures Inv(cfg, vs[n]) && Ordered(cfg, vs[n])
  {
    hide Inv, Faithful, Next, Good;
    if n == 0 {
      InitInv(cfg, vs[0]);
      NotServed(cfg, vs[0]);
      NotServed(cfg, Unmarked(vs[0]));
    } else {
      RunOrdered(cfg, vs, acts, n - 1);
      assert Good(vs[n - 1], acts[n - 1]) && Next(cfg, vs[n - 1], acts[n - 1]) == Some(vs[n]);
      StepInv(cfg, vs[n - 1], acts[n - 1]);
      OrderedStep(cfg, vs[n - 1], acts[n - 1]);
    }
  }

  lemma NotServed(cfg: Config, v: Session)
    requires v.nfree > 0
    ensures Faithful(cfg, v)
  {
  }

  ghost predicate InOrder(v: Session) {
    Serving(v) ==> Reqs(v.conn.hist.answered) <= v.conn.hist.delivered
  }

  lemma OneAtATime(cfg: Config, v: Session)
    requires ValidConfig(cfg) && cfg.readahead == 0 && Reachable(cfg, v)
    ensures InOrder(v)
  {
    hide Inv, Sound, Framed, Lay;
    var vs, acts :| Run(cfg, vs, acts) && Initial(vs[0]) && v == vs[|acts|];
    RunOrdered(cfg, vs, acts, |acts|);
    AnsweredFirst(v.conn.hist.answered, v.send, v.sendq, v.shand, v.sin, v.chand, v.cin, Counted(v));
  }
}
