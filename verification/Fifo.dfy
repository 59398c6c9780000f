/** The free list and the pool of the server are queues: connections are accepted
    in the order in which they were put there, and buffers are taken in the order
    in which they came back.
 */
module ServerQueues {
  import opened Rpc
  import opened ServerMachine
  import opened ServerView
  import opened ServerInvariant
  import opened ServerTheorems
  import S = SessionProtocol

  // ---------------------------------------------------------------- the free list

  /** The connection that a move takes from the free list, or puts there. */
  function Accepts(m: Move): seq<ConnId> { if m.a.AcceptTake? then [m.c] else [] }

  function Frees(s: Server, m: Move): seq<ConnId> {
    if (m.a.IoStep? && Io(s, m.t).pc.FinRelease?) || (m.a.SubStep? && Sub(s, m.t).pc.SubRelease?) then [m.c] else []
  }

  function Accepted(ms: seq<Move>): seq<ConnId> {
    if ms == [] then [] else Accepted(ms[..|ms| - 1]) + Accepts(ms[|ms| - 1])
  }

  function Freed(ss: seq<Server>, ms: seq<Move>): seq<ConnId>
    requires |ss| >= |ms|
  {
    if ms == [] then [] else Freed(ss, ms[..|ms| - 1]) + Frees(ss[|ms| - 1], ms[|ms| - 1])
  }

  lemma FreeMoves(cfg: Config, s: Server, m: Move)
    requires m.c in s.conns && Next(cfg, s, m).Some?
    ensures s.free + Frees(s, m) == Accepts(m) + Next(cfg, s, m).value.free
  {
    hide S.Accepted, IoNext, SubNext, CompNext, RecvBytes, SendBytes, RequestTop, S.AfterResponse;
    if m.a.IoStep? {
      IoFrees(s, m.t, m.c);
    } else if m.a.SubStep? {
      SubFrees(s, m.t, m.c);
    } else {
      SocketFrees(cfg, s, m.t, m.c);
    }
  }

  lemma IoFrees(s: Server, t: Tid, c: ConnId)
    requires c in s.conns && IoNext(s, t, c).Some?
    ensures IoNext(s, t, c).value.free == s.free + (if Io(s, t).pc.FinRelease? then [c] else [])
  {
    hide Wrap64, S.SetEpoll, S.AfterResponse;
    var pc := Io(s, t).pc;
    if pc.RespTop? || pc.RespPut? || pc.RespLock? || pc.RespCheck? || pc.RespUnlock? {
    } else if pc.ReqLock? || pc.ReqCount? || pc.ReqPut? || pc.ReqUnlock? {
    } else {
    }
  }

  lemma SubFrees(s: Server, t: Tid, c: ConnId)
    requires c in s.conns && SubNext(s, t, c).Some?
    ensures SubNext(s, t, c).value.free == s.free + (if Sub(s, t).pc.SubRelease? then [c] else [])
  {
    hide Wrap64, S.SetEpoll;
  }

  lemma SocketFrees(cfg: Config, s: Server, t: Tid, c: ConnId)
    requires c in s.conns
    ensures forall bytes :: RecvBytes(cfg, s, t, c, bytes).Some? ==> RecvBytes(cfg, s, t, c, bytes).value.free == s.free
    ensures forall n :: Io(s, t).pc.RespSend? && SendBytes(cfg, s, t, c, n).Some? ==>
                          SendBytes(cfg, s, t, c, n).value.free == s.free
    ensures forall got :: RequestTop(cfg, s, t, c, got).Some? ==> RequestTop(cfg, s, t, c, got).value.free == s.free
    ensures CompNext(cfg, s, t, c).Some? ==> CompNext(cfg, s, t, c).value.free == s.free
  {
    hide S.SentSlice, S.ReceivedInto, S.IoSize, S.TooFarAhead, S.AfterResponse, Respond;
  }

  /** In every run: the connections that were on the free list and those released
      since, in this order, are those accepted and those that are on it. */
  lemma {:induction false} AcceptedInOrder(cfg: Config, ss: seq<Server>, ms: seq<Move>, n: nat)
    requires ValidConfig(cfg) && Run(cfg, ss, ms) && n <= |ms|
    ensures ss[0].free + Freed(ss, ms[..n]) == Accepted(ms[..n]) + ss[n].free
  {
    hide Next, GoodMove, Initial, Accepts, Frees;
    if n > 0 {
      AcceptedInOrder(cfg, ss, ms, n - 1);
      assert Next(cfg, ss[n - 1], ms[n - 1]) == Some(ss[n]);
      Served(cfg, ss[n - 1], ms[n - 1]);
      FreeMoves(cfg, ss[n - 1], ms[n - 1]);
      assert ms[..n][..n - 1] == ms[..n - 1];
      Passed(ss[0].free, Freed(ss, ms[..n - 1]), Frees(ss[n - 1], ms[n - 1]), Accepted(ms[..n - 1]), ss[n - 1].free,
             Accepts(ms[n - 1]), ss[n].free);
    }
  }

  lemma Served(cfg: Config, s: Server, m: Move)
    requires Next(cfg, s, m).Some?
    ensures m.c in s.conns
  {
    hide Handler, SubNext, CompNext, S.Accepted;
  }

  /** A queue that passes `out` at the front and `more` at the back. */
  lemma Passed(start: seq<nat>, put: seq<nat>, more: seq<nat>, got: seq<nat>, q: seq<nat>, out: seq<nat>, q': seq<nat>)
    requires start + put == got + q && q + more == out + q'
    ensures start + (put + more) == got + out + q'
  {
    assert start + (put + more) == start + put + more;
    assert got + q + more == got + (q + more);
    assert got + out + q' == got + (out + q');
  }

  // ---------------------------------------------------------------- the pool

  /** The buffer that a move takes from the pool, or puts there: the one in a hand,
      or the one that a field points at. */
  function Takes(cfg: Config, s: Server, m: Move): seq<Buf>
    requires m.c in s.conns
  {
    if m.a.IoReqTop? && m.a.got.Some? && s.conns[m.c].recvbuf.None? && !S.TooFarAhead(cfg, s.conns[m.c])
    then [m.a.got.value] else []
  }

  function Pointed(b: Option<Buf>): seq<Buf> { if b.Some? then [b.value] else [] }

  function Puts(s: Server, m: Move): seq<Buf>
    requires m.c in s.conns
  {
    var (k, pc) := (s.conns[m.c], Io(s, m.t).pc);
    if m.a.IoStep? && (pc.RespPut? || pc.FinPut?) then At(s, IoHand(m.t))
    else if m.a.IoStep? && pc.FinSend? then Pointed(k.sendbuf)
    else if m.a.IoStep? && pc.FinRecv? then Pointed(k.recvbuf)
    else if m.a.SubStep? && Sub(s, m.t).pc.SubDispose? then At(s, SubmitHand(m.t))
    else []
  }

  lemma PoolMoves(cfg: Config, s: Server, m: Move)
    requires Inv(cfg, s) && m.c in s.conns && Next(cfg, s, m).Some?
    ensures At(s, Pool) + Puts(s, m) == Takes(cfg, s, m) + At(Next(cfg, s, m).value, Pool)
  {
    hide Inv, S.Accepted, IoNext, SubNext, CompNext, RecvBytes, SendBytes, RequestTop, S.AfterResponse, S.TooFarAhead;
    if m.a.IoStep? {
      IoPool(cfg, s, m);
    } else if m.a.SubStep? {
      SubPool(cfg, s, m);
    } else if m.a.IoReqTop? {
      TopPool(cfg, s, m);
    } else {
      OtherPool(cfg, s, m);
    }
  }

  /** A hand holds one buffer, if any. */
  lemma HandsAre(cfg: Config, s: Server, t: Tid)
    requires Inv(cfg, s)
    ensures At(s, IoHand(t)) != [] ==> At(s, IoHand(t)) == [At(s, IoHand(t))[0]]
    ensures At(s, SubmitHand(t)) != [] ==> At(s, SubmitHand(t)) == [At(s, SubmitHand(t))[0]]
  {
    hide Conserved, Assigned, Home;
    if At(s, IoHand(t)) != [] { IoHandOwned(cfg, s, t); }
    if At(s, SubmitHand(t)) != [] { SubmitHandOwned(cfg, s, t); }
  }

  lemma IoPool(cfg: Config, s: Server, m: Move)
    requires Inv(cfg, s) && m.c in s.conns && m.a.IoStep? && IoNext(s, m.t, m.c).Some?
    ensures At(s, Pool) + Puts(s, m) == At(IoNext(s, m.t, m.c).value, Pool)
  {
    hide Inv, IoNext;
    var pc := Io(s, m.t).pc;
    HandsAre(cfg, s, m.t);
    if pc.RespPut? || pc.FinPut? || pc.FinSend? || pc.FinRecv? {
      GivesBack(s, m);
    } else {
      LeavesPool(s, m.t, m.c);
    }
  }

  lemma GivesBack(s: Server, m: Move)
    requires m.c in s.conns && m.a.IoStep? && IoNext(s, m.t, m.c).Some?
    requires At(s, IoHand(m.t)) != [] ==> At(s, IoHand(m.t)) == [At(s, IoHand(m.t))[0]]
    requires var pc := Io(s, m.t).pc; pc.RespPut? || pc.FinPut? || pc.FinSend? || pc.FinRecv?
    ensures At(s, Pool) + Puts(s, m) == At(IoNext(s, m.t, m.c).value, Pool)
  {
  }

  lemma LeavesPool(s: Server, t: Tid, c: ConnId)
    requires c in s.conns && IoNext(s, t, c).Some?
    requires var pc := Io(s, t).pc; !pc.RespPut? && !pc.FinPut? && !pc.FinSend? && !pc.FinRecv?
    ensures At(IoNext(s, t, c).value, Pool) == At(s, Pool)
  {
    hide Wrap64, S.SetEpoll, S.AfterResponse;
    var pc := Io(s, t).pc;
    if pc.RespTop? || pc.RespLock? || pc.RespCheck? || pc.RespUnlock? {
    } else if pc.ReqLock? || pc.ReqCount? || pc.ReqPut? || pc.ReqUnlock? {
    } else {
    }
  }

  lemma SubPool(cfg: Config, s: Server, m: Move)
    requires Inv(cfg, s) && m.c in s.conns && m.a.SubStep? && SubNext(s, m.t, m.c).Some?
    ensures At(s, Pool) + Puts(s, m) == At(SubNext(s, m.t, m.c).value, Pool)
  {
    hide Inv, SubNext;
    HandsAre(cfg, s, m.t);
    if Sub(s, m.t).pc.SubDispose? {
      Disposes(s, m);
    } else {
      SubLeaves(s, m.t, m.c);
    }
  }

  lemma Disposes(s: Server, m: Move)
    requires m.c in s.conns && m.a.SubStep? && SubNext(s, m.t, m.c).Some? && Sub(s, m.t).pc.SubDispose?
    requires At(s, SubmitHand(m.t)) != [] ==> At(s, SubmitHand(m.t)) == [At(s, SubmitHand(m.t))[0]]
    ensures At(s, Pool) + Puts(s, m) == At(SubNext(s, m.t, m.c).value, Pool)
  {
  }

  lemma SubLeaves(s: Server, t: Tid, c: ConnId)
    requires c in s.conns && SubNext(s, t, c).Some? && !Sub(s, t).pc.SubDispose?
    ensures At(SubNext(s, t, c).value, Pool) == At(s, Pool)
  {
    hide Wrap64, S.SetEpoll;
  }

  lemma TopPool(cfg: Config, s: Server, m: Move)
    requires m.c in s.conns && m.a.IoReqTop? && RequestTop(cfg, s, m.t, m.c, m.a.got).Some?
    ensures At(s, Pool) == Takes(cfg, s, m) + At(RequestTop(cfg, s, m.t, m.c, m.a.got).value, Pool)
    ensures Puts(s, m) == []
  {
    hide S.TooFarAhead;
  }

  lemma OtherPool(cfg: Config, s: Server, m: Move)
    requires m.c in s.conns && Next(cfg, s, m).Some? && !m.a.IoStep? && !m.a.SubStep? && !m.a.IoReqTop?
    ensures At(Next(cfg, s, m).value, Pool) == At(s, Pool) && Puts(s, m) == []
  {
    hide S.AfterResponse, RecvBytes, SendBytes, CompNext, IoNext, SubNext, RequestTop, S.Accepted;
    SocketLeaves(cfg, s, m.t, m.c);
  }

  lemma SocketLeaves(cfg: Config, s: Server, t: Tid, c: ConnId)
    requires c in s.conns
    ensures forall bytes :: RecvBytes(cfg, s, t, c, bytes).Some? ==>
                              At(RecvBytes(cfg, s, t, c, bytes).value, Pool) == At(s, Pool)
    ensures forall n :: Io(s, t).pc.RespSend? && SendBytes(cfg, s, t, c, n).Some? ==>
                          At(SendBytes(cfg, s, t, c, n).value, Pool) == At(s, Pool)
    ensures CompNext(cfg, s, t, c).Some? ==> At(CompNext(cfg, s, t, c).value, Pool) == At(s, Pool)
  {
    hide S.SentSlice, S.ReceivedInto, S.IoSize, S.AfterResponse, Respond;
  }

  function Taken(cfg: Config, ss: seq<Server>, ms: seq<Move>): seq<Buf>
    requires |ss| >= |ms|
  {
    if ms == [] then []
    else
      Taken(cfg, ss, ms[..|ms| - 1]) +
      (if ms[|ms| - 1].c in ss[|ms| - 1].conns then Takes(cfg, ss[|ms| - 1], ms[|ms| - 1]) else [])
  }

  function Given(ss: seq<Server>, ms: seq<Move>): seq<Buf>
    requires |ss| >= |ms|
  {
    if ms == [] then []
    else
      Given(ss, ms[..|ms| - 1]) +
      (if ms[|ms| - 1].c in ss[|ms| - 1].conns then Puts(ss[|ms| - 1], ms[|ms| - 1]) else [])
  }

  /** The same of the buffers in the pool. */
  lemma {:induction false} TakenInOrder(cfg: Config, ss: seq<Server>, ms: seq<Move>, n: nat)
    requires ValidConfig(cfg) && Run(cfg, ss, ms) && n <= |ms|
    ensures At(ss[0], Pool) + Given(ss, ms[..n]) == Taken(cfg, ss, ms[..n]) + At(ss[n], Pool)
  {
    hide Next, GoodMove, Initial, Takes, Puts, Inv;
    if n > 0 {
      TakenInOrder(cfg, ss, ms, n - 1);
      RunKeeps(cfg, ss, ms, n - 1);
      assert Next(cfg, ss[n - 1], ms[n - 1]) == Some(ss[n]);
      Served(cfg, ss[n - 1], ms[n - 1]);
      PoolMoves(cfg, ss[n - 1], ms[n - 1]);
      assert ms[..n][..n - 1] == ms[..n - 1];
      Passed(At(ss[0], Pool), Given(ss, ms[..n - 1]), Puts(ss[n - 1], ms[n - 1]), Taken(cfg, ss, ms[..n - 1]),
             At(ss[n - 1], Pool), Takes(cfg, ss[n - 1], ms[n - 1]), At(ss[n], Pool));
    }
  }
}
