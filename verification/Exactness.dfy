/** What the two hypotheses are worth, in buffers. Without them the server puts
    a buffer in the pool that is already somewhere else; with them, or with room
    for one request only, it never does.
 */
module Exactness {
  import opened Rpc
  import opened ServerMachine
  import opened ServerView
  import opened ServerInvariant
  import opened ServerSimulation
  import opened ServerTheorems
  import opened AstrayThreads
  import E = Epoll
  import S = SessionProtocol
  import I = SessionInvariant
  import H = SessionHistory
  import W = Witnesses
  import C = OneConnection

  // ---------------------------------------------------------------- continuations

  /** The server after a sequence of moves, when each can be made. With `lax`,
      moves that the hypotheses exclude are made as well. */
  function After(cfg: Config, lax: bool, s: Server, ms: seq<Move>): Option<Server> {
    if ms == [] then Some(s)
    else
      match After(cfg, lax, s, ms[..|ms| - 1])
      case None => None
      case Some(u) => if lax || GoodMove(u, ms[|ms| - 1]) then Next(cfg, u, ms[|ms| - 1]) else None
  }

  lemma {:induction false} AfterStep(cfg: Config, lax: bool, s: Server, ms: seq<Move>, u: Server, m: Move)
    requires After(cfg, lax, s, ms) == Some(u) && (lax || GoodMove(u, m))
    ensures After(cfg, lax, s, ms + [m]) == Next(cfg, u, m)
  {
    assert (ms + [m])[..|ms + [m]| - 1] == ms;
  }

  /** Buffers stay conserved on every continuation that meets the hypotheses. */
  ghost predicate Safe(cfg: Config, s: Server) {
    forall ms :: After(cfg, false, s, ms).Some? ==> Conserved(After(cfg, false, s, ms).value)
  }

  lemma {:induction false} InvAfter(cfg: Config, s: Server, ms: seq<Move>)
    requires ValidConfig(cfg) && Inv(cfg, s) && After(cfg, false, s, ms).Some?
    ensures Inv(cfg, After(cfg, false, s, ms).value)
  {
    hide Inv, Next, GoodMove;
    if ms != [] {
      var u := After(cfg, false, s, ms[..|ms| - 1]).value;
      InvAfter(cfg, s, ms[..|ms| - 1]);
      StepInv(cfg, u, After(cfg, false, s, ms).value, ms[|ms| - 1]);
    }
  }

  lemma InvSafe(cfg: Config, s: Server)
    requires ValidConfig(cfg) && Inv(cfg, s)
    ensures Safe(cfg, s)
  {
    hide Conserved, After, Placed, Assigned, Sessions;
    forall ms | After(cfg, false, s, ms).Some? ensures Conserved(After(cfg, false, s, ms).value) {
      InvAfter(cfg, s, ms);
    }
  }

  // ---------------------------------------------------------------- two of one buffer

  /** A buffer that is put in the pool, and is somewhere else, or is none. */
  lemma PutTwice(s: Server, s': Server, slot: Place, b: Buf)
    requires slot != Pool && At(s, slot) == []
    requires s'.bufs.Keys == s.bufs.Keys && s'.at == Release(s, slot, Pool, b).at
    requires b in s.bufs ==> Located(s, b)
    ensures !Conserved(s')
  {
    hide Spot;
    assert At(s', Pool) == At(s, Pool) + [b];
    var n := |At(s, Pool)|;
    assert At(s', Pool)[n] == b && b in At(s', Pool);
    if b in s.bufs {
      var p :| b in At(s, p);
      var i :| 0 <= i < |At(s, p)| && At(s, p)[i] == b;
      assert At(s', p)[i] == b && (p, i) != (Pool, n);
      NotTwice(s', p, i, Pool, n);
    }
  }

  lemma NotTwice(s: Server, p: Place, i: nat, q: Place, j: nat)
    requires i < |At(s, p)| && j < |At(s, q)| && At(s, p)[i] == At(s, q)[j] && (p, i) != (q, j)
    ensures !NoAlias(s)
  {
    hide Spot;
  }

  /** A buffer, if it is one, is somewhere. */
  ghost predicate Lives(s: Server, b: Buf) { b in s.bufs ==> Located(s, b) }

  lemma AllLive(s: Server, b: Buf)
    requires Conserved(s)
    ensures Lives(s, b)
  {
  }

  lemma SameLives(s: Server, s': Server, b: Buf)
    requires Lives(s, b) && s'.at == s.at && s'.bufs.Keys == s.bufs.Keys
    ensures Lives(s', b)
  {
    if b in s.bufs {
      var p :| b in At(s, p);
      assert b in At(s', p);
    }
  }

  lemma ShiftLives(s: Server, s': Server, p: Place, q: Place, b: Buf)
    requires Lives(s, b) && p != q && At(s, p) != [] && s'.at == Shift(s, p, q).at && s'.bufs.Keys == s.bufs.Keys
    ensures Lives(s', b)
  {
    if b in s.bufs {
      var r :| b in At(s, r);
      assert b in At(s', r) || (b == At(s, p)[0] && b == At(s', q)[|At(s, q)|]);
    }
  }

  /** finish_connection on a connection that owns no send buffer: it puts the one
      that sendbuf points at in the pool. */
  lemma GivesAgain(cfg: Config, s: Server, t: Tid, c: ConnId)
    requires c in s.conns && Io(s, t) == IoThread(c, S.FinTry(false)) && !s.conns[c].lock
    requires s.conns[c].sendbuf.Some? && At(s, SendSlot(c)) == [] && Lives(s, s.conns[c].sendbuf.value)
    ensures var m := Move(t, c, S.IoStep);
            After(cfg, false, s, [m, m]).Some? && !Conserved(After(cfg, false, s, [m, m]).value)
  {
    hide Conserved;
    var m := Move(t, c, S.IoStep);
    var s1 := PutIo(PutConn(s, c, s.conns[c].(lock := true)), t, c, S.FinSend(false));
    var b := s.conns[c].sendbuf.value;
    var s2 := PutIo(Release(s1, SendSlot(c), Pool, b), t, c, S.FinRecv(false));
    AfterStep(cfg, false, s, [], s, m);
    assert Next(cfg, s, m) == Some(s1);
    assert [] + [m] == [m];
    AfterStep(cfg, false, s, [m], s1, m);
    assert Next(cfg, s1, m) == Some(s2);
    assert [m] + [m] == [m, m];
    if b in s.bufs {
      var p :| b in At(s, p);
      assert b in At(s1, p);
    }
    PutTwice(s1, s2, SendSlot(c), b);
  }

  // ---------------------------------------------------------------- the first hypothesis

  /** The moves after a stale accept: an error event, and the first two steps of
      finish_connection. All meet the hypotheses. */
  function ErrorEvent(t: Tid, c: ConnId): seq<Move> {
    [Move(t, c, S.IoEvent(true, false, false)), Move(t, c, S.IoStep), Move(t, c, S.IoStep)]
  }

  /** A connection enters service with sendbuf set, on an IO thread that waits.
      Wherever the buffer behind sendbuf is by then, an error on the new socket
      puts it in the pool as well. */
  lemma {:induction false} StaleAccept(cfg: Config, s: Server, s': Server, c: ConnId, i: Tid, k: Tid, n: Tid)
    requires Inv(cfg, s) && s.accepting == Some(c) && c in s.conns && s.conns[c].sendbuf.Some?
    requires Io(s, i).pc == S.IoIdle && Next(cfg, s, Move(0, c, S.AcceptServe(i, k, n))) == Some(s')
    ensures After(cfg, false, s', ErrorEvent(i, c)).Some?
    ensures !Conserved(After(cfg, false, s', ErrorEvent(i, c)).value)
  {
    hide Inv, Conserved, View, Next, Lives, After, S.Accepted;
    Served(cfg, s, s', c, i, k, n);
    AcceptedIs(s.conns[c], i, k, n);
    var m := Move(i, c, S.IoEvent(true, false, false));
    var s1 := PutIo(s', i, c, S.FinTry(false));
    EventIs(cfg, s', i, c);
    AfterNone(cfg, s');
    AfterStep(cfg, false, s', [], s', m);
    assert [] + [m] == [m];
    AllLive(s', s.conns[c].sendbuf.value);
    SameLives(s', s1, s.conns[c].sendbuf.value);
    GivesAgain(cfg, s1, i, c);
    var ms := [Move(i, c, S.IoStep), Move(i, c, S.IoStep)];
    AfterBoth(cfg, false, s', [m], s1, ms);
    assert [m] + ms == ErrorEvent(i, c);
  }

  lemma AcceptedIs(k: S.Conn, i: nat, c: nat, n: nat)
    ensures var w := S.Accepted(k, i, c, n);
            !w.lock && w.kernel.Some? && w.sendbuf == k.sendbuf && w.ioidx == i
  {
  }

  lemma EventIs(cfg: Config, s: Server, t: Tid, c: ConnId)
    requires c in s.conns && s.conns[c].ioidx == t && s.conns[c].kernel.Some? && Io(s, t).pc == S.IoIdle
    ensures Next(cfg, s, Move(t, c, S.IoEvent(true, false, false))) == Some(PutIo(s, t, c, S.FinTry(false)))
  {
    hide Handler, SubNext, CompNext;
  }

  lemma {:induction false} AfterBoth(cfg: Config, lax: bool, s: Server, ms: seq<Move>, u: Server, ns: seq<Move>)
    requires After(cfg, lax, s, ms) == Some(u)
    ensures After(cfg, lax, s, ms + ns) == After(cfg, lax, u, ns)
  {
    if ns == [] {
      assert ms + ns == ms;
    } else {
      AfterBoth(cfg, lax, s, ms, u, ns[..|ns| - 1]);
      assert (ms + ns)[..|ms + ns| - 1] == ms + ns[..|ns| - 1];
    }
  }

  /** What an accept leaves: the buffers where they were, none of them with the
      connection. */
  lemma Served(cfg: Config, s: Server, s': Server, c: ConnId, i: Tid, k: Tid, n: Tid)
    requires Inv(cfg, s) && s.accepting == Some(c) && c in s.conns
    requires Next(cfg, s, Move(0, c, S.AcceptServe(i, k, n))) == Some(s')
    ensures Conserved(s') && c in s'.conns && s'.conns[c] == S.Accepted(s.conns[c], i, k, n)
    ensures At(s', SendSlot(c)) == [] && s'.io == s.io
  {
    hide Conserved, Placed, Assigned, I.Inv, H.Faithful, Q, E.KernelAfter;
    ServeQuiet(cfg, s, c);
    QuietMeans(s, c);
    ServeAt(s, s', c);
    HeadHome(s, SendSlot(c));
  }

  /** Accept and the first hypothesis. With sendbuf NULL buffers stay conserved,
      however things go on. On every IO thread that waits, they do so only then. */
  lemma {:induction false} AcceptExact(cfg: Config, s: Server, c: ConnId, i: Tid, k: Tid, n: Tid)
    requires ValidConfig(cfg) && Inv(cfg, s) && s.accepting == Some(c) && c in s.conns
    ensures Next(cfg, s, Move(0, c, S.AcceptServe(i, k, n))).Some?
    ensures var s' := Next(cfg, s, Move(0, c, S.AcceptServe(i, k, n))).value;
            && (s.conns[c].sendbuf.None? ==> Safe(cfg, s'))
            && (Io(s, i).pc == S.IoIdle ==> (Safe(cfg, s') <==> s.conns[c].sendbuf.None?))
  {
    hide Inv, Conserved, S.Accepted, After;
    var m := Move(0, c, S.AcceptServe(i, k, n));
    var s' := Next(cfg, s, m).value;
    if s.conns[c].sendbuf.None? {
      StepInv(cfg, s, s', m);
      InvSafe(cfg, s');
    } else if Io(s, i).pc == S.IoIdle {
      StaleAccept(cfg, s, s', c, i, k, n);
      assert !Safe(cfg, s');
    }
  }

  // ---------------------------------------------------------------- the second hypothesis

  /** The moves after a fall-through: a buffer is had or was there, recv fails, and
      the first two steps of the second finish. All meet the hypotheses. */
  function FailedRequest(t: Tid, c: ConnId, got: Option<nat>): seq<Move> {
    [Move(t, c, S.IoReqTop(got)), Move(t, c, S.IoRecvFail), Move(t, c, S.IoStep), Move(t, c, S.IoStep)]
  }

  /** What handle_request would receive into, on a finished connection. */
  predicate FindsBuffer(cfg: Config, s: Server, c: ConnId, got: Option<nat>)
    requires c in s.conns
  {
    if s.conns[c].recvbuf.Some? then got == None
    else !S.TooFarAhead(cfg, s.conns[c]) && At(s, Pool) != [] && got == Some(At(s, Pool)[0])
  }

  /** An event goes on to handle_request after its connection is finished, and
      handle_request has a buffer or gets one. The buffer behind sendbuf, wherever
      it is by then, goes to the pool once more. */
  lemma {:induction false} FallThrough(cfg: Config, s: Server, s': Server, t: Tid, c: ConnId, got: Option<nat>)
    requires ValidConfig(cfg) && Inv(cfg, s) && Io(s, t) == IoThread(c, S.FinUnlock(true)) && c in s.conns
    requires s.conns[c].sendbuf.Some? && FindsBuffer(cfg, s, c, got)
    requires Next(cfg, s, Move(t, c, S.IoStep)) == Some(s')
    ensures After(cfg, false, s', FailedRequest(t, c, got)).Some?
    ensures !Conserved(After(cfg, false, s', FailedRequest(t, c, got)).value)
  {
    hide Inv, Conserved, View, Sub64, Next, Lives, After;
    FinishedSlot(cfg, s, t, c);
    Unlocks(cfg, s, Move(t, c, S.IoStep), true);
    SameLives(s, s', s.conns[c].sendbuf.value);
    var s2 := FailsRequest(cfg, s', t, c, got);
    var ms := [Move(t, c, S.IoReqTop(got)), Move(t, c, S.IoRecvFail)];
    GivesAgain(cfg, s2, t, c);
    var ns := [Move(t, c, S.IoStep), Move(t, c, S.IoStep)];
    AfterBoth(cfg, false, s', ms, s2, ns);
    assert ms + ns == FailedRequest(t, c, got);
  }

  /** With a buffer, and recv failing, handle_request comes to its finish. */
  lemma {:induction false} FailsRequest(cfg: Config, s: Server, t: Tid, c: ConnId, got: Option<nat>)
    returns (s2: Server)
    requires c in s.conns && Io(s, t) == IoThread(c, S.ReqTop) && FindsBuffer(cfg, s, c, got)
    requires At(s, SendSlot(c)) == [] && s.conns[c].sendbuf.Some? && Lives(s, s.conns[c].sendbuf.value)
    requires forall b :: b in At(s, Pool) ==> b in s.bufs
    ensures After(cfg, false, s, [Move(t, c, S.IoReqTop(got)), Move(t, c, S.IoRecvFail)]) == Some(s2)
    ensures Io(s2, t) == IoThread(c, S.FinTry(false)) && At(s2, SendSlot(c)) == []
    ensures c in s2.conns && s2.conns[c] == s.conns[c].(recvbuf := s2.conns[c].recvbuf)
    ensures Lives(s2, s.conns[c].sendbuf.value)
  {
    hide Sub64, Next, Lives, After;
    var m := Move(t, c, S.IoReqTop(got));
    var r := Move(t, c, S.IoRecvFail);
    var s1 := Requests(cfg, s, t, c, got);
    s2 := PutIo(s1, t, c, S.FinTry(false));
    RecvFails(cfg, s1, t, c);
    AfterNone(cfg, s);
    AfterStep(cfg, false, s, [], s, m);
    assert [] + [m] == [m];
    AfterStep(cfg, false, s, [m], s1, r);
    assert [m] + [r] == [m, r];
    SameLives(s1, s2, s.conns[c].sendbuf.value);
  }

  lemma AfterNone(cfg: Config, s: Server)
    ensures After(cfg, false, s, []) == Some(s)
  {
  }

  lemma FinishedSlot(cfg: Config, s: Server, t: Tid, c: ConnId)
    requires Inv(cfg, s) && Io(s, t) == IoThread(c, S.FinUnlock(true)) && c in s.conns
    ensures At(s, SendSlot(c)) == [] && s.conns[c].closed
    ensures s.conns[c].sendbuf.Some? ==> Lives(s, s.conns[c].sendbuf.value)
    ensures forall b :: b in At(s, Pool) ==> b in s.bufs
  {
    hide Q, NoAlias, H.Faithful, I.Wakeups;
    BusyThread(cfg, s, t);
    SlotOwned(s, c, SendSlot(c));
    if s.conns[c].sendbuf.Some? { AllLive(s, s.conns[c].sendbuf.value); }
  }

  /** The top of the loop, with a buffer. */
  lemma Requests(cfg: Config, s: Server, t: Tid, c: ConnId, got: Option<nat>) returns (s1: Server)
    requires c in s.conns && Io(s, t) == IoThread(c, S.ReqTop) && FindsBuffer(cfg, s, c, got)
    requires At(s, SendSlot(c)) == [] && s.conns[c].sendbuf.Some? && Lives(s, s.conns[c].sendbuf.value)
    requires forall b :: b in At(s, Pool) ==> b in s.bufs
    ensures Next(cfg, s, Move(t, c, S.IoReqTop(got))) == Some(s1) && Io(s1, t) == IoThread(c, S.ReqRecv)
    ensures c in s1.conns && s1.conns[c] == s.conns[c].(recvbuf := s1.conns[c].recvbuf)
    ensures At(s1, SendSlot(c)) == [] && Lives(s1, s.conns[c].sendbuf.value)
  {
    hide S.TooFarAhead, Lives;
    var b := s.conns[c].sendbuf.value;
    if s.conns[c].recvbuf.Some? {
      s1 := PutIo(s, t, c, S.ReqRecv);
      SameLives(s, s1, b);
    } else {
      var x := At(s, Pool)[0];
      s1 := PutIo(PutConn(PutBuf(Shift(s, Pool, RecvSlot(c)), x, Buffer(c, [], [], REQUEST_SIZE)), c,
                          s.conns[c].(recvbuf := Some(x))), t, c, S.ReqRecv);
      assert x in At(s, Pool);
      ShiftLives(s, s1, Pool, RecvSlot(c), b);
    }
  }

  lemma RecvFails(cfg: Config, s: Server, t: Tid, c: ConnId)
    requires c in s.conns && Io(s, t) == IoThread(c, S.ReqRecv)
    ensures Next(cfg, s, Move(t, c, S.IoRecvFail)) == Some(PutIo(s, t, c, S.FinTry(false)))
  {
    hide SubNext, CompNext, IoNext;
  }

  // ---------------------------------------------------------------- with no hypothesis

  /** A move that meets the hypotheses, or goes astray with nothing to do. */
  ghost predicate Allowed(cfg: Config, s: Server, m: Move) {
    GoodMove(s, m) ||
    (m.a == S.IoStep && Io(s, m.t) == IoThread(m.c, S.FinUnlock(true)) && m.c in s.conns &&
     s.conns[m.c].recvbuf.None? && S.TooFarAhead(cfg, s.conns[m.c]))
  }

  lemma {:induction false} SettledStep(cfg: Config, clean: bool, s: Server, m: Move, s': Server)
    requires ValidConfig(cfg) && Settled(cfg, clean, s) && Allowed(cfg, s, m) && Next(cfg, s, m) == Some(s')
    ensures Settled(cfg, clean, s')
  {
    hide Settled, Next, S.TooFarAhead, GoodMove, Settle;
    if !GoodMove(s, m) {
      GoesAstray(cfg, clean, s, m, s');
    } else if S.InHandler(m.a) && Astray(s, m.t) {
      AstrayReturns(cfg, clean, s, m, s');
    } else {
      if m.a.IoEvent? { AstrayWaits(cfg, s, m); }
      var u' := Mirror(cfg, s, m, s');
      StaysSettled(cfg, clean, s, m, s', u');
    }
  }

  lemma AstrayWaits(cfg: Config, s: Server, m: Move)
    requires Next(cfg, s, m).Some? && m.a.IoEvent?
    ensures !Astray(s, m.t)
  {
  }

  /** A state of the invariant is its own settled state. */
  lemma InvSettles(cfg: Config, s: Server)
    requires Inv(cfg, s)
    ensures Settle(s) == s && Idlers(cfg, s)
  {
    hide Inv;
    forall t ensures !Astray(s, t) {
      NotAstray(cfg, s, s, t);
    }
    assert Swap(s, s.io) == s;
  }

  lemma {:induction false} SettledAfter(cfg: Config, clean: bool, s: Server, ms: seq<Move>)
    requires ValidConfig(cfg) && Settled(cfg, clean, s) && After(cfg, false, s, ms).Some?
    ensures Settled(cfg, clean, After(cfg, false, s, ms).value)
  {
    hide Settled, Next, GoodMove;
    if ms != [] {
      var u := After(cfg, false, s, ms[..|ms| - 1]).value;
      SettledAfter(cfg, clean, s, ms[..|ms| - 1]);
      SettledStep(cfg, clean, u, ms[|ms| - 1], After(cfg, false, s, ms).value);
    }
  }

  lemma SettledSafe(cfg: Config, clean: bool, s: Server)
    requires ValidConfig(cfg) && Settled(cfg, clean, s)
    ensures Safe(cfg, s)
  {
    hide Settled, Conserved, After;
    forall ms | After(cfg, false, s, ms).Some? ensures Conserved(After(cfg, false, s, ms).value) {
      SettledAfter(cfg, clean, s, ms);
      SettledConserved(cfg, clean, After(cfg, false, s, ms).value);
    }
  }

  /** Every state that good moves reach is settled. */
  lemma {:induction false} RunSettled(cfg: Config, clean: bool, ss: seq<Server>, ms: seq<Move>, n: nat)
    requires ValidConfig(cfg) && Run(cfg, ss, ms) && n <= |ms| && (clean ==> C.Clean(ss[0]))
    ensures Settled(cfg, clean, ss[n]) && Inv(cfg, ss[n])
  {
    hide Next, GoodMove, Inv, Initial, C.Clean;
    RunKeeps(cfg, ss, ms, n);
    if n == 0 {
      StartSettled(cfg, clean, ss[0]);
    } else {
      RunSettled(cfg, clean, ss, ms, n - 1);
      SettledStep(cfg, clean, ss[n - 1], ms[n - 1], ss[n]);
    }
  }

  lemma StartSettled(cfg: Config, clean: bool, s: Server)
    requires Initial(s) && (clean ==> C.Clean(s))
    ensures Settled(cfg, clean, s)
  {
    hide Q, Inv;
    InitInv(cfg, s);
    InvSettles(cfg, s);
  }

  lemma ReachableSettled(cfg: Config, s: Server)
    requires ValidConfig(cfg) && Reachable(cfg, s)
    ensures Settled(cfg, false, s) && Inv(cfg, s)
  {
    hide Settled, Inv, Next, GoodMove, Initial;
    var ss, ms :| Run(cfg, ss, ms) && s == ss[|ms|];
    RunSettled(cfg, false, ss, ms, |ms|);
  }

  /** What is known where a finish within handle_response ends. */
  lemma AtUnlock(cfg: Config, clean: bool, s: Server, t: Tid, c: ConnId, more: bool)
    requires ValidConfig(cfg) && Settled(cfg, clean, s)
    requires Io(s, t) == IoThread(c, S.FinUnlock(true)) || Io(s, t) == IoThread(c, S.FinRelease(true))
    ensures c in s.conns && s.conns[c].sendbuf.Some? && Io(s, t).pc == S.FinUnlock(true)
    ensures cfg.readahead == 0 ==> s.conns[c].recvbuf.None? && S.TooFarAhead(cfg, s.conns[c])
  {
    hide Q, Conserved, Placed, Assigned, S.TooFarAhead, Sessions;
    var u := Settle(s);
    SettleReads(s);
    BusyThread(cfg, u, t);
    assert SenderOk(cfg, clean, View(u, c));
    I.HeadRoom(cfg, View(u, c));
    UnlockCounts(cfg, View(u, c));
  }

  lemma UnlockCounts(cfg: Config, v: S.Session)
    requires I.Inv(cfg, v) && (v.io.FinUnlock? || v.io.FinRelease?) && v.conn.sendbuf.Some?
    ensures v.io.FinUnlock? && v.conn.received > v.conn.sent
  {
  }

  lemma FinishedLoad(cfg: Config, s: Server, t: Tid, c: ConnId)
    requires ValidConfig(cfg) && Inv(cfg, s) && Io(s, t) == IoThread(c, S.FinUnlock(true)) && c in s.conns
    requires !S.TooFarAhead(cfg, s.conns[c])
    ensures |Owned(s, c)| <= cfg.readahead
  {
    hide Load, Conserved, Placed, Assigned, Sessions, Q, S.TooFarAhead, Owned;
    BusyThread(cfg, s, t);
    I.HeadRoom(cfg, View(s, c));
    OwnedBound(cfg, s, c);
    FinishedCount(cfg, View(s, c));
  }

  lemma FinishedCount(cfg: Config, v: S.Session)
    requires I.Inv(cfg, v) && v.io.FinUnlock? && v.conn.received <= v.conn.sent + cfg.readahead
    ensures |Load(v)| <= cfg.readahead
  {
    hide Load, I.Wakeups;
    LoadCount(v);
  }

  /** The fall-through and the second hypothesis. Where a finish within
      handle_response ends and its event goes on, with enough buffers for every
      connection: buffers stay conserved, however things go on, if and only if
      recvbuf is NULL and there is no head room. */
  lemma {:induction false} FallThroughExact(cfg: Config, s: Server, t: Tid, c: ConnId)
    requires ValidConfig(cfg) && Reachable(cfg, s) && Io(s, t) == IoThread(c, S.FinUnlock(true))
    requires |s.bufs| >= |s.conns| * (cfg.readahead + 1)
    ensures c in s.conns && Next(cfg, s, Move(t, c, S.IoStep)).Some?
    ensures Safe(cfg, Next(cfg, s, Move(t, c, S.IoStep)).value) <==>
            s.conns[c].recvbuf.None? && S.TooFarAhead(cfg, s.conns[c])
  {
    hide Reachable, Settled, Inv, Conserved, After, S.TooFarAhead, Owned;
    ReachableSettled(cfg, s);
    AtUnlock(cfg, false, s, t, c, true);
    var m := Move(t, c, S.IoStep);
    Unlocks(cfg, s, m, true);
    var s' := Next(cfg, s, m).value;
    if s.conns[c].recvbuf.None? && S.TooFarAhead(cfg, s.conns[c]) {
      SettledStep(cfg, false, s, m, s');
      SettledSafe(cfg, false, s');
    } else if s.conns[c].recvbuf.Some? {
      FallThrough(cfg, s, s', t, c, None);
    } else {
      FinishedLoad(cfg, s, t, c);
      OneLess(cfg, s, c);
      FallThrough(cfg, s, s', t, c, Some(At(s, Pool)[0]));
    }
  }

  /** With any number of buffers, once handle_request has looked for one: buffers
      stay conserved, however things go on, if and only if it has none and returns. */
  lemma {:induction false} FallThroughDecided(cfg: Config, s: Server, s': Server, s'': Server, t: Tid, c: ConnId,
                                              got: Option<nat>)
    requires ValidConfig(cfg) && Reachable(cfg, s) && Io(s, t) == IoThread(c, S.FinUnlock(true))
    requires Next(cfg, s, Move(t, c, S.IoStep)) == Some(s')
    requires Next(cfg, s', Move(t, c, S.IoReqTop(got))) == Some(s'')
    ensures Io(s'', t).pc in {S.IoIdle, S.ReqRecv}
    ensures Safe(cfg, s'') <==> Io(s'', t).pc == S.IoIdle
  {
    hide Reachable, Inv, Settled, Conserved, After, Next, Lives, View;
    ReachableSettled(cfg, s);
    AtUnlock(cfg, false, s, t, c, true);
    ReachableKeeps(cfg, s);
    FinishedSlot(cfg, s, t, c);
    Unlocks(cfg, s, Move(t, c, S.IoStep), true);
    SameLives(s, s', s.conns[c].sendbuf.value);
    Looks(cfg, s', s'', t, c, got);
    if Io(s'', t).pc == S.IoIdle {
      MissSafe(cfg, s, s'', t, c);
    } else {
      FailsAgain(cfg, s'', t, c);
    }
  }

  /** The top of the loop: a miss, or a buffer. */
  lemma Looks(cfg: Config, s: Server, s': Server, t: Tid, c: ConnId, got: Option<nat>)
    requires c in s.conns && Io(s, t) == IoThread(c, S.ReqTop) && Next(cfg, s, Move(t, c, S.IoReqTop(got))) == Some(s')
    requires At(s, SendSlot(c)) == [] && s.conns[c].sendbuf.Some? && Lives(s, s.conns[c].sendbuf.value)
    requires forall b :: b in At(s, Pool) ==> b in s.bufs
    ensures s' == PutIo(s, t, c, S.IoIdle) || Io(s', t) == IoThread(c, S.ReqRecv)
    ensures c in s'.conns && s'.conns[c] == s.conns[c].(recvbuf := s'.conns[c].recvbuf)
    ensures At(s', SendSlot(c)) == [] && Lives(s', s.conns[c].sendbuf.value)
  {
    hide S.TooFarAhead, Lives, Next;
    LooksSo(cfg, s, s', t, c, got);
    if s' == PutIo(s, t, c, S.IoIdle) {
      SameLives(s, s', s.conns[c].sendbuf.value);
    } else if s.conns[c].recvbuf.Some? {
      var s1 := Requests(cfg, s, t, c, None);
    } else {
      var s1 := Requests(cfg, s, t, c, got);
    }
  }

  lemma LooksSo(cfg: Config, s: Server, s': Server, t: Tid, c: ConnId, got: Option<nat>)
    requires c in s.conns && Io(s, t) == IoThread(c, S.ReqTop) && Next(cfg, s, Move(t, c, S.IoReqTop(got))) == Some(s')
    ensures s.conns[c].recvbuf.Some? ==> Next(cfg, s, Move(t, c, S.IoReqTop(None))) == Some(s')
    ensures s' == PutIo(s, t, c, S.IoIdle) || s.conns[c].recvbuf.Some? || FindsBuffer(cfg, s, c, got)
  {
    hide S.TooFarAhead, IoNext, SubNext, CompNext;
  }

  /** The way through handle_request without a buffer ends as it would have
      without the event going on. */
  lemma MissSafe(cfg: Config, s: Server, s'': Server, t: Tid, c: ConnId)
    requires ValidConfig(cfg) && Inv(cfg, s) && Io(s, t) == IoThread(c, S.FinUnlock(true)) && c in s.conns
    requires s'' == PutIo(PutIo(PutConn(s, c, s.conns[c].(lock := false)), t, c, S.ReqTop), t, c, S.IoIdle)
    ensures Safe(cfg, s'')
  {
    hide Inv, Next, Safe, Sim, View;
    var u' := UnlocksAsIf(cfg, s, t, c);
    assert s''.io == u'.io;
    InvSafe(cfg, s'');
  }

  /** recv fails: the second finish. */
  lemma FailsAgain(cfg: Config, s: Server, t: Tid, c: ConnId)
    requires c in s.conns && Io(s, t) == IoThread(c, S.ReqRecv) && !s.conns[c].lock
    requires s.conns[c].sendbuf.Some? && At(s, SendSlot(c)) == [] && Lives(s, s.conns[c].sendbuf.value)
    ensures !Safe(cfg, s)
  {
    hide Conserved, Next, Lives, After;
    var (r, m) := (Move(t, c, S.IoRecvFail), Move(t, c, S.IoStep));
    var s2 := PutIo(s, t, c, S.FinTry(false));
    RecvFails(cfg, s, t, c);
    AfterNone(cfg, s);
    AfterStep(cfg, false, s, [], s, r);
    assert [] + [r] == [r];
    SameLives(s, s2, s.conns[c].sendbuf.value);
    GivesAgain(cfg, s2, t, c);
    AfterBoth(cfg, false, s, [r], s2, [m, m]);
  }

  // ---------------------------------------------------------------- the whole server

  /** With room for one request only, a clean start, and no hypothesis at all,
      every move keeps the settled state. */
  lemma {:induction false} LaxSettled(cfg: Config, s: Server, ms: seq<Move>)
    requires ValidConfig(cfg) && cfg.readahead == 0 && Settled(cfg, true, s) && After(cfg, true, s, ms).Some?
    ensures Settled(cfg, true, After(cfg, true, s, ms).value)
  {
    hide Settled, Next, Allowed;
    if ms != [] {
      var u := After(cfg, true, s, ms[..|ms| - 1]).value;
      var m := ms[|ms| - 1];
      LaxSettled(cfg, s, ms[..|ms| - 1]);
      AllAllowed(cfg, u, m);
      SettledStep(cfg, true, u, m, After(cfg, true, s, ms).value);
    }
  }

  lemma AllAllowed(cfg: Config, s: Server, m: Move)
    requires ValidConfig(cfg) && cfg.readahead == 0 && Settled(cfg, true, s) && Next(cfg, s, m).Some?
    ensures Allowed(cfg, s, m)
  {
    hide Inv, Q, S.TooFarAhead, SubNext, CompNext, IoNext, RecvBytes, SendBytes, RequestTop;
    if m.a.AcceptServe? {
      assert SenderOk(cfg, true, View(Settle(s), m.c));
    } else if m.a.IoStep? && Io(s, m.t).pc in {S.FinUnlock(true), S.FinRelease(true)} {
      AtUnlock(cfg, true, s, m.t, m.c, true);
    }
  }

  /** Over all runs of the server, with no hypothesis on its moves, from any start
      with sendbuf NULL everywhere: buffers are always conserved if and only if
      readahead is zero. */
  lemma {:induction false} ReadaheadExact(cfg: Config)
    requires ValidConfig(cfg)
    ensures (forall s, ms :: Initial(s) && C.Clean(s) && After(cfg, true, s, ms).Some? ==>
                               Conserved(After(cfg, true, s, ms).value)) <==> cfg.readahead == 0
  {
    hide Initial, C.Clean, After, Conserved, Settled;
    if cfg.readahead == 0 {
      forall s, ms | Initial(s) && C.Clean(s) && After(cfg, true, s, ms).Some?
        ensures Conserved(After(cfg, true, s, ms).value)
      {
        StartSettled(cfg, true, s);
        LaxSettled(cfg, s, ms);
        SettledConserved(cfg, true, After(cfg, true, s, ms).value);
      }
    } else {
      var s, ms := BadRun(cfg);
    }
  }

  lemma {:induction false} LaxAfter(cfg: Config, s: Server, ms: seq<Move>)
    requires After(cfg, false, s, ms).Some?
    ensures After(cfg, true, s, ms) == After(cfg, false, s, ms)
  {
    if ms != [] {
      LaxAfter(cfg, s, ms[..|ms| - 1]);
    }
  }

  lemma {:induction false} RunAfter(cfg: Config, ss: seq<Server>, ms: seq<Move>, n: nat)
    requires Run(cfg, ss, ms) && n <= |ms|
    ensures After(cfg, true, ss[0], ms[..n]) == Some(ss[n])
  {
    hide Next, GoodMove, Initial;
    if n > 0 {
      RunAfter(cfg, ss, ms, n - 1);
      assert ms[..n][..n - 1] == ms[..n - 1];
    }
  }

  /** With room for two requests, a run of a server with one connection and two
      buffers or more ends with a buffer in the pool and somewhere else. */
  lemma {:induction false} BadRun(cfg: Config) returns (s: Server, ms: seq<Move>)
    requires ValidConfig(cfg) && cfg.readahead >= 1
    ensures Initial(s) && C.Clean(s) && After(cfg, true, s, ms).Some?
    ensures !Conserved(After(cfg, true, s, ms).value)
  {
    hide Initial, C.Clean, After, Conserved, View, Inv, Settled;
    var msg := seq(REQUEST_SIZE, _ => 0);
    var r, w := W.StraysIntoRequest(cfg, msg);
    var ss, ns :| Run(cfg, ss, ns) && C.Clean(ss[0]) && r == ss[|ns|];
    RunSettled(cfg, true, ss, ns, |ns|);
    C.Busy(cfg, r);
    SameConn(r);
    s := ss[0];
    RunAfter(cfg, ss, ns, |ns|);
    assert ns[..|ns|] == ns;
    var m := Move(0, 0, S.IoStep);
    Unlocks(cfg, r, m, true);
    var r' := Next(cfg, r, m).value;
    FallThrough(cfg, r, r', 0, 0, None);
    LaxAfter(cfg, r', FailedRequest(0, 0, None));
    AfterStep(cfg, true, s, ns, r, m);
    AfterBoth(cfg, true, s, ns + [m], r', FailedRequest(0, 0, None));
    ms := ns + [m] + FailedRequest(0, 0, None);
  }

  lemma SameConn(s: Server)
    requires 0 in s.conns
    ensures View(s, 0).conn == s.conns[0] && (View(s, 0).accepting ==> s.accepting == Some(0))
  {
  }

  /** With room for two requests, and one thread of each kind, a run that meets
      the hypotheses, from a start with sendbuf NULL everywhere, comes to an accept
      that does not; and an error on the new socket then puts a buffer in the pool
      that is somewhere else. */
  lemma {:induction false} StaleRun(cfg: Config) returns (s: Server, s': Server)
    requires ValidConfig(cfg) && cfg.readahead >= 1
    ensures C.Started(cfg, s) && C.One(s) && s.accepting == Some(0)
    ensures Next(cfg, s, Move(0, 0, S.AcceptServe(0, 0, 0))) == Some(s')
    ensures After(cfg, false, s', ErrorEvent(0, 0)).Some?
    ensures !Conserved(After(cfg, false, s', ErrorEvent(0, 0)).value)
  {
    hide Reachable, C.Started, After, Conserved, View, Inv, S.Accepted;
    var a := seq(REQUEST_SIZE, _ => 0);
    var w;
    s, w := W.StaleReuse(cfg, a, a);
    C.StartedReachable(cfg, s);
    ReachableKeeps(cfg, s);
    SameConn(s);
    WaitsThen(cfg, s);
    s' := Next(cfg, s, Move(0, 0, S.AcceptServe(0, 0, 0))).value;
    StaleAccept(cfg, s, s', 0, 0, 0, 0);
  }

  /** While its one connection is being accepted, the IO thread waits. */
  lemma WaitsThen(cfg: Config, s: Server)
    requires Inv(cfg, s) && C.One(s) && View(s, 0).accepting
    ensures Io(s, 0).pc == S.IoIdle
  {
    C.Busy(cfg, s);
  }
}
