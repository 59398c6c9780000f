/** What the server can do: every step that a session can take, whenever its
    thread has time for it and its buffer is first in the shared queue; and no
    other. So what is proved possible for a connection alone is possible among
    any number of others, once they are out of the way.
 */
module ServerEnabled {
  import opened Rpc
  import opened ServerMachine
  import opened ServerView
  import opened ServerInvariant
  import opened ServerSimulation
  import opened ServerTheorems
  import S = SessionProtocol
  import I = SessionInvariant
  import H = SessionHistory

  /** Thread t is there for connection c: it is the one assigned to it, an event or
      a buffer is taken only by a thread at its wait, and what is taken from a
      shared queue is the first in it. */
  predicate Serves(cfg: Config, s: Server, t: Tid, c: ConnId, a: S.Act)
    requires c in s.conns
  {
    var k := s.conns[c];
    match a
    case AcceptTake => s.accepting == None && s.free != [] && s.free[0] == c
    case AcceptServe(_, _, _) => true
    case IoEvent(_, _, _) => k.ioidx == t && Io(s, t).pc == S.IoIdle
    case CompTake =>
      Comp(s, t).pc == S.CompIdle && At(s, ComputeInbox(t)) != [] && BufferOf(s, At(s, ComputeInbox(t))[0]).conn == c
    case SubTake =>
      Sub(s, t).pc == S.SubIdle && At(s, SubmitInbox(t)) != [] && BufferOf(s, At(s, SubmitInbox(t))[0]).conn == c
    case CompStep => k.computeidx == t
    case SubStep => k.submitidx == t
    case IoReqTop(got) =>
      k.ioidx == t &&
      (got.Some? && k.recvbuf.None? && !S.TooFarAhead(cfg, k) ==> At(s, Pool) != [] && got.value == At(s, Pool)[0])
    case _ => k.ioidx == t
  }

  /** With any number of connections and threads: the server can make a move if and
      only if the session can take the act and the thread is there for it. */
  lemma {:induction false} EnabledExactly(cfg: Config, s: Server, m: Move)
    requires Inv(cfg, s) && m.c in s.conns
    ensures Next(cfg, s, m).Some? <==>
            S.Next(cfg, View(s, m.c), m.a).Some? && Serves(cfg, s, m.t, m.c, m.a)
  {
    hide Inv, Next, S.Next, View, Serves, Sim;
    if Next(cfg, s, m).Some? {
      StepSim(cfg, s, Next(cfg, s, m).value, m);
      SimNext(cfg, s, Next(cfg, s, m).value, m);
      Serving(cfg, s, m);
    }
    if S.Next(cfg, View(s, m.c), m.a).Some? && Serves(cfg, s, m.t, m.c, m.a) {
      Enabled(cfg, s, m);
    }
  }

  lemma SimNext(cfg: Config, s: Server, s': Server, m: Move)
    requires m.c in s.conns && Sim(cfg, s, s', m.c, m.a)
    ensures S.Next(cfg, View(s, m.c), m.a).Some?
  {
    hide Struct, S.Next, View;
  }

  // ---------------------------------------------------------------- no other

  lemma Serving(cfg: Config, s: Server, m: Move)
    requires Inv(cfg, s) && m.c in s.conns && Next(cfg, s, m).Some?
    ensures Serves(cfg, s, m.t, m.c, m.a)
  {
    hide Conserved, Placed, View, Sessions, RecvBytes, SendBytes, S.TooFarAhead, SubNext, CompNext, IoNext;
    BusyOnly(cfg, s, m.t, m.c);
  }

  /** A thread that can go on is busy, so it is the one assigned. */
  lemma BusyOnly(cfg: Config, s: Server, t: Tid, c: ConnId)
    requires Inv(cfg, s) && c in s.conns
    ensures IoNext(s, t, c).Some? ==> Io(s, t).pc != S.IoIdle
    ensures SubNext(s, t, c).Some? ==> Sub(s, t).pc != S.SubIdle
    ensures CompNext(cfg, s, t, c).Some? ==> Comp(s, t).pc != S.CompIdle
  {
    hide Inv, Wrap64, S.SetEpoll, Respond;
  }

  // ---------------------------------------------------------------- whatever the session can do

  lemma Enabled(cfg: Config, s: Server, m: Move)
    requires Inv(cfg, s) && m.c in s.conns
    requires S.Next(cfg, View(s, m.c), m.a).Some? && Serves(cfg, s, m.t, m.c, m.a)
    ensures Next(cfg, s, m).Some?
  {
    hide Inv, Q, S.SendBytes, S.RecvBytes, S.IoNext, S.CompNext, S.SubNext, RecvBytes, SendBytes, IoNext, CompNext,
         SubNext;
    match m.a
    case AcceptTake =>
    case AcceptServe(_, _, _) =>
    case IoEvent(_, _, _) =>
    case IoStep => EnabledIoStep(cfg, s, m.c);
    case IoRecv(bytes) => EnabledRecv(cfg, s, m.c, bytes);
    case IoSend(n) => EnabledSend(cfg, s, m.c, n);
    case CompTake =>
    case CompStep => EnabledCompute(cfg, s, m.c);
    case SubTake =>
    case SubStep => EnabledSubmit(cfg, s, m.c);
    case _ =>
  }

  lemma EnabledIoStep(cfg: Config, s: Server, c: ConnId)
    requires Inv(cfg, s) && c in s.conns && S.IoNext(View(s, c)).Some?
    ensures var t := s.conns[c].ioidx; Io(s, t).conn == c && IoNext(s, t, c).Some?
  {
    hide Conserved, Placed, Assigned, Q, Wrap64, H.Faithful, S.SetEpoll;
    var v, t := View(s, c), s.conns[c].ioidx;
    assert I.Inv(cfg, v);
    HandFull(cfg, v);
    if At(s, IoHand(t)) == [] { EmptyShows(s, IoHand(t), c); }
  }

  lemma EnabledRecv(cfg: Config, s: Server, c: ConnId, bytes: Bytes)
    requires Inv(cfg, s) && c in s.conns && S.RecvBytes(cfg, View(s, c), bytes).Some?
    ensures var t := s.conns[c].ioidx; Io(s, t).conn == c && Handler(cfg, s, t, c, S.IoRecv(bytes)).Some?
  {
    hide Conserved, Placed, Assigned, Q, H.Faithful, S.SentSlice, SendBytes, RequestTop, IoNext;
    var v := View(s, c);
    assert I.Inv(cfg, v);
    Single(v, cfg);
    LiveSlotsInv(cfg, s, c);
    SlotOwned(s, c, RecvSlot(c));
  }

  lemma EnabledSend(cfg: Config, s: Server, c: ConnId, n: nat)
    requires Inv(cfg, s) && c in s.conns && S.SendBytes(cfg, View(s, c), n).Some?
    ensures var t := s.conns[c].ioidx; Io(s, t).conn == c && Handler(cfg, s, t, c, S.IoSend(n)).Some?
  {
    hide Conserved, Placed, Assigned, Q, H.Faithful, S.SentSlice, RecvBytes, RequestTop, IoNext;
    var v := View(s, c);
    assert I.Inv(cfg, v);
    Single(v, cfg);
    LiveSlotsInv(cfg, s, c);
    SlotOwned(s, c, SendSlot(c));
  }

  lemma EnabledCompute(cfg: Config, s: Server, c: ConnId)
    requires Inv(cfg, s) && c in s.conns && S.CompNext(cfg, View(s, c)).Some?
    ensures var t := s.conns[c].computeidx; Comp(s, t).conn == c && CompNext(cfg, s, t, c).Some?
  {
    hide Conserved, Placed, Assigned, Q, H.Faithful, Respond;
    var t := s.conns[c].computeidx;
    if At(s, ComputeHand(t)) == [] { EmptyShows(s, ComputeHand(t), c); }
  }

  lemma EnabledSubmit(cfg: Config, s: Server, c: ConnId)
    requires Inv(cfg, s) && c in s.conns && S.SubNext(View(s, c)).Some?
    ensures var t := s.conns[c].submitidx; Sub(s, t).conn == c && SubNext(s, t, c).Some?
  {
    hide Conserved, Placed, Assigned, Q, H.Faithful, Wrap64, S.SetEpoll;
    var v, t := View(s, c), s.conns[c].submitidx;
    assert I.Inv(cfg, v);
    HandFull(cfg, v);
    if At(s, SubmitHand(t)) == [] { EmptyShows(s, SubmitHand(t), c); }
  }

  lemma HandFull(cfg: Config, v: S.Session)
    requires I.Inv(cfg, v)
    ensures I.HasSubHand(v.sub) ==> v.shand != []
    ensures I.HasIoHand(v.io) ==> v.iohand != []
    ensures v.io.ReqCount? ==> v.conn.recvbuf.Some?
  {
    hide I.Wakeups;
  }

  // ---------------------------------------------------------------- what a move leaves alone

  lemma IoStepFrames(cfg: Config, s: Server, s': Server, t: Tid, c: ConnId)
    requires Inv(cfg, s) && c in s.conns && Io(s, t).conn == c && IoNext(s, t, c) == Some(s')
    ensures IoFrame(s, s', t, c)
  {
    hide Struct, Sessions, IoFrame, Moves, Wrap64, S.SetEpoll;
    var (k, pc) := (s.conns[c], Io(s, t).pc);
    if pc.RespTop? && k.sendbuf.None? && At(s, SendQueue(c)) != [] {
      AttachMoves(cfg, s, s', t, c);
    } else if pc.RespPut? || pc.FinPut? {
      RespPutMoves(cfg, s, s', t, c);
    } else if pc.ReqCount? {
      CountMoves(cfg, s, s', t, c);
    } else if pc.ReqPut? {
      ReqPutMoves(cfg, s, s', t, c);
    } else if pc.FinDrain? && At(s, SendQueue(c)) != [] {
      DrainMoves(cfg, s, s', t, c);
    } else if pc.FinSend? && k.sendbuf.Some? {
      GiveSendMoves(cfg, s, s', t, c);
    } else if pc.FinRecv? && k.recvbuf.Some? {
      GiveRecvMoves(cfg, s, s', t, c);
    } else {
      Assignments(cfg, s);
      PlainIoFrame(cfg, s, t, c, S.IoStep);
    }
  }

  lemma Assignments(cfg: Config, s: Server)
    requires Inv(cfg, s)
    ensures Assigned(s)
  {
    hide Conserved, Placed, Sessions;
  }

  lemma HandlerFrames(cfg: Config, s: Server, s': Server, t: Tid, c: ConnId, a: S.Act)
    requires Inv(cfg, s) && c in s.conns && Io(s, t).conn == c && Handler(cfg, s, t, c, a) == Some(s')
    ensures IoFrame(s, s', t, c)
  {
    hide Struct, Sessions, IoFrame, Moves, Writes, IoNext, S.TooFarAhead, S.SentSlice;
    var k := s.conns[c];
    match a
    case IoRecv(bytes) => RecvMoves(cfg, s, s', t, c, bytes);
    case IoSend(n) =>
      if n < BufferOf(s, k.sendbuf.value).left {
        SendPartMoves(cfg, s, s', t, c, n);
      } else {
        SendLastMoves(cfg, s, s', t, c, n);
      }
    case IoReqTop(got) =>
      if k.recvbuf.Some? || got.None? || S.TooFarAhead(cfg, k) {
        TopFrames(cfg, s, s', t, c, got);
      } else {
        ReadyMoves(cfg, s, s', t, c, got);
      }
    case IoStep => IoStepFrames(cfg, s, s', t, c);
    case _ => Assignments(cfg, s); PlainIoFrame(cfg, s, t, c, a);
  }

  lemma TopFrames(cfg: Config, s: Server, s': Server, t: Tid, c: ConnId, got: Option<nat>)
    requires Inv(cfg, s) && c in s.conns && Io(s, t).conn == c && Io(s, t).pc == S.ReqTop
    requires s.conns[c].recvbuf.Some? || got.None? || S.TooFarAhead(cfg, s.conns[c])
    requires RequestTop(cfg, s, t, c, got) == Some(s')
    ensures IoFrame(s, s', t, c)
  {
    hide Conserved, Placed, Sessions, S.TooFarAhead;
    PutFrame(s, s, t, c, s.conns[c], Io(s', t).pc);
  }

  lemma EventFrames(cfg: Config, s: Server, s': Server, t: Tid, c: ConnId, a: S.Act)
    requires c in s.conns && a.IoEvent? && Next(cfg, s, Move(t, c, a)) == Some(s')
    ensures IoFrame(s, s', t, c)
  {
    assert s.conns[c := s.conns[c]] == s.conns;
  }

  lemma CompFrames(cfg: Config, s: Server, s': Server, t: Tid, c: ConnId)
    requires Inv(cfg, s) && c in s.conns && Comp(s, t).conn == c && CompNext(cfg, s, t, c) == Some(s')
    ensures CompFrame(s, s', t, c)
  {
    hide Struct, Sessions, CompFrame, Moves, Writes, Respond;
    if Comp(s, t).pc == S.CompWork {
      ComputeMoves(cfg, s, s', t, c);
    } else {
      CompPutMoves(cfg, s, s', t, c);
    }
  }

  lemma SubFrames(cfg: Config, s: Server, s': Server, t: Tid, c: ConnId)
    requires Inv(cfg, s) && c in s.conns && Sub(s, t).conn == c && SubNext(s, t, c) == Some(s')
    ensures SubFrame(s, s', t, c)
  {
    hide Inv, SubFrame, Moves, SubNext;
    SubSome(s, t, c);
    match Sub(s, t).pc
    case SubRecycle => RecycleMoves(cfg, s, s', t, c);
    case SubDispose => DisposeMoves(cfg, s, s', t, c);
    case SubQueue => QueueMoves(cfg, s, s', t, c);
    case _ => Structured(cfg, s); PlainSubFrame(s, s', t, c);
  }

  lemma SubSome(s: Server, t: Tid, c: ConnId)
    requires c in s.conns && SubNext(s, t, c).Some?
    ensures Sub(s, t).pc != S.SubIdle
    ensures Sub(s, t).pc.SubRecycle? || Sub(s, t).pc.SubDispose? || Sub(s, t).pc.SubQueue? ==>
              At(s, SubmitHand(t)) != []
  {
    hide Wrap64, S.SetEpoll, Shift;
  }

  lemma Structured(cfg: Config, s: Server)
    requires Inv(cfg, s)
    ensures Struct(s)
  {
    hide Struct, Sessions;
  }

  /** Every move but accept's changes its own thread and its own connection. */
  lemma Frames(cfg: Config, s: Server, s': Server, m: Move)
    requires Inv(cfg, s) && m.c in s.conns && Next(cfg, s, m) == Some(s')
    ensures S.InHandler(m.a) || m.a.IoEvent? ==> IoFrame(s, s', m.t, m.c)
    ensures m.a.CompTake? || m.a.CompStep? ==> CompFrame(s, s', m.t, m.c)
    ensures m.a.SubTake? || m.a.SubStep? ==> SubFrame(s, s', m.t, m.c)
  {
    hide Inv, IoFrame, CompFrame, SubFrame, Moves, Handler, SubNext, CompNext, S.Accepted;
    match m.a
    case AcceptTake =>
    case AcceptServe(_, _, _) =>
    case IoEvent(_, _, _) => EventFrames(cfg, s, s', m.t, m.c, m.a);
    case CompTake => CompTakeMoves(cfg, s, s', m.t, m.c);
    case CompStep => CompFrames(cfg, s, s', m.t, m.c);
    case SubTake => SubTakeMoves(cfg, s, s', m.t, m.c);
    case SubStep => SubFrames(cfg, s, s', m.t, m.c);
    case _ => HandlerFrames(cfg, s, s', m.t, m.c, m.a);
  }
}
