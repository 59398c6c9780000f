/** No response is stuck. While a connection is served, and unless a finish is
    already bound to happen, its threads can always go on to a state in which
    every request delivered is answered: with no byte received, no call failing,
    and no event that epoll was not asked for.
 */
module SessionLiveness {
  import opened Rpc
  import opened Epoll
  import opened SessionProtocol
  import opened SessionInvariant
  import opened SessionHistory
  import opened SessionTheorems

  // ---------------------------------------------------------------- continuations

  /** An act that needs nothing of the peer but room to send: events are those of
      the mask that the kernel holds, and no call fails. */
  predicate Honest(v: Session, a: Act) {
    match a
    case IoEvent(err, out, inp) =>
      !err && (out || inp) && v.conn.kernel.Some? &&
      (out ==> v.conn.kernel.value.wr) && (inp ==> v.conn.kernel.value.rd)
    case IoRecv(_) => false
    case IoRecvFail => false
    case IoSendFail => false
    case AcceptTake => false
    case AcceptServe(_, _, _) => false
    case _ => true
  }

  /** The session after a sequence of honest acts, when each can be taken. */
  function Path(cfg: Config, v: Session, acts: seq<Act>): Option<Session> {
    if acts == [] then Some(v)
    else
      match Path(cfg, v, acts[..|acts| - 1])
      case None => None
      case Some(u) =>
        var a := acts[|acts| - 1];
        if Honest(u, a) && Good(u, a) then Next(cfg, u, a) else None
  }

  lemma {:induction false} PathStep(cfg: Config, v: Session, acts: seq<Act>, u: Session, a: Act)
    requires Path(cfg, v, acts) == Some(u) && Honest(u, a) && Good(u, a)
    ensures Path(cfg, v, acts + [a]) == Next(cfg, u, a)
  {
    assert (acts + [a])[..|acts + [a]| - 1] == acts;
  }

  /** No buffer is taken from the pool, and no event of input. */
  predicate Spare(a: Act) { (a.IoReqTop? ==> a.got.None?) && (a.IoEvent? ==> !a.inp) }

  predicate Frugal(acts: seq<Act>) { forall a :: a in acts ==> Spare(a) }

  lemma LastIsSpare(acts: seq<Act>)
    requires Frugal(acts) && acts != []
    ensures Spare(acts[|acts| - 1]) && Frugal(acts[..|acts| - 1])
  {
    assert acts[|acts| - 1] in acts;
  }

  /** Honest acts that take neither lead from v to w, in service all the way. */
  ghost predicate Led(cfg: Config, v: Session, w: Session) {
    && (exists acts :: Path(cfg, v, acts) == Some(w) && Frugal(acts))
    && Inv(cfg, w) && Faithful(cfg, w) && Serving(w)
    && v.conn.hist.delivered <= w.conn.hist.delivered && w.conn.hist.rx == v.conn.hist.rx
  }

  lemma {:induction false} Take(cfg: Config, v: Session, u: Session, a: Act) returns (w: Session)
    requires ValidConfig(cfg) && Led(cfg, v, u) && Honest(u, a) && Spare(a)
    requires Next(cfg, u, a).Some? && Serving(Next(cfg, u, a).value)
    ensures w == Next(cfg, u, a).value && Led(cfg, v, w)
  {
    hide Inv, Faithful, Next, Path, Honest, Good;
    w := Next(cfg, u, a).value;
    var acts :| Path(cfg, v, acts) == Some(u) && Frugal(acts);
    HonestIsGood(cfg, u, a);
    PathStep(cfg, v, acts, u, a);
    assert Path(cfg, v, acts + [a]) == Some(w) && Frugal(acts + [a]);
    StepInv(cfg, u, a);
    StepFaithful(cfg, u, a);
    HonestKeeps(cfg, u, a);
  }

  lemma HonestIsGood(cfg: Config, v: Session, a: Act)
    requires Inv(cfg, v) && Serving(v) && Honest(v, a)
    ensures Good(v, a)
  {
    hide Shape, Wakeups;
  }

  /** Such an act receives nothing, and takes no delivered request back. */
  lemma HonestKeeps(cfg: Config, v: Session, a: Act)
    requires Honest(v, a) && Next(cfg, v, a).Some?
    ensures v.conn.hist.delivered <= Next(cfg, v, a).value.conn.hist.delivered
    ensures Next(cfg, v, a).value.conn.hist.rx == v.conn.hist.rx
  {
    hide SentSlice, Respond, Wrap64, TooFarAhead, KernelAfter, IoNext, SubNext;
    if a.IoStep? {
      IoHistory(v);
    } else if a.SubStep? {
      SubHistory(v);
    }
  }

  // ---------------------------------------------------------------- the submitter rests

  function SubRank(sub: SubPc): nat {
    match sub
    case SubTry => 6
    case SubRecycle => 1
    case SubCount => 5
    case SubQueue => 4
    case SubArm => 3
    case SubUnlock => 2
    case SubDispose => 4
    case SubDropLock => 3
    case SubCheck => 2
    case SubRelease => 1
    case SubIdle => 0
  }

  lemma SubMoves(cfg: Config, u: Session)
    requires Inv(cfg, u) && Serving(u) && u.sub != SubIdle
    ensures Next(cfg, u, SubStep).Some?
    ensures var w := Next(cfg, u, SubStep).value;
            && Serving(w) && SubRank(w.sub) < SubRank(u.sub) && w.io == u.io
            && w.comp == u.comp && w.cin == u.cin && w.chand == u.chand
            && (u.io == IoIdle && u.sub != SubRecycle ==> w.sin == u.sin && w.sub != SubRecycle)
  {
    hide Wakeups, KernelAfter, IoNext;
    assert OpenCounts(u);
  }

  /** The submitter comes to the end of its turn; while the IO thread waits, with
      nothing more to submit than there was. */
  lemma {:induction false} SubmitterRests(cfg: Config, v: Session, u: Session) returns (w: Session)
    requires ValidConfig(cfg) && Led(cfg, v, u)
    ensures Led(cfg, v, w) && w.sub == SubIdle && w.io == u.io
    ensures w.comp == u.comp && w.cin == u.cin && w.chand == u.chand
    ensures u.io == IoIdle && u.sub != SubRecycle ==> w.sin == u.sin
    decreases SubRank(u.sub)
  {
    hide Next, Path, Faithful, Serving, Inv;
    if u.sub == SubIdle {
      w := u;
    } else {
      SubMoves(cfg, u);
      w := Take(cfg, v, u, SubStep);
      w := SubmitterRests(cfg, v, w);
    }
  }

  // ---------------------------------------------------------------- the IO thread waits

  /** What takes the IO thread back to its wait: every look for a buffer misses,
      and every call would block. */
  function Back(io: IoPc): Act {
    match io
    case ReqRecv => IoRecvAgain
    case ReqTop => IoReqTop(None)
    case RespSend(_) => IoSendAgain
    case _ => IoStep
  }

  function IoRank(io: IoPc): nat {
    match io
    case ReqRecv => 1
    case ReqTop => 2
    case ReqUnlock => 3
    case ReqPut => 4
    case ReqCount => 5
    case ReqLock => 6
    case RespSend(_) => 3
    case RespTop(_) => 4
    case RespUnlock(_) => 5
    case RespCheck(_) => 6
    case RespLock(_) => 7
    case RespPut(_) => 8
    case _ => 0
  }

  /** The finish has the lock, or has closed the connection. */
  predicate Ending(io: IoPc) { io.FinSend? || SendGone(io) || io.FinUnlock? || io.FinRelease? }

  lemma BackMoves(cfg: Config, u: Session)
    requires Inv(cfg, u) && Serving(u) && u.io != IoIdle && !u.io.FinTry?
    requires u.io.RespLock? || u.io.ReqLock? ==> !u.conn.lock
    ensures Next(cfg, u, Back(u.io)).Some?
    ensures var w := Next(cfg, u, Back(u.io)).value;
            Serving(w) && IoRank(w.io) < IoRank(u.io) && w.sub == u.sub && !w.io.FinTry? && !Ending(w.io)
  {
    hide Next, IoNext, Serving, Inv;
    BackStep(cfg, u);
    if Responding(u.io) {
      BackResponding(cfg, u);
    } else if Requesting(u.io) {
      BackRequesting(cfg, u);
    } else {
      BackCalls(cfg, u);
    }
  }

  predicate Calling(io: IoPc) { io.RespSend? || io.ReqTop? || io.ReqRecv? }

  lemma BackStep(cfg: Config, u: Session)
    requires Inv(cfg, u) && Serving(u)
    ensures Next(cfg, u, IoStep) == IoNext(u)
    ensures u.io == IoIdle || u.io.FinTry? || Responding(u.io) || Requesting(u.io) || Calling(u.io)
  {
    hide Shape, Wakeups, IoNext;
  }

  lemma BackResponding(cfg: Config, u: Session)
    requires Serving(u) && Responding(u.io) && (u.io.RespLock? ==> !u.conn.lock)
    requires Next(cfg, u, IoStep) == IoNext(u)
    ensures Next(cfg, u, Back(u.io)).Some?
    ensures var w := Next(cfg, u, Back(u.io)).value;
            Serving(w) && IoRank(w.io) < IoRank(u.io) && w.sub == u.sub && !w.io.FinTry? && !Ending(w.io)
  {
    hide Next;
    if u.io.RespTop? {
      BackTop(u);
    } else {
      BackSent(u);
    }
  }

  lemma BackTop(u: Session)
    requires Serving(u) && u.io.RespTop?
    ensures IoNext(u).Some?
    ensures var w := IoNext(u).value;
            Serving(w) && IoRank(w.io) < IoRank(u.io) && w.sub == u.sub && !w.io.FinTry? && !Ending(w.io)
  {
  }

  lemma BackSent(u: Session)
    requires Serving(u) && Responding(u.io) && !u.io.RespTop? && (u.io.RespLock? ==> !u.conn.lock)
    ensures IoNext(u).Some?
    ensures var w := IoNext(u).value;
            Serving(w) && IoRank(w.io) < IoRank(u.io) && w.sub == u.sub && !w.io.FinTry? && !Ending(w.io)
  {
    hide KernelAfter, Wrap64;
  }

  lemma BackRequesting(cfg: Config, u: Session)
    requires Inv(cfg, u) && Serving(u) && Requesting(u.io) && (u.io.ReqLock? ==> !u.conn.lock)
    requires Back(u.io) == IoStep ==> Next(cfg, u, IoStep) == IoNext(u)
    ensures Next(cfg, u, Back(u.io)).Some?
    ensures var w := Next(cfg, u, Back(u.io)).value;
            Serving(w) && IoRank(w.io) < IoRank(u.io) && w.sub == u.sub && !w.io.FinTry? && !Ending(w.io)
  {
    hide Counts, Wakeups, KernelAfter, Wrap64, SubNext, SendBytes, RecvBytes, TooFarAhead;
  }

  lemma BackCalls(cfg: Config, u: Session)
    requires Serving(u) && Calling(u.io)
    ensures Next(cfg, u, Back(u.io)).Some?
    ensures var w := Next(cfg, u, Back(u.io)).value;
            Serving(w) && IoRank(w.io) < IoRank(u.io) && w.sub == u.sub && !w.io.FinTry? && !Ending(w.io)
  {
    hide IoNext, SubNext, SendBytes, RecvBytes, TooFarAhead;
  }

  lemma NotHeld(cfg: Config, u: Session)
    requires Inv(cfg, u) && Serving(u) && u.sub == SubIdle
    ensures u.io.RespLock? || u.io.ReqLock? ==> !u.conn.lock
  {
    hide Counts, Wakeups;
  }

  lemma {:induction false} IoRests(cfg: Config, v: Session, u: Session) returns (w: Session)
    requires ValidConfig(cfg) && Led(cfg, v, u) && u.sub == SubIdle && !u.io.FinTry?
    ensures Led(cfg, v, w) && w.io == IoIdle && w.sub == SubIdle
    decreases IoRank(u.io)
  {
    hide Next, Path, Faithful, Serving, Inv;
    if u.io == IoIdle {
      w := u;
    } else {
      NotHeld(cfg, u);
      BackMoves(cfg, u);
      w := Take(cfg, v, u, Back(u.io));
      w := IoRests(cfg, v, w);
    }
  }

  // ---------------------------------------------------------------- compute and submit

  /** Steps of compute_worker; the buffers before its own hand count twice. */
  function CompAct(u: Session): Act { if u.comp == CompIdle then CompTake else CompStep }

  function CompOwed(u: Session): nat {
    3 * |u.cin| + (if u.comp == CompWork then 2 else if u.comp == CompPut then 1 else 0)
  }

  lemma CompMoves(cfg: Config, u: Session)
    requires Inv(cfg, u) && Serving(u) && CompOwed(u) > 0
    ensures Next(cfg, u, CompAct(u)).Some?
    ensures var w := Next(cfg, u, CompAct(u)).value;
            && Serving(w) && CompOwed(w) < CompOwed(u) && w.io == u.io && w.sub == u.sub && w.conn == u.conn
            && |w.cin| + |w.chand| + |w.sin| == |u.cin| + |u.chand| + |u.sin|
            && |w.sin| >= |u.sin|
  {
    hide Counts, Wakeups, IoNext, SubNext, Respond;
  }

  /** Everything that was received goes through the compute stage. */
  lemma {:induction false} ComputesAll(cfg: Config, v: Session, u: Session) returns (w: Session)
    requires ValidConfig(cfg) && Led(cfg, v, u)
    ensures Led(cfg, v, w) && CompOwed(w) == 0 && w.io == u.io && w.sub == u.sub && w.conn == u.conn
    ensures |w.cin| + |w.chand| + |w.sin| == |u.cin| + |u.chand| + |u.sin|
    decreases CompOwed(u)
  {
    hide Next, Path, Faithful, Serving, Inv;
    if CompOwed(u) == 0 {
      w := u;
    } else {
      CompMoves(cfg, u);
      w := Take(cfg, v, u, CompAct(u));
      w := ComputesAll(cfg, v, w);
    }
  }

  lemma TakeMoves(cfg: Config, u: Session)
    requires Serving(u) && u.sub == SubIdle && u.sin != []
    ensures Next(cfg, u, SubTake) == Some(u.(sin := u.sin[1..], shand := [u.sin[0]], sub := SubTry))
    ensures Serving(Next(cfg, u, SubTake).value)
  {
  }

  /** With the IO thread at its wait, no trylock fails, and every response gets to
      the send queue. */
  lemma {:induction false} SubmitsAll(cfg: Config, v: Session, u: Session) returns (w: Session)
    requires ValidConfig(cfg) && Led(cfg, v, u) && u.io == IoIdle && u.sub == SubIdle
    ensures Led(cfg, v, w) && w.io == IoIdle && w.sub == SubIdle && w.sin == []
    ensures w.comp == u.comp && w.cin == u.cin && w.chand == u.chand
    decreases |u.sin|
  {
    hide Next, Path, Faithful, Serving, Inv, Led;
    if u.sin == [] {
      w := u;
    } else {
      LedServes(cfg, v, u);
      TakeMoves(cfg, u);
      w := Take(cfg, v, u, SubTake);
      w := SubmitterRests(cfg, v, w);
      w := SubmitsAll(cfg, v, w);
    }
  }

  lemma LedServes(cfg: Config, v: Session, w: Session)
    requires Led(cfg, v, w)
    ensures Serving(w) && Inv(cfg, w) && Faithful(cfg, w)
  {
  }

  // ---------------------------------------------------------------- the responses go out

  predicate Submitted(v: Session) {
    v.sub == SubIdle && v.comp == CompIdle && v.cin == [] && v.chand == [] && v.sin == [] && v.shand == []
  }

  /** Bytes that the connection owes its peer. */
  function Owed(v: Session): nat {
    |v.sendq| * RESPONSE_SIZE + (if v.send == [] then 0 else v.send[0].left)
  }

  /** Points of handle_response after a response is sent, in an event that goes no
      further. */
  predicate Turning(io: IoPc) {
    io == RespTop(false) || io == RespPut(false) || io == RespLock(false) || io == RespCheck(false) ||
    io == RespUnlock(false)
  }

  /** They come round to the top of the loop. */
  lemma TurnMoves(cfg: Config, u: Session)
    requires Inv(cfg, u) && Serving(u) && Submitted(u) && Turning(u.io) && u.io != RespTop(false)
    ensures Next(cfg, u, IoStep).Some?
    ensures var w := Next(cfg, u, IoStep).value;
            && Serving(w) && Submitted(w) && w.sendq == u.sendq && w.send == u.send
            && Turning(w.io) && IoRank(w.io) < IoRank(u.io)
  {
    hide Counts, Wakeups, KernelAfter, Wrap64, SubNext, SendBytes, RecvBytes, RequestTop;
  }

  lemma {:induction false} TurnEnds(cfg: Config, v: Session, u: Session) returns (w: Session)
    requires ValidConfig(cfg) && Led(cfg, v, u) && Submitted(u) && Turning(u.io)
    ensures Led(cfg, v, w) && Submitted(w) && w.io == RespTop(false) && w.sendq == u.sendq && w.send == u.send
    decreases IoRank(u.io)
  {
    hide Next, Path, Led, Submitted, Inv, Serving, Faithful, Turning, IoRank;
    if u.io == RespTop(false) {
      w := u;
    } else {
      LedServes(cfg, v, u);
      TurnMoves(cfg, u);
      w := Take(cfg, v, u, IoStep);
      w := TurnEnds(cfg, v, w);
    }
  }

  /** The top of the loop: the end of it, or a response attached. */
  lemma TopMoves(cfg: Config, u: Session)
    requires Inv(cfg, u) && Serving(u) && Submitted(u) && u.io == RespTop(false)
    ensures Next(cfg, u, IoStep).Some?
    ensures var w := Next(cfg, u, IoStep).value;
            && Serving(w) && Submitted(w) && Owed(w) == Owed(u)
            && (if u.send == [] && u.sendq == [] then w.io == IoIdle && w.send == [] && w.sendq == []
                else w.io == RespSend(false) && w.send != [])
  {
    hide Counts, Wakeups, SubNext, SendBytes, RecvBytes, RequestTop;
  }

  /** A send that takes all it was given. */
  lemma SendMoves(cfg: Config, u: Session)
    requires ValidConfig(cfg) && Serving(u) && Submitted(u) && u.io == RespSend(false)
    requires u.send != [] && u.send[0].left > 0
    ensures Next(cfg, u, IoSend(IoSize(cfg, u.send[0]))).Some?
    ensures var w := Next(cfg, u, IoSend(IoSize(cfg, u.send[0]))).value;
            && Serving(w) && Submitted(w) && Owed(w) < Owed(u)
            && Turning(w.io)
  {
    hide SentSlice, IoNext, SubNext, RecvBytes, RequestTop;
  }

  lemma HasLeft(cfg: Config, u: Session)
    requires Faithful(cfg, u) && Serving(u) && u.send != []
    ensures u.send[0].left > 0
  {
    hide Sound, InLine;
  }

  /** handle_response, with room in the socket, sends all there is. */
  lemma {:induction false} SendsAll(cfg: Config, v: Session, u: Session) returns (w: Session)
    requires ValidConfig(cfg) && Led(cfg, v, u) && Submitted(u) && u.io == RespTop(false)
    ensures Led(cfg, v, w) && Submitted(w) && w.io == IoIdle && w.send == [] && w.sendq == []
    decreases Owed(u)
  {
    hide Next, Path, Led, Submitted, Owed, Inv, Faithful, Serving;
    LedServes(cfg, v, u);
    TopMoves(cfg, u);
    w := Take(cfg, v, u, IoStep);
    if w.io != IoIdle {
      LedServes(cfg, v, w);
      HasLeft(cfg, w);
      SendMoves(cfg, w);
      w := Take(cfg, v, w, IoSend(IoSize(cfg, w.send[0])));
      var x := w;
      w := TurnEnds(cfg, v, w);
      assert Owed(w) == Owed(x) by { SameOwed(w, x); }
      w := SendsAll(cfg, v, w);
    }
  }

  lemma SameOwed(v: Session, w: Session)
    requires v.send == w.send && v.sendq == w.sendq
    ensures Owed(v) == Owed(w)
  {
  }

  // ---------------------------------------------------------------- the wakeup

  /** With everything submitted and a response pending, epoll has been asked for
      EPOLLOUT; so the event comes. */
  lemma Wakes(cfg: Config, u: Session)
    requires Inv(cfg, u) && Serving(u) && Submitted(u) && u.io == IoIdle && u.conn.processed != u.conn.sent
    ensures Honest(u, IoEvent(false, true, false))
    ensures Next(cfg, u, IoEvent(false, true, false)) == Some(u.(io := RespTop(false)))
    ensures Serving(u.(io := RespTop(false))) && Submitted(u.(io := RespTop(false)))
  {
    hide Shape, Counts;
  }

  lemma AllSent(cfg: Config, w: Session)
    requires Inv(cfg, w) && Serving(w) && Submitted(w) && w.io == IoIdle
    ensures w.conn.processed == w.conn.received
    ensures w.send == [] && w.sendq == [] ==> w.conn.sent == w.conn.processed
  {
    hide Wakeups;
  }

  lemma NoneLeft(w: Session)
    requires InLine(w) && Submitted(w) && w.io == IoIdle && w.send == [] && w.sendq == []
    ensures multiset(w.conn.hist.delivered) == multiset(Reqs(w.conn.hist.answered))
  {
    hide Lay;
    OnlyAnswered(w.conn.hist.answered);
  }

  lemma OnlyAnswered(answered: seq<Item>)
    ensures Lay(answered, [], [], [], [], [], [], []) == Reqs(answered)
  {
  }

  /** Every request delivered to v, and any that it had received to the last byte,
      is answered in w; nothing more was received. */
  predicate AllAnswered(v: Session, w: Session) {
    && Serving(w) && w.conn.sent == w.conn.received
    && v.conn.hist.delivered <= w.conn.hist.delivered && w.conn.hist.rx == v.conn.hist.rx
    && multiset(w.conn.hist.delivered) == multiset(Reqs(w.conn.hist.answered))
  }

  /** Nothing is under way but a request in part. */
  predicate Settled(w: Session) { w.io == IoIdle && Submitted(w) && w.send == [] && w.sendq == [] }

  /** Stage by stage: the submitter ends its turn, the IO thread comes back to its
      wait, all is computed, all is submitted; then the event comes, and all is
      sent. */
  lemma {:induction false} Answers(cfg: Config, v: Session, u: Session) returns (w: Session)
    requires ValidConfig(cfg) && Led(cfg, v, u) && !u.io.FinTry?
    ensures Led(cfg, v, w) && AllAnswered(v, w) && Settled(w)
  {
    hide Next, Path, Led, Inv, Faithful, Serving, Submitted, CompOwed, Honest;
    w := SubmitterRests(cfg, v, u);
    w := IoRests(cfg, v, w);
    w := ComputesAll(cfg, v, w);
    var x := w;
    w := SubmitsAll(cfg, v, w);
    LedServes(cfg, v, x);
    LedServes(cfg, v, w);
    AllSubmitted(cfg, x, w);
    if w.conn.processed != w.conn.sent {
      Wakes(cfg, w);
      w := Take(cfg, v, w, IoEvent(false, true, false));
      w := SendsAll(cfg, v, w);
    } else {
      NothingToSend(cfg, w);
    }
    AllDone(cfg, v, w);
  }

  lemma AllSubmitted(cfg: Config, x: Session, w: Session)
    requires Inv(cfg, w) && Serving(w) && w.sub == SubIdle && w.sin == []
    requires w.comp == x.comp && w.cin == x.cin && w.chand == x.chand && CompOwed(x) == 0
    ensures Submitted(w)
  {
    hide Counts, Wakeups;
  }

  lemma NothingToSend(cfg: Config, w: Session)
    requires Inv(cfg, w) && Serving(w) && w.conn.processed == w.conn.sent
    ensures w.send == [] && w.sendq == []
  {
    hide Wakeups;
  }

  lemma AllDone(cfg: Config, v: Session, w: Session)
    requires Led(cfg, v, w) && Submitted(w) && w.io == IoIdle && w.send == [] && w.sendq == []
    ensures AllAnswered(v, w)
  {
    hide Path, Inv, Submitted, Line, Framed, Sound;
    AllSent(cfg, w);
    NoneLeft(w);
  }

  // ---------------------------------------------------------------- a finish that is bound to happen

  /** A call has failed, the lock is free, and no submitter is on its way to take
      it: the next step that anyone can take is the finish. */
  predicate Doomed(v: Session) {
    v.io.FinTry? && !v.conn.lock && Upstream(v) == 0
  }

  /** What brings a submitter to hold the lock. */
  function LockAct(u: Session): Act {
    if u.sub != SubIdle then SubStep
    else if u.sin != [] then SubTake
    else if u.comp != CompIdle then CompStep
    else CompTake
  }

  function LockRank(u: Session): nat {
    match u.sub
    case SubTry => 1
    case SubRecycle => 3
    case _ =>
      if u.sin != [] then 2 else if u.comp == CompPut then 4 else if u.comp == CompWork then 5 else 6
  }

  lemma LockMoves(cfg: Config, u: Session)
    requires Inv(cfg, u) && Serving(u) && u.io.FinTry? && !u.conn.lock && Upstream(u) > 0
    ensures Next(cfg, u, LockAct(u)).Some?
    ensures var w := Next(cfg, u, LockAct(u)).value;
            && Serving(w) && w.io == u.io && w.sendq == u.sendq
            && (w.conn.lock || (Upstream(w) > 0 && LockRank(w) < LockRank(u)))
  {
    hide Wakeups, KernelAfter, Wrap64, Respond, IoNext;
    assert OpenCounts(u);
  }

  /** A finish whose trylock can be made to fail: the handler returns. */
  lemma {:induction false} FinishFails(cfg: Config, v: Session, u: Session) returns (w: Session)
    requires ValidConfig(cfg) && Led(cfg, v, u) && u.io.FinTry? && (u.conn.lock || Upstream(u) > 0)
    ensures Led(cfg, v, w) && !w.io.FinTry?
    decreases if u.conn.lock then 0 else LockRank(u)
  {
    hide Next, Path, Led, Inv, Faithful, Serving, Upstream;
    LedServes(cfg, v, u);
    if u.conn.lock {
      TryMoves(cfg, u);
      w := Take(cfg, v, u, IoStep);
    } else {
      LockMoves(cfg, u);
      w := Take(cfg, v, u, LockAct(u));
      w := FinishFails(cfg, v, w);
    }
  }

  lemma TryMoves(cfg: Config, u: Session)
    requires Serving(u) && u.io.FinTry? && u.conn.lock
    ensures Next(cfg, u, IoStep) == Some(u.(io := AfterResponse(u.io.more)))
    ensures Serving(u.(io := AfterResponse(u.io.more)))
  {
  }

  /** From there on the connection stays as it is or is finished. */
  lemma {:induction false} DoomedEnds(cfg: Config, v: Session, acts: seq<Act>)
    requires ValidConfig(cfg) && Inv(cfg, v) && Serving(v) && Doomed(v) && Path(cfg, v, acts).Some?
    ensures Inv(cfg, Path(cfg, v, acts).value)
    ensures Path(cfg, v, acts).value == v || !Serving(Path(cfg, v, acts).value)
  {
    hide Next, Inv, Serving, Doomed, Good, Honest;
    if acts != [] {
      var u, a := Path(cfg, v, acts[..|acts| - 1]).value, acts[|acts| - 1];
      DoomedEnds(cfg, v, acts[..|acts| - 1]);
      StepInv(cfg, u, a);
      if u == v {
        DoomedStep(cfg, v, a);
      } else if Serving(Next(cfg, u, a).value) {
        Accepts(u, a);
        ServedBefore(cfg, u, a);
      }
    }
  }

  lemma Accepts(v: Session, a: Act)
    requires Honest(v, a)
    ensures !a.AcceptServe? && !a.AcceptTake? && !a.IoRecv?
  {
  }

  lemma DoomedStep(cfg: Config, v: Session, a: Act)
    requires Inv(cfg, v) && Serving(v) && Doomed(v) && Honest(v, a) && Next(cfg, v, a).Some?
    ensures !Serving(Next(cfg, v, a).value)
  {
    hide Wakeups, KernelAfter, SentSlice, TooFarAhead;
    assert OpenCounts(v);
  }

  // ---------------------------------------------------------------- no response is stuck

  ghost predicate CanAnswer(cfg: Config, v: Session) {
    exists acts :: Path(cfg, v, acts).Some? && AllAnswered(v, Path(cfg, v, acts).value)
  }

  /** From every reachable state in which a connection is served, its threads can
      go on by honest acts to a state in which it is served and all its requests
      are answered, if and only if it is not bound to be finished with responses
      pending. */
  lemma {:induction false} NoResponseStuck(cfg: Config, v: Session)
    requires ValidConfig(cfg) && Reachable(cfg, v) && Serving(v)
    ensures CanAnswer(cfg, v) <==> !(Doomed(v) && v.conn.processed != v.conn.sent)
  {
    hide Reachable, Next, Inv, Faithful, AllAnswered, Path, Doomed, Serving, Frugal;
    ReachableKeeps(cfg, v);
    if Doomed(v) && v.conn.processed != v.conn.sent {
      NeverAnswers(cfg, v);
    } else {
      var acts := AnswersFrom(cfg, v);
    }
  }

  /** How: without a buffer from the pool, and without input. */
  lemma {:induction false} AnswersFrom(cfg: Config, v: Session) returns (acts: seq<Act>)
    requires ValidConfig(cfg) && Inv(cfg, v) && Faithful(cfg, v) && Serving(v)
    requires !(Doomed(v) && v.conn.processed != v.conn.sent)
    ensures Path(cfg, v, acts).Some? && Frugal(acts) && AllAnswered(v, Path(cfg, v, acts).value)
    ensures !Doomed(v) ==> Settled(Path(cfg, v, acts).value)
  {
    hide Next, Inv, Faithful, AllAnswered, Path, Doomed, Serving, Frugal, Settled;
    Starts(cfg, v);
    var w := v;
    if Doomed(v) {
      DoomedDone(cfg, v);
    } else {
      if v.io.FinTry? {
        MayFail(v);
        w := FinishFails(cfg, v, v);
      }
      w := Answers(cfg, v, w);
    }
    acts :| Path(cfg, v, acts) == Some(w) && Frugal(acts);
  }

  lemma Starts(cfg: Config, v: Session)
    requires Inv(cfg, v) && Faithful(cfg, v) && Serving(v)
    ensures Led(cfg, v, v)
  {
    assert Path(cfg, v, []) == Some(v) && Frugal([]);
  }

  lemma MayFail(v: Session)
    requires v.io.FinTry? && !Doomed(v)
    ensures v.conn.lock || Upstream(v) > 0
  {
  }

  lemma NeverAnswers(cfg: Config, v: Session)
    requires ValidConfig(cfg) && Inv(cfg, v) && Serving(v) && Doomed(v) && v.conn.processed != v.conn.sent
    ensures !CanAnswer(cfg, v)
  {
    hide Next, Path, Inv, Serving, Doomed, Reqs;
    DoomedCounts(cfg, v);
    if CanAnswer(cfg, v) {
      var acts :| Path(cfg, v, acts).Some? && AllAnswered(v, Path(cfg, v, acts).value);
      DoomedEnds(cfg, v, acts);
    }
  }

  lemma DoomedCounts(cfg: Config, v: Session)
    requires Inv(cfg, v) && Serving(v) && Doomed(v)
    ensures v.conn.received == v.conn.processed
  {
    hide Wakeups;
  }

  lemma DoomedDone(cfg: Config, v: Session)
    requires Inv(cfg, v) && Faithful(cfg, v) && Serving(v) && Doomed(v) && v.conn.processed == v.conn.sent
    ensures AllAnswered(v, v)
  {
    hide Inv, Faithful, Serving, Doomed, AllAnswered;
    DoomedCounts(cfg, v);
    AnsweredNow(cfg, v);
  }

  // ---------------------------------------------------------------- the IO thread comes back

  /** Acts of the compute and submitter threads. */
  predicate Stage(a: Act) { a.CompTake? || a.CompStep? || a.SubTake? || a.SubStep? }

  /** They leave to the IO thread what is the IO thread's. */
  predicate Beside(v: Session, w: Session) {
    && (Serving(v) ==> Serving(w)) && w.io == v.io && w.conn.ioidx == v.conn.ioidx
    && w.conn.sent == v.conn.sent && w.conn.received == v.conn.received
    && w.conn.hist.delivered == v.conn.hist.delivered && w.conn.hist.rx == v.conn.hist.rx
  }

  lemma StageKeeps(cfg: Config, v: Session, a: Act)
    requires Inv(cfg, v) && Stage(a) && Next(cfg, v, a).Some?
    ensures Beside(v, Next(cfg, v, a).value) && Honest(v, a)
  {
    hide Shape, Wakeups, Wrap64, KernelAfter, IoNext, Respond;
  }

  /** A busy submitter can always go on, for any connection. */
  lemma SubAlways(cfg: Config, v: Session)
    requires Inv(cfg, v) && v.sub != SubIdle
    ensures Next(cfg, v, SubStep).Some? && SubRank(Next(cfg, v, SubStep).value.sub) < SubRank(v.sub)
  {
    hide Inv, Wrap64, KernelAfter, IoNext;
  }

  /** A busy compute thread, too. */
  lemma CompAlways(cfg: Config, v: Session)
    requires Inv(cfg, v) && v.comp != CompIdle
    ensures Next(cfg, v, CompStep).Some?
    ensures Next(cfg, v, CompStep).Some? && v.comp == CompPut ==> Next(cfg, v, CompStep).value.comp == CompIdle
    ensures Next(cfg, v, CompStep).Some? && v.comp == CompWork ==> Next(cfg, v, CompStep).value.comp == CompPut
  {
    hide Counts, Wakeups, IoNext, Respond;
  }

  /** The IO thread is bound to finish the connection in an event that goes on,
      which the second hypothesis excludes. */
  predicate Committed(v: Session) {
    (Ending(v.io) && v.io.more) || (Doomed(v) && v.io.more)
  }

  /** What brings the IO thread back to its wait, from any point. */
  function Return(v: Session): Act {
    if v.io.FinTry? then (if v.conn.lock || !v.io.more then IoStep else LockAct(v))
    else if (v.io.RespLock? || v.io.ReqLock?) && v.conn.lock then SubStep
    else Back(v.io)
  }

  function EndRank(io: IoPc): nat {
    match io
    case FinSend(_) => 7
    case FinRecv(_) => 6
    case FinClose(_) => 5
    case FinPut(_) => 4
    case FinDrain(_) => 3
    case FinDecide(_) => 2
    case _ => 1
  }

  function ReturnRank(v: Session): nat {
    if v.io == IoIdle then 0
    else if v.io.FinTry? then 120 + 2 * |v.sendq| + (if v.conn.lock then 0 else LockRank(v))
    else if Ending(v.io) then 100 + 2 * |v.sendq| + EndRank(v.io)
    else 7 * IoRank(v.io) + SubRank(v.sub)
  }

  predicate Returns(cfg: Config, v: Session) {
    var a := Return(v);
    && Honest(v, a) && Good(v, a) && !a.IoEvent? && (a.IoReqTop? ==> a.got.None?)
    && Next(cfg, v, a).Some?
    && var w := Next(cfg, v, a).value;
       ReturnRank(w) < ReturnRank(v) && !Committed(w)
  }

  lemma ReturnMoves(cfg: Config, v: Session)
    requires Inv(cfg, v) && v.io != IoIdle && !Committed(v)
    ensures Returns(cfg, v)
  {
    hide Inv, Serving, Returns;
    if v.io.FinTry? {
      ServedUntil(cfg, v);
      TryReturns(cfg, v);
    } else if Ending(v.io) {
      EndReturns(cfg, v);
    } else {
      ServedUntil(cfg, v);
      HandlerReturns(cfg, v);
    }
  }

  lemma TryReturns(cfg: Config, v: Session)
    requires Inv(cfg, v) && Serving(v) && v.io.FinTry? && !Committed(v)
    ensures Returns(cfg, v)
  {
    hide Next, Inv, Serving, Upstream, LockRank, IoNext, SubNext;
    if v.conn.lock {
      TryMoves(cfg, v);
    } else if v.io.more {
      LockMoves(cfg, v);
      RanksBelow(v);
      LockIsHonest(v);
    } else {
      TryTakes(cfg, v);
    }
  }

  lemma LockIsHonest(v: Session)
    ensures Stage(LockAct(v)) && Honest(v, LockAct(v)) && Good(v, LockAct(v))
  {
  }

  lemma TryTakes(cfg: Config, v: Session)
    requires v.io.FinTry? && !v.conn.lock
    ensures Next(cfg, v, IoStep) == Some(v.(io := FinSend(v.io.more), conn := v.conn.(lock := true)))
  {
  }

  lemma EndReturns(cfg: Config, v: Session)
    requires Ending(v.io) && !v.io.more
    ensures Returns(cfg, v)
  {
    hide Returns;
    if v.io.FinDrain? || v.io.FinPut? || v.io.FinDecide? {
      DrainReturns(cfg, v);
    } else {
      CloseReturns(cfg, v);
    }
  }

  lemma DrainReturns(cfg: Config, v: Session)
    requires (v.io.FinDrain? || v.io.FinPut? || v.io.FinDecide?) && !v.io.more
    ensures Returns(cfg, v)
  {
    hide Wrap64, Upstream, LockRank, SubNext, SendBytes, RecvBytes, RequestTop;
  }

  lemma CloseReturns(cfg: Config, v: Session)
    requires Ending(v.io) && !v.io.more && !v.io.FinDrain? && !v.io.FinPut? && !v.io.FinDecide?
    ensures Returns(cfg, v)
  {
    hide Wrap64, Upstream, LockRank, SubNext, SendBytes, RecvBytes, RequestTop;
  }

  lemma HandlerReturns(cfg: Config, v: Session)
    requires Inv(cfg, v) && Serving(v) && v.io != IoIdle && !v.io.FinTry? && !Ending(v.io)
    ensures Returns(cfg, v)
  {
    hide Next, Inv, Serving, Upstream, IoRank, SubRank, Back;
    RanksBelow(v);
    if (v.io.RespLock? || v.io.ReqLock?) && v.conn.lock {
      HeldBySubmitter(cfg, v);
      SubMoves(cfg, v);
      RanksBelow(Next(cfg, v, SubStep).value);
    } else {
      BackMoves(cfg, v);
      BackIsHonest(v);
      RanksBelow(Next(cfg, v, Back(v.io)).value);
    }
  }

  lemma HeldBySubmitter(cfg: Config, v: Session)
    requires Inv(cfg, v) && Serving(v) && (v.io.RespLock? || v.io.ReqLock?) && v.conn.lock
    ensures v.sub != SubIdle
  {
    hide Counts, Wakeups;
  }

  lemma BackIsHonest(v: Session)
    requires v.io != IoIdle && !Ending(v.io)
    ensures Honest(v, Back(v.io)) && Good(v, Back(v.io)) && !Back(v.io).IoEvent?
    ensures Back(v.io).IoReqTop? ==> Back(v.io).got.None?
  {
  }

  lemma RanksBelow(v: Session)
    ensures SubRank(v.sub) <= 6 && IoRank(v.io) <= 8
    ensures LockRank(v) > 0
  {
  }

  lemma ServedUntil(cfg: Config, v: Session)
    requires Inv(cfg, v) && v.io != IoIdle && !Ending(v.io)
    ensures Serving(v)
  {
    hide Shape, Wakeups;
  }

  /** Committed is for good. */
  lemma CommittedStays(cfg: Config, v: Session, a: Act)
    requires Inv(cfg, v) && Committed(v) && Honest(v, a) && Good(v, a) && Next(cfg, v, a).Some?
    ensures Committed(Next(cfg, v, a).value)
  {
    hide Inv, Serving, Next, Upstream;
    if Ending(v.io) && v.io.more {
      EndingStays(cfg, v, a);
    } else {
      DoomedServes(cfg, v);
      DoomedStarts(cfg, v, a);
    }
  }

  lemma DoomedServes(cfg: Config, v: Session)
    requires Inv(cfg, v) && Doomed(v)
    ensures Serving(v)
  {
    hide Shape, Wakeups;
  }

  lemma DoomedStarts(cfg: Config, v: Session, a: Act)
    requires Inv(cfg, v) && Serving(v) && Doomed(v) && Honest(v, a) && Next(cfg, v, a).Some?
    ensures Next(cfg, v, a).value.io == FinSend(v.io.more)
  {
    hide Wakeups, KernelAfter, SentSlice, TooFarAhead;
    assert OpenCounts(v);
  }

  lemma EndingStays(cfg: Config, v: Session, a: Act)
    requires Ending(v.io) && v.io.more && Honest(v, a) && Good(v, a) && Next(cfg, v, a).Some?
    ensures Ending(Next(cfg, v, a).value.io) && Next(cfg, v, a).value.io.more
  {
    hide Wrap64, KernelAfter, SentSlice, TooFarAhead, IoSize, Respond, IoNext, SubNext;
    if a.IoStep? {
      EndingMoves(v);
    } else if a.SubStep? {
      SubIo(v);
    }
  }

  lemma EndingMoves(v: Session)
    requires Ending(v.io) && v.io.more && IoNext(v).Some? && !v.io.FinUnlock? && !v.io.FinRelease?
    ensures Ending(IoNext(v).value.io) && IoNext(v).value.io.more
  {
    hide Wrap64;
  }

  lemma SubIo(v: Session)
    requires SubNext(v).Some?
    ensures SubNext(v).value.io == v.io
  {
    hide Wrap64, KernelAfter;
  }

  lemma AnsweredNow(cfg: Config, v: Session)
    requires Inv(cfg, v) && Faithful(cfg, v) && Serving(v) && v.conn.sent == v.conn.received
    ensures AllAnswered(v, v)
  {
    hide Wakeups, Framed, Sound, Reqs, Lay;
    assert v.send == [] && v.sendq == [] && v.shand == [] && Counted(v) == [];
    assert v.sin == [] && v.chand == [] && v.cin == [];
    OnlyAnswered(v.conn.hist.answered);
  }

  /** What the others do first does not matter. */
  lemma AnsweredAfter(v: Session, v': Session, w: Session)
    requires Beside(v, v') && AllAnswered(v', w)
    ensures AllAnswered(v, w)
  {
    hide Serving, Reqs;
  }

  // ---------------------------------------------------------------- what is finished can be released

  /** Steps of the compute thread and the submitter, as long as there are any. */
  function Work(v: Session): Act {
    if v.sub != SubIdle then SubStep
    else if v.sin != [] then SubTake
    else if v.comp != CompIdle then CompStep
    else CompTake
  }

  function SubWeight(sub: SubPc): nat { if sub == SubRecycle then 21 else SubRank(sub) }

  function WorkLeft(v: Session): nat {
    30 * |v.cin| + (if v.comp == CompWork then 29 else if v.comp == CompPut then 28 else 0) + 20 * |v.sin| +
    SubWeight(v.sub)
  }

  /** With the IO thread at its wait, it only gets less. */
  lemma WorkMoves(cfg: Config, v: Session)
    requires Inv(cfg, v) && v.io == IoIdle && InService(v) && WorkLeft(v) > 0
    ensures Next(cfg, v, Work(v)).Some? && Stage(Work(v))
    ensures var w := Next(cfg, v, Work(v)).value;
            w.io == IoIdle && WorkLeft(w) < WorkLeft(v) && w.conn.closed == v.conn.closed
  {
    hide Inv, Next;
    if v.sub != SubIdle || v.sin != [] {
      SubWorks(cfg, v);
    } else {
      CompWorks(cfg, v);
    }
  }

  lemma SubWorks(cfg: Config, v: Session)
    requires Inv(cfg, v) && v.io == IoIdle && InService(v) && (v.sub != SubIdle || v.sin != [])
    ensures Next(cfg, v, Work(v)).Some?
    ensures var w := Next(cfg, v, Work(v)).value;
            w.io == IoIdle && WorkLeft(w) < WorkLeft(v) && w.conn.closed == v.conn.closed
  {
    hide Wakeups, KernelAfter, Wrap64, IoNext, CompNext, Counts;
  }

  lemma CompWorks(cfg: Config, v: Session)
    requires Inv(cfg, v) && v.io == IoIdle && InService(v) && v.sub == SubIdle && v.sin == [] && WorkLeft(v) > 0
    ensures Next(cfg, v, Work(v)).Some?
    ensures var w := Next(cfg, v, Work(v)).value;
            w.io == IoIdle && WorkLeft(w) < WorkLeft(v) && w.conn.closed == v.conn.closed
  {
    hide Wakeups, IoNext, SubNext, Respond, Counts;
  }

  ghost predicate Reaches(cfg: Config, v: Session, w: Session) {
    (exists acts :: Path(cfg, v, acts) == Some(w) && Frugal(acts)) && Inv(cfg, w)
  }

  lemma {:induction false} Goes(cfg: Config, v: Session, u: Session, a: Act) returns (w: Session)
    requires ValidConfig(cfg) && Reaches(cfg, v, u) && Honest(u, a) && Good(u, a) && Spare(a) && Next(cfg, u, a).Some?
    ensures w == Next(cfg, u, a).value && Reaches(cfg, v, w)
  {
    hide Inv, Next, Path, Honest, Good;
    w := Next(cfg, u, a).value;
    var acts :| Path(cfg, v, acts) == Some(u) && Frugal(acts);
    PathStep(cfg, v, acts, u, a);
    StepInv(cfg, u, a);
    assert Path(cfg, v, acts + [a]) == Some(w) && Frugal(acts + [a]);
  }

  /** From any point, unless it is committed, the IO thread comes back to its wait. */
  lemma {:induction false} ComesBack(cfg: Config, v: Session, u: Session) returns (w: Session)
    requires ValidConfig(cfg) && Reaches(cfg, v, u) && !Committed(u)
    ensures Reaches(cfg, v, w) && w.io == IoIdle
    decreases ReturnRank(u)
  {
    hide Inv, Next, Path, Honest, Good, Committed, ReturnRank, Return;
    if u.io == IoIdle {
      w := u;
    } else {
      ReturnMoves(cfg, u);
      w := Goes(cfg, v, u, Return(u));
      w := ComesBack(cfg, v, w);
    }
  }

  lemma {:induction false} WorksOff(cfg: Config, v: Session, u: Session) returns (w: Session)
    requires ValidConfig(cfg) && Reaches(cfg, v, u) && u.io == IoIdle && (InService(u) ==> u.conn.closed)
    ensures Reaches(cfg, v, w) && Quiet(w)
    decreases WorkLeft(u)
  {
    hide Inv, Next, Path, WorkLeft, Work, Honest, Good;
    if InService(u) && WorkLeft(u) > 0 {
      WorkMoves(cfg, u);
      StageKeeps(cfg, u, Work(u));
      WorkIsSpare(u);
      w := Goes(cfg, v, u, Work(u));
      w := WorksOff(cfg, v, w);
    } else {
      NothingLeft(cfg, u);
      w := u;
    }
  }

  lemma WorkIsSpare(v: Session)
    ensures Spare(Work(v)) && Good(v, Work(v))
  {
  }

  lemma NothingLeft(cfg: Config, v: Session)
    requires Inv(cfg, v) && v.io == IoIdle && (InService(v) ==> v.conn.closed && WorkLeft(v) == 0)
    ensures Quiet(v)
  {
    hide Wakeups;
  }

  lemma {:induction false} PathFinished(cfg: Config, v: Session, acts: seq<Act>, p: nat, r: nat, stuck: bool)
    requires ValidConfig(cfg) && Inv(cfg, v) && FinishedFrom(v, p, r, stuck) && Path(cfg, v, acts).Some?
    ensures Inv(cfg, Path(cfg, v, acts).value) && FinishedFrom(Path(cfg, v, acts).value, p, r, stuck)
  {
    hide Inv, Next, Good, FinishedFrom, Honest;
    if acts != [] {
      var u, a := Path(cfg, v, acts[..|acts| - 1]).value, acts[|acts| - 1];
      PathFinished(cfg, v, acts[..|acts| - 1], p, r, stuck);
      Accepts(u, a);
      StepInv(cfg, u, a);
      StepFinished(cfg, u, a, p, r, stuck);
    }
  }

  ghost predicate CanRelease(cfg: Config, v: Session) {
    exists acts :: Path(cfg, v, acts).Some? && Path(cfg, v, acts).value.nfree > 0
  }

  /** From the moment finish_connection has the lock, in an event that ends with
      it: the threads can go on until the connection is back on the free list, if
      and only if it found sendbuf NULL, or processed fewer than received. */
  lemma {:induction false} ReleaseExact(cfg: Config, v: Session)
    requires ValidConfig(cfg) && Reachable(cfg, v) && v.io.FinSend? && !v.io.more
    ensures CanRelease(cfg, v) <==> v.conn.sendbuf.None? || v.conn.processed < v.conn.received
  {
    hide Reachable, Next, Inv, Faithful, Path, FinishedFrom;
    ReachableKeeps(cfg, v);
    var p, r, stuck := v.conn.processed, v.conn.received, v.conn.sendbuf.Some?;
    FinishStarts(cfg, v);
    if CanRelease(cfg, v) {
      var acts :| Path(cfg, v, acts).Some? && Path(cfg, v, acts).value.nfree > 0;
      PathFinished(cfg, v, acts, p, r, stuck);
      ReleasedFrom(cfg, Path(cfg, v, acts).value, p, r, stuck);
    }
    if !(stuck && p == r) {
      var w := ComesBack(cfg, v, v);
      AfterFinish(cfg, v, w);
      w := WorksOff(cfg, v, w);
      var acts :| Path(cfg, v, acts) == Some(w) && Frugal(acts);
      PathFinished(cfg, v, acts, p, r, stuck);
      QuietReleased(cfg, w, p, r, stuck);
    }
  }

  lemma FinishStarts(cfg: Config, v: Session)
    requires Inv(cfg, v) && v.io.FinSend? && !v.io.more
    ensures FinishedFrom(v, v.conn.processed, v.conn.received, v.conn.sendbuf.Some?)
    ensures v.conn.processed <= v.conn.received && Reaches(cfg, v, v) && !Committed(v)
  {
    hide Shape, Wakeups;
    assert Path(cfg, v, []) == Some(v) && Frugal([]);
  }

  lemma ReleasedFrom(cfg: Config, w: Session, p: nat, r: nat, stuck: bool)
    requires FinishedFrom(w, p, r, stuck) && w.nfree > 0
    ensures !(stuck && p == r)
  {
  }

  lemma AfterFinish(cfg: Config, v: Session, w: Session)
    requires ValidConfig(cfg) && Inv(cfg, v) && Reaches(cfg, v, w) && w.io == IoIdle
    requires FinishedFrom(v, v.conn.processed, v.conn.received, v.conn.sendbuf.Some?)
    ensures InService(w) ==> w.conn.closed
  {
    hide Inv, Path;
    var acts :| Path(cfg, v, acts) == Some(w) && Frugal(acts);
    PathFinished(cfg, v, acts, v.conn.processed, v.conn.received, v.conn.sendbuf.Some?);
  }

  lemma QuietReleased(cfg: Config, w: Session, p: nat, r: nat, stuck: bool)
    requires Inv(cfg, w) && Quiet(w) && FinishedFrom(w, p, r, stuck) && !(stuck && p == r)
    ensures w.nfree > 0
  {
    hide Wakeups;
  }
}
