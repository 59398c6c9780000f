/** What holds of a connection in every state that any interleaving of its
    threads can reach, and of whole runs.
 */
module SessionTheorems {
  import opened Rpc
  import opened Epoll
  import opened SessionProtocol
  import opened SessionInvariant
  import opened SessionHistory

  /** A connection on the free list, its fields never written. */
  predicate Initial(v: Session) {
    v.nfree == 1 && !v.accepting && Quiet(v) && v.conn.kernel.None?
  }

  ghost predicate Run(cfg: Config, vs: seq<Session>, acts: seq<Act>) {
    && |vs| == |acts| + 1
    && forall i :: 0 <= i < |acts| ==> Good(vs[i], acts[i]) && Next(cfg, vs[i], acts[i]) == Some(vs[i + 1])
  }

  ghost predicate Reachable(cfg: Config, v: Session) {
    exists vs, acts :: Run(cfg, vs, acts) && Initial(vs[0]) && v == vs[|acts|]
  }

  lemma {:induction false} RunKeeps(cfg: Config, vs: seq<Session>, acts: seq<Act>, n: nat)
    requires ValidConfig(cfg) && Run(cfg, vs, acts) && n <= |acts|
    requires Inv(cfg, vs[0]) && Faithful(cfg, vs[0])
    ensures Inv(cfg, vs[n]) && Faithful(cfg, vs[n])
  {
    hide Inv, Faithful, Next, Good;
    if n > 0 {
      RunKeeps(cfg, vs, acts, n - 1);
      assert Good(vs[n - 1], acts[n - 1]) && Next(cfg, vs[n - 1], acts[n - 1]) == Some(vs[n - 1 + 1]);
      StepInv(cfg, vs[n - 1], acts[n - 1]);
      StepFaithful(cfg, vs[n - 1], acts[n - 1]);
    }
  }

  lemma ReachableKeeps(cfg: Config, v: Session)
    requires ValidConfig(cfg) && Reachable(cfg, v)
    ensures Inv(cfg, v) && Faithful(cfg, v)
  {
    var vs, acts :| Run(cfg, vs, acts) && Initial(vs[0]) && v == vs[|acts|];
    InitInv(cfg, vs[0]);
    RunKeeps(cfg, vs, acts, |acts|);
  }

  // ---------------------------------------------------------------- counters

  /** While a connection is served, its counters count its buffers: received
      minus processed, those of the compute and submit stages; processed minus
      sent, those on their way out. */
  lemma {:induction false} CounterAccounting(cfg: Config, v: Session)
    requires ValidConfig(cfg) && Reachable(cfg, v) && Serving(v)
    ensures v.conn.sent <= v.conn.processed <= v.conn.received
    ensures v.conn.received - v.conn.processed ==
            |Counted(v)| + |v.cin| + |v.chand| + |v.sin| + (if v.sub == SubQueue then 0 else |v.shand|)
    ensures v.conn.processed - v.conn.sent ==
            |v.sendq| + |v.send| + (if v.sub == SubQueue then |v.shand| else 0)
  {
    ReachableKeeps(cfg, v);
  }

  /** No unsigned subtraction wraps, and the stored 64-bit counters compare as
      the counts do. */
  lemma {:induction false} ReadaheadBound(cfg: Config, v: Session)
    requires ValidConfig(cfg) && Reachable(cfg, v) && InService(v)
    ensures v.conn.sent <= v.conn.received
    ensures v.conn.received - v.conn.sent + |v.recv| <= cfg.readahead + 1
    ensures TooFarAhead(cfg, v.conn) <==> v.conn.received - v.conn.sent > cfg.readahead
  {
    ReachableKeeps(cfg, v);
    HeadRoom(cfg, v);
  }

  // ---------------------------------------------------------------- wakeups

  /** With the lock free, a pending response implies EPOLLOUT; and unless the
      IO thread is between its count and its recheck, EPOLLOUT implies a
      pending response. The kernel holds the same mask, EPOLLIN with it. */
  lemma {:induction false} NoLostWakeup(cfg: Config, v: Session)
    requires ValidConfig(cfg) && Reachable(cfg, v) && Serving(v) && !v.conn.lock
    ensures v.conn.kernel == Some(v.conn.epoll) && v.conn.epoll.rd
    ensures v.conn.processed != v.conn.sent ==> v.conn.epoll.wr
    ensures !v.io.RespPut? && !v.io.RespLock? ==>
              (v.conn.epoll.wr <==> v.conn.processed != v.conn.sent)
  {
    ReachableKeeps(cfg, v);
  }

  /** While the descriptor is open the kernel holds the cached mask, whoever has
      the lock, and EPOLLIN is in it. */
  lemma {:induction false} EpollMirror(cfg: Config, v: Session)
    requires ValidConfig(cfg) && Reachable(cfg, v) && InService(v)
    ensures v.conn.kernel.Some? <==> !v.conn.closed && !FdGone(v.io)
    ensures v.conn.kernel.Some? ==> Mirrors(v.conn.epoll, v.conn.kernel) && v.conn.epoll.rd
  {
    ReachableKeeps(cfg, v);
  }

  /** The epoll_ctl call that the submitter or the recheck makes, if any, is one
      the kernel accepts: MOD of a registered descriptor, never ADD or DEL. */
  lemma {:induction false} EpollCallsFit(cfg: Config, v: Session, a: Act, mask: Interest)
    requires ValidConfig(cfg) && Reachable(cfg, v) && Next(cfg, v, a).Some?
    requires || (a == SubStep && v.sub == SubArm && mask == v.conn.epoll.(wr := true))
             || (a == IoStep && v.io.RespCheck? && mask == v.conn.epoll.(wr := false))
    ensures OpFor(v.conn.epoll, mask) in {None, Some(Mod)} && v.conn.kernel.Some?
    ensures Mirrors(mask, KernelAfter(v.conn.epoll, v.conn.kernel, mask))
  {
    ReachableKeeps(cfg, v);
  }

  // ---------------------------------------------------------------- teardown

  /** A connection on the free list, or in the accept thread's hand, is
      referred to by no buffer and no thread; so the lock that accept resets is
      one nobody will release. */
  lemma {:induction false} SafeTeardown(cfg: Config, v: Session)
    requires ValidConfig(cfg) && Reachable(cfg, v) && (v.nfree > 0 || v.accepting)
    ensures Quiet(v) && v.nfree + Ones(v.accepting) == 1
    ensures !IoHolds(v.io) && !SubHolds(v.sub)
  {
    ReachableKeeps(cfg, v);
  }

  lemma ReleasingSteps(cfg: Config, v: Session, a: Act)
    requires Next(cfg, v, a).Some? && Next(cfg, v, a).value.nfree > v.nfree
    ensures (a == IoStep && v.io.FinRelease?) || (a == SubStep && v.sub.SubRelease?)
  {
  }

  /** Only a closed connection is released, at a step that leaves nothing
      behind, and never while it is on the list already. */
  lemma {:induction false} ReleaseOnlyOnce(cfg: Config, v: Session, a: Act)
    requires ValidConfig(cfg) && Reachable(cfg, v) && Good(v, a) && Next(cfg, v, a).Some?
    requires Next(cfg, v, a).value.nfree > v.nfree
    ensures v.nfree == 0 && v.conn.closed && Quiet(Next(cfg, v, a).value)
  {
    ReachableKeeps(cfg, v);
    ReleasingSteps(cfg, v, a);
    StepInv(cfg, v, a);
  }

  /** What finish_connection decides is settled when it gets the lock: until it
      lets go, no other thread touches the counters it compares. */
  predicate Finishing(io: IoPc) { io.FinSend? || SendGone(io) }

  /** How a finish that began with `p` processed, `r` received and `stuck`
      (sendbuf set) stands, up to the next accept. */
  predicate FinishedFrom(v: Session, p: nat, r: nat, stuck: bool) {
    && v.conn.received == r && v.conn.sendbuf.Some? == stuck && !v.accepting
    && (!v.conn.closed ==> InService(v) && Finishing(v.io) && v.conn.processed == p)
    && (v.conn.closed ==> v.conn.sent + Ones(stuck) == p)
    && (v.nfree > 0 ==> !(stuck && p == r))
  }

  lemma StepFinished(cfg: Config, v: Session, a: Act, p: nat, r: nat, stuck: bool)
    requires ValidConfig(cfg) && Inv(cfg, v) && Good(v, a) && Next(cfg, v, a).Some? && !a.AcceptTake?
    requires FinishedFrom(v, p, r, stuck)
    ensures FinishedFrom(Next(cfg, v, a).value, p, r, stuck)
  {
    hide Wrap64, Sub64, Wakeups, Respond, KernelAfter, IoNext, SubNext, CompNext;
    match a
    case IoStep => IoFinished(cfg, v, p, r, stuck);
    case SubStep => SubFinished(cfg, v, p, r, stuck);
    case CompStep => CompFinished(cfg, v);
    case _ =>
  }

  lemma CompFinished(cfg: Config, v: Session)
    requires CompNext(cfg, v).Some?
    ensures var w := CompNext(cfg, v).value;
            w.conn == v.conn && w.io == v.io && w.nfree == v.nfree && w.accepting == v.accepting
  {
    hide Respond;
  }

  lemma IoFinished(cfg: Config, v: Session, p: nat, r: nat, stuck: bool)
    requires Inv(cfg, v) && IoNext(v).Some? && (v.io.FinUnlock? || v.io.FinRelease? ==> !v.io.more)
    requires FinishedFrom(v, p, r, stuck)
    ensures FinishedFrom(IoNext(v).value, p, r, stuck)
  {
    hide Wrap64, Wakeups, KernelAfter;
  }

  lemma SubFinished(cfg: Config, v: Session, p: nat, r: nat, stuck: bool)
    requires Inv(cfg, v) && SubNext(v).Some? && FinishedFrom(v, p, r, stuck)
    ensures FinishedFrom(SubNext(v).value, p, r, stuck)
  {
    hide Wrap64, Wakeups, KernelAfter;
  }

  lemma {:induction false} RunFinished(cfg: Config, vs: seq<Session>, acts: seq<Act>, p: nat, r: nat, stuck: bool,
                                       n: nat)
    requires ValidConfig(cfg) && Run(cfg, vs, acts) && n <= |acts|
    requires Inv(cfg, vs[0]) && FinishedFrom(vs[0], p, r, stuck)
    requires AcceptTake !in acts
    ensures Inv(cfg, vs[n]) && FinishedFrom(vs[n], p, r, stuck)
  {
    hide Next, Good, Inv, FinishedFrom;
    if n > 0 {
      RunFinished(cfg, vs, acts, p, r, stuck, n - 1);
      assert Good(vs[n - 1], acts[n - 1]) && Next(cfg, vs[n - 1], acts[n - 1]) == Some(vs[n]);
      StepInv(cfg, vs[n - 1], acts[n - 1]);
      StepFinished(cfg, vs[n - 1], acts[n - 1], p, r, stuck);
    }
  }

  /** Exactly-once release. Take any run that starts where finish_connection
      has just got the lock and ends, before the connection is taken again,
      with nothing of it left in the pipeline. The connection has been released
      if and only if, at the start, sendbuf was NULL or processed was behind
      received. */
  lemma {:induction false} ReleasedIff(cfg: Config, vs: seq<Session>, acts: seq<Act>)
    requires ValidConfig(cfg) && Run(cfg, vs, acts) && Reachable(cfg, vs[0])
    requires vs[0].io.FinSend? && AcceptTake !in acts && Quiet(vs[|acts|])
    ensures vs[|acts|].nfree == 1 <==> vs[0].conn.sendbuf.None? || vs[0].conn.processed < vs[0].conn.received
  {
    var v, w := vs[0], vs[|acts|];
    ReachableKeeps(cfg, v);
    RunFinished(cfg, vs, acts, v.conn.processed, v.conn.received, v.conn.sendbuf.Some?, |acts|);
  }

  /** In the remaining case the connection is lost: no step of any thread is
      possible for it any more. */
  lemma {:induction false} StrandedForever(cfg: Config, v: Session, a: Act)
    requires ValidConfig(cfg) && Reachable(cfg, v)
    requires v.conn.closed && InService(v) && Quiet(v)
    ensures Stranded(v) && Next(cfg, v, a).None?
  {
    ReachableKeeps(cfg, v);
  }

  // ---------------------------------------------------------------- messages

  /** Requests and responses. Every response sent answers its own request;
      requests are answered at most once; and while no trylock has failed for
      the connection they are answered in the order they were received. */
  lemma {:induction false} PerConnectionOrder(cfg: Config, v: Session)
    requires ValidConfig(cfg) && Reachable(cfg, v) && Serving(v)
    ensures Replied(cfg, v.conn.hist.answered)
    ensures multiset(Reqs(v.conn.hist.answered)) <= multiset(v.conn.hist.delivered)
    ensures multiset(v.conn.hist.delivered) == multiset(Line(v))
    ensures !v.conn.hist.recycled ==>
              v.conn.hist.delivered == Line(v) && Reqs(v.conn.hist.answered) <= v.conn.hist.delivered
  {
    ReachableKeeps(cfg, v);
    AnsweredFirst(v.conn.hist.answered, v.send, v.sendq, v.shand, v.sin, v.chand, v.cin, Counted(v));
  }

  lemma AnsweredFirst(a: seq<Item>, s: seq<Item>, q: seq<Item>, h: seq<Item>, n: seq<Item>, c: seq<Item>,
                      i: seq<Item>, k: seq<Item>)
    ensures Reqs(a) <= Lay(a, s, q, h, n, c, i, k)
    ensures multiset(Reqs(a)) <= multiset(Lay(a, s, q, h, n, c, i, k))
  {
    hide Reqs;
    FrontOf(Reqs(a), Reqs(s), Reqs(q) + Reqs(h) + Reqs(n) + Reqs(c) + Reqs(i) + Reqs(k));
    Regroup(Reqs(a), Reqs(s), Reqs(q), Reqs(h), Reqs(n), Reqs(c), Reqs(i), Reqs(k));
  }

  lemma FrontOf(a: seq<Bytes>, b: seq<Bytes>, c: seq<Bytes>)
    ensures a <= a + b + c && multiset(a) <= multiset(a + b + c)
  {
  }

  lemma Regroup(a: seq<Bytes>, s: seq<Bytes>, q: seq<Bytes>, h: seq<Bytes>, n: seq<Bytes>, c: seq<Bytes>,
                i: seq<Bytes>, k: seq<Bytes>)
    ensures a + s + q + h + n + c + i + k == a + s + (q + h + n + c + i + k)
  {
  }

  /** Framing does not depend on how the socket cuts the stream: however the
      bytes received so far are read as whole messages and a partial one, those
      messages are the requests delivered, with the one that is complete and
      waits for the lock. */
  lemma {:induction false} FramingByCut(cfg: Config, v: Session, msgs: seq<Bytes>, partial: Bytes)
    requires ValidConfig(cfg) && Reachable(cfg, v) && Serving(v)
    requires AllSized(msgs, 1024) && |partial| < 1024
    requires v.conn.hist.rx == Flat(msgs) + partial
    ensures v.io.ReqLock? || v.io.ReqCount? ==>
              v.recv != [] && msgs == v.conn.hist.delivered + [v.recv[0].req]
    ensures !v.io.ReqLock? && !v.io.ReqCount? ==> msgs == v.conn.hist.delivered && partial == PartialRequest(v)
  {
    hide Flat, Reachable, Sound, InLine;
    ReachableKeeps(cfg, v);
    var d := v.conn.hist.delivered;
    if v.io.ReqLock? || v.io.ReqCount? {
      var d' := d + [v.recv[0].req];
      FlatSnoc(d, v.recv[0].req);
      assert Flat(d') + [] == v.conn.hist.rx;
      CutUnique(d', [], msgs, partial, REQUEST_SIZE);
      CutUnique(msgs, partial, d', [], REQUEST_SIZE);
    } else {
      CutUnique(d, PartialRequest(v), msgs, partial, REQUEST_SIZE);
      CutUnique(msgs, partial, d, PartialRequest(v), REQUEST_SIZE);
      assert msgs == d;
      assert partial == v.conn.hist.rx[|Flat(d)|..] == PartialRequest(v);
    }
  }

  /** The bytes sent are the responses counted in `sent`, whole, and the first
      part of the next: a short send never drops or repeats a byte. */
  lemma {:induction false} SentStream(cfg: Config, v: Session)
    requires ValidConfig(cfg) && Reachable(cfg, v) && Serving(v)
    ensures |v.conn.hist.answered| == v.conn.sent
    ensures v.conn.hist.tx == Flat(Ress(v.conn.hist.answered)) + PartialResponse(v)
    ensures AllSized(Ress(v.conn.hist.answered), 24)
    ensures |PartialResponse(v)| < 24
    ensures v.conn.sendbuf.Some? <==> v.send != []
    ensures v.send != [] ==> 0 < v.send[0].left && PartialResponse(v) < Respond(cfg, v.send[0].req)
  {
    ReachableKeeps(cfg, v);
    var ans := v.conn.hist.answered;
    forall i | 0 <= i < |ans| ensures |ans[i].res| == RESPONSE_SIZE {
      ReplySize(cfg, ans[i]);
    }
    if v.send != [] {
      ReplySize(cfg, v.send[0]);
    }
  }

  /** A call asks for no more than max_io_size, nor for bytes beyond the message at
      hand, of 1024 or 24 bytes; and it may come to any number up to that. */
  lemma {:induction false} CallSizes(cfg: Config, v: Session, bytes: Bytes, n: nat)
    requires ValidConfig(cfg) && Reachable(cfg, v) && Serving(v)
    ensures Next(cfg, v, IoRecv(bytes)).Some? <==>
            v.io == ReqRecv && 0 < |bytes| <= cfg.maxIoSize && |PartialRequest(v)| + |bytes| <= 1024
    ensures Next(cfg, v, IoSend(n)).Some? <==>
            v.io.RespSend? && n <= cfg.maxIoSize && |PartialResponse(v)| + n <= 24
  {
    hide Reachable, Inv, Faithful;
    ReachableKeeps(cfg, v);
    Attached(cfg, v);
  }

  lemma Attached(cfg: Config, v: Session)
    requires ValidConfig(cfg) && Inv(cfg, v) && Faithful(cfg, v) && Serving(v)
    ensures v.io == ReqRecv ==> v.recv != [] && |PartialRequest(v)| + v.recv[0].left == 1024
    ensures v.io.RespSend? ==> v.send != [] && |PartialResponse(v)| + v.send[0].left == 24
  {
    hide Counts, Wakeups, InLine;
    if v.send != [] {
      ReplySize(cfg, v.send[0]);
    }
  }

  // ---------------------------------------------------------------- the recycled mark

  /** A submitter finds the lock held. */
  predicate TryFails(v: Session, a: Act) { a == SubStep && v.sub == SubTry && v.conn.lock }

  predicate Marked(v: Session) { v.conn.hist.recycled || v.sub == SubRecycle }

  lemma MarkStep(cfg: Config, v: Session, a: Act)
    requires Next(cfg, v, a).Some? && !a.AcceptServe?
    ensures Marked(Next(cfg, v, a).value) <==> Marked(v) || TryFails(v, a)
  {
    hide Wrap64, KernelAfter, SentSlice, TooFarAhead, IoSize, Respond, IoNext, SubNext;
    if a.IoStep? {
      IoMark(v);
    } else if a.SubStep? {
      SubMark(v);
    }
  }

  lemma IoMark(v: Session)
    requires IoNext(v).Some?
    ensures Marked(IoNext(v).value) == Marked(v)
  {
    hide IoNext;
    IoHistory(v);
    IoLeaves(v);
  }

  lemma IoLeaves(v: Session)
    requires IoNext(v).Some?
    ensures IoNext(v).value.sub == v.sub
  {
    hide Wrap64, KernelAfter, AfterResponse;
  }

  lemma SubMark(v: Session)
    requires SubNext(v).Some?
    ensures Marked(SubNext(v).value) <==> Marked(v) || TryFails(v, SubStep)
  {
    hide Wrap64, KernelAfter;
  }

  /** The mark means that a trylock has failed for the connection since it was
      accepted, and nothing else. */
  lemma {:induction false} MarkedIff(cfg: Config, vs: seq<Session>, acts: seq<Act>, n: nat)
    requires Run(cfg, vs, acts) && n <= |acts| && !Marked(vs[0])
    requires forall i :: 0 <= i < |acts| ==> !acts[i].AcceptServe?
    ensures Marked(vs[n]) <==> exists i :: 0 <= i < n && TryFails(vs[i], acts[i])
  {
    hide Next, Good, Marked, TryFails;
    if n > 0 {
      MarkedIff(cfg, vs, acts, n - 1);
      assert Next(cfg, vs[n - 1], acts[n - 1]) == Some(vs[n - 1 + 1]);
      MarkStep(cfg, vs[n - 1], acts[n - 1]);
    }
  }
}
