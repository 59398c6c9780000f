/** The server: many connections over shared queues, threads and buffers
    (src/server/main.c, compute.c, io/io.c, io/submit.c, io/accept.c).

    Buffers and connections are numbered, as the pointers of the C program are
    only compared and followed. Each place that can hold buffers is a sequence;
    a buffer field of a connection keeps its C value beside that, so that a
    pointer to a buffer already given away can be told from a live one.
    Threads are numbered within their group; the n-th compute thread reads only
    the n-th compute inbox, and the same for submitters.
 */
module ServerMachine {
  import opened Rpc
  import opened Epoll
  import S = SessionProtocol

  type Buf = nat
  type ConnId = nat
  type Tid = nat

  datatype Place =
    | Pool
    | ComputeInbox(n: nat) | ComputeHand(n: nat)
    | SubmitInbox(n: nat) | SubmitHand(n: nat)
    | IoHand(n: nat)
    | SendQueue(c: ConnId) | RecvSlot(c: ConnId) | SendSlot(c: ConnId)

  /** struct server_buffer_t: `conn` is the pointer the later stages follow. */
  datatype Buffer = Buffer(conn: ConnId, req: Bytes, res: Bytes, left: nat)

  /** A thread and the connection in its local variable. */
  datatype IoThread = IoThread(conn: ConnId, pc: S.IoPc)
  datatype CompThread = CompThread(conn: ConnId, pc: S.CompPc)
  datatype SubThread = SubThread(conn: ConnId, pc: S.SubPc)

  datatype Server = Server(
    at: map<Place, seq<Buf>>,
    bufs: map<Buf, Buffer>,
    conns: map<ConnId, S.Conn>,
    free: seq<ConnId>,
    accepting: Option<ConnId>,
    io: map<Tid, IoThread>, comp: map<Tid, CompThread>, sub: map<Tid, SubThread>)

  /** One step: thread `t` (of the group that the act belongs to) working for
      connection `c`. */
  datatype Move = Move(t: Tid, c: ConnId, a: S.Act)

  // ---------------------------------------------------------------- reading the state

  function At(s: Server, p: Place): seq<Buf> { if p in s.at then s.at[p] else [] }
  function Io(s: Server, t: Tid): IoThread { if t in s.io then s.io[t] else IoThread(0, S.IoIdle) }
  function Comp(s: Server, t: Tid): CompThread { if t in s.comp then s.comp[t] else CompThread(0, S.CompIdle) }
  function Sub(s: Server, t: Tid): SubThread { if t in s.sub then s.sub[t] else SubThread(0, S.SubIdle) }

  function BufferOf(s: Server, b: Buf): Buffer { if b in s.bufs then s.bufs[b] else Buffer(0, [], [], 0) }

  function ItemOf(b: Buf, x: Buffer): S.Item { S.Item(b, x.req, x.res, x.left) }
  function BufferFrom(c: ConnId, it: S.Item): Buffer { Buffer(c, it.req, it.res, it.left) }

  // ---------------------------------------------------------------- writing the state

  function PutIo(s: Server, t: Tid, c: ConnId, pc: S.IoPc): Server { s.(io := s.io[t := IoThread(c, pc)]) }
  function PutComp(s: Server, t: Tid, c: ConnId, pc: S.CompPc): Server { s.(comp := s.comp[t := CompThread(c, pc)]) }
  function PutSub(s: Server, t: Tid, c: ConnId, pc: S.SubPc): Server { s.(sub := s.sub[t := SubThread(c, pc)]) }
  function PutConn(s: Server, c: ConnId, k: S.Conn): Server { s.(conns := s.conns[c := k]) }
  function PutBuf(s: Server, b: Buf, x: Buffer): Server { s.(bufs := s.bufs[b := x]) }

  /** queue_get from one place and queue_put to another. */
  function Shift(s: Server, p: Place, q: Place): Server
    requires At(s, p) != [] && p != q
  {
    s.(at := s.at[p := At(s, p)[1..]][q := At(s, q) + [At(s, p)[0]]])
  }

  /** queue_put of the buffer a field points at, whatever the field owns. */
  function Release(s: Server, slot: Place, q: Place, b: Buf): Server
    requires slot != q
  {
    s.(at := s.at[slot := []][q := At(s, q) + [b]])
  }

  // ---------------------------------------------------------------- the step function

  function Next(cfg: Config, s: Server, m: Move): Option<Server> {
    var (t, c) := (m.t, m.c);
    if c !in s.conns then None else
    match m.a
    case AcceptTake =>
      if s.accepting == None && s.free != [] && s.free[0] == c then
        Some(s.(free := s.free[1..], accepting := Some(c)))
      else None
    case AcceptServe(i, k, n) =>
      if s.accepting == Some(c) then
        Some(PutConn(s, c, S.Accepted(s.conns[c], i, k, n)).(accepting := None, at := s.at[SendQueue(c) := []]))
      else None
    case IoEvent(err, out, inp) =>
      if Io(s, t).pc != S.IoIdle || s.conns[c].ioidx != t || s.conns[c].kernel.None? then None
      else Some(PutIo(s, t, c, if err then S.FinTry(false) else if out then S.RespTop(inp)
                               else S.AfterResponse(inp)))
    case CompTake =>
      var q := At(s, ComputeInbox(t));
      if Comp(s, t).pc == S.CompIdle && q != [] && BufferOf(s, q[0]).conn == c then
        Some(PutComp(Shift(s, ComputeInbox(t), ComputeHand(t)), t, c, S.CompWork))
      else None
    case CompStep => if Comp(s, t).conn == c then CompNext(cfg, s, t, c) else None
    case SubTake =>
      var q := At(s, SubmitInbox(t));
      if Sub(s, t).pc == S.SubIdle && q != [] && BufferOf(s, q[0]).conn == c then
        Some(PutSub(Shift(s, SubmitInbox(t), SubmitHand(t)), t, c, S.SubTry))
      else None
    case SubStep => if Sub(s, t).conn == c then SubNext(s, t, c) else None
    case _ => if Io(s, t).conn == c then Handler(cfg, s, t, c, m.a) else None
  }

  /** The IO thread inside handle_request, handle_response or
      finish_connection. */
  function Handler(cfg: Config, s: Server, t: Tid, c: ConnId, a: S.Act): Option<Server>
    requires c in s.conns
  {
    var pc := Io(s, t).pc;
    match a
    case IoRecv(bytes) => if pc == S.ReqRecv then RecvBytes(cfg, s, t, c, bytes) else None
    case IoRecvAgain => if pc == S.ReqRecv then Some(PutIo(s, t, c, S.IoIdle)) else None
    case IoRecvFail => if pc == S.ReqRecv then Some(PutIo(s, t, c, S.FinTry(false))) else None
    case IoSend(n) => if pc.RespSend? then SendBytes(cfg, s, t, c, n) else None
    case IoSendAgain => if pc.RespSend? then Some(PutIo(s, t, c, S.AfterResponse(pc.more))) else None
    case IoSendFail => if pc.RespSend? then Some(PutIo(s, t, c, S.FinTry(pc.more))) else None
    case IoReqTop(got) => if pc == S.ReqTop then RequestTop(cfg, s, t, c, got) else None
    case IoStep => IoNext(s, t, c)
    case _ => None
  }

  function RecvBytes(cfg: Config, s: Server, t: Tid, c: ConnId, bytes: Bytes): Option<Server>
    requires c in s.conns
  {
    var k := s.conns[c];
    if k.recvbuf.None? then None else
    var it := ItemOf(k.recvbuf.value, BufferOf(s, k.recvbuf.value));
    if 0 < |bytes| <= S.IoSize(cfg, it) then
      var it' := S.ReceivedInto(it, bytes);
      Some(PutIo(PutConn(PutBuf(s, it.id, BufferFrom(BufferOf(s, it.id).conn, it')), c,
                         k.(hist := k.hist.(rx := k.hist.rx + bytes))), t, c,
                 if it'.left == 0 then S.ReqLock else S.ReqTop))
    else None
  }

  function SendBytes(cfg: Config, s: Server, t: Tid, c: ConnId, n: nat): Option<Server>
    requires c in s.conns && Io(s, t).pc.RespSend?
  {
    var (k, more) := (s.conns[c], Io(s, t).pc.more);
    if k.sendbuf.None? then None else
    var it := ItemOf(k.sendbuf.value, BufferOf(s, k.sendbuf.value));
    if n <= S.IoSize(cfg, it) then
      var h := k.hist.(tx := k.hist.tx + S.SentSlice(it, n));
      var it' := it.(left := it.left - n);
      var s' := PutBuf(s, it.id, BufferFrom(BufferOf(s, it.id).conn, it'));
      if n < S.IoSize(cfg, it) then
        Some(PutIo(PutConn(s', c, k.(hist := h)), t, c, S.AfterResponse(more)))
      else if it'.left > 0 then
        Some(PutIo(PutConn(s', c, k.(hist := h)), t, c, S.RespTop(more)))
      else
        Some(PutIo(PutConn(Release(s', SendSlot(c), IoHand(t), it.id), c,
                           k.(sent := k.sent + 1, sendbuf := None,
                              hist := h.(answered := h.answered + [it']))), t, c, S.RespPut(more)))
    else None
  }

  function RequestTop(cfg: Config, s: Server, t: Tid, c: ConnId, got: Option<nat>): Option<Server>
    requires c in s.conns
  {
    var (k, pool) := (s.conns[c], At(s, Pool));
    if k.recvbuf.Some? then Some(PutIo(s, t, c, S.ReqRecv))
    else if S.TooFarAhead(cfg, k) || got.None? then Some(PutIo(s, t, c, S.IoIdle))
    else if pool != [] && got.value == pool[0] then
      Some(PutIo(PutConn(PutBuf(Shift(s, Pool, RecvSlot(c)), pool[0], Buffer(c, [], [], REQUEST_SIZE)), c,
                         k.(recvbuf := Some(pool[0]))), t, c, S.ReqRecv))
    else None
  }

  function IoNext(s: Server, t: Tid, c: ConnId): Option<Server>
    requires c in s.conns
  {
    var (k, hand) := (s.conns[c], At(s, IoHand(t)));
    match Io(s, t).pc
    case RespTop(m) =>
      var q := At(s, SendQueue(c));
      if k.sendbuf.Some? then Some(PutIo(s, t, c, S.RespSend(m)))
      else if q == [] then Some(PutIo(s, t, c, S.AfterResponse(m)))
      else
        Some(PutIo(PutConn(PutBuf(Shift(s, SendQueue(c), SendSlot(c)), q[0],
                                  BufferOf(s, q[0]).(conn := c, left := RESPONSE_SIZE)), c,
                           k.(sendbuf := Some(q[0]))), t, c, S.RespSend(m)))
    case RespPut(m) =>
      if hand == [] then None else Some(PutIo(Shift(s, IoHand(t), Pool), t, c, S.RespLock(m)))
    case RespLock(m) =>
      if k.lock then None else Some(PutIo(PutConn(s, c, k.(lock := true)), t, c, S.RespCheck(m)))
    case RespCheck(m) =>
      var k' := if Wrap64(k.processed) == Wrap64(k.sent) then S.SetEpoll(k, k.epoll.(wr := false)) else k;
      Some(PutIo(PutConn(s, c, k'), t, c, S.RespUnlock(m)))
    case RespUnlock(m) => Some(PutIo(PutConn(s, c, k.(lock := false)), t, c, S.RespTop(m)))
    case ReqLock => if k.lock then None else Some(PutIo(PutConn(s, c, k.(lock := true)), t, c, S.ReqCount))
    case ReqCount =>
      if k.recvbuf.None? then None else
      var b := k.recvbuf.value;
      Some(PutIo(PutConn(Release(s, RecvSlot(c), IoHand(t), b), c,
                         k.(received := k.received + 1, recvbuf := None,
                            hist := k.hist.(delivered := k.hist.delivered + [BufferOf(s, b).req]))),
                 t, c, S.ReqPut))
    case ReqPut =>
      if hand == [] then None
      else Some(PutIo(Shift(s, IoHand(t), ComputeInbox(k.computeidx)), t, c, S.ReqUnlock))
    case ReqUnlock => Some(PutIo(PutConn(s, c, k.(lock := false)), t, c, S.ReqTop))
    case FinTry(m) =>
      if k.lock then Some(PutIo(s, t, c, S.AfterResponse(m)))
      else Some(PutIo(PutConn(s, c, k.(lock := true)), t, c, S.FinSend(m)))
    case FinSend(m) =>
      Some(PutIo(if k.sendbuf.Some? then Release(s, SendSlot(c), Pool, k.sendbuf.value) else s, t, c, S.FinRecv(m)))
    case FinRecv(m) =>
      Some(PutIo(if k.recvbuf.Some? then Release(s, RecvSlot(c), Pool, k.recvbuf.value) else s, t, c, S.FinClose(m)))
    case FinClose(m) => Some(PutIo(PutConn(s, c, k.(kernel := None)), t, c, S.FinDrain(m)))
    case FinDrain(m) =>
      if At(s, SendQueue(c)) == [] then Some(PutIo(s, t, c, S.FinDecide(m)))
      else Some(PutIo(PutConn(Shift(s, SendQueue(c), IoHand(t)), c, k.(sent := k.sent + 1)), t, c, S.FinPut(m)))
    case FinPut(m) =>
      if hand == [] then None else Some(PutIo(Shift(s, IoHand(t), Pool), t, c, S.FinDrain(m)))
    case FinDecide(m) =>
      Some(PutIo(PutConn(s, c, k.(closed := true)), t, c,
                 if Wrap64(k.sent) == Wrap64(k.received) then S.FinRelease(m) else S.FinUnlock(m)))
    case FinUnlock(m) => Some(PutIo(PutConn(s, c, k.(lock := false)), t, c, S.AfterResponse(m)))
    case FinRelease(m) => Some(PutIo(s.(free := s.free + [c]), t, c, S.AfterResponse(m)))
    case _ => None
  }

  function CompNext(cfg: Config, s: Server, t: Tid, c: ConnId): Option<Server>
    requires c in s.conns
  {
    var hand := At(s, ComputeHand(t));
    if hand == [] then None else
    match Comp(s, t).pc
    case CompWork =>
      var x := BufferOf(s, hand[0]);
      Some(PutComp(PutBuf(s, hand[0], x.(res := Respond(cfg, x.req))), t, c, S.CompPut))
    case CompPut =>
      Some(PutComp(Shift(s, ComputeHand(t), SubmitInbox(s.conns[c].submitidx)), t, c, S.CompIdle))
    case CompIdle => None
  }

  function SubNext(s: Server, t: Tid, c: ConnId): Option<Server>
    requires c in s.conns
  {
    var (k, hand) := (s.conns[c], At(s, SubmitHand(t)));
    match Sub(s, t).pc
    case SubIdle => None
    case SubTry =>
      if k.lock then Some(PutSub(s, t, c, S.SubRecycle))
      else Some(PutSub(PutConn(s, c, k.(lock := true)), t, c, S.SubCount))
    case SubRecycle =>
      if hand == [] then None else
      Some(PutSub(PutConn(Shift(s, SubmitHand(t), SubmitInbox(t)), c, k.(hist := k.hist.(recycled := true))),
                  t, c, S.SubIdle))
    case SubCount =>
      Some(PutSub(PutConn(s, c, k.(processed := k.processed + 1)), t, c,
                  if k.closed then S.SubDispose else S.SubQueue))
    case SubDispose =>
      if hand == [] then None else Some(PutSub(Shift(s, SubmitHand(t), Pool), t, c, S.SubDropLock))
    case SubDropLock => Some(PutSub(PutConn(s, c, k.(lock := false)), t, c, S.SubCheck))
    case SubCheck =>
      Some(PutSub(s, t, c, if Wrap64(k.processed) == Wrap64(k.received) then S.SubRelease else S.SubIdle))
    case SubRelease => Some(PutSub(s.(free := s.free + [c]), t, c, S.SubIdle))
    case SubQueue =>
      if hand == [] then None else Some(PutSub(Shift(s, SubmitHand(t), SendQueue(c)), t, c, S.SubArm))
    case SubArm => Some(PutSub(PutConn(s, c, S.SetEpoll(k, k.epoll.(wr := true))), t, c, S.SubUnlock))
    case SubUnlock => Some(PutSub(PutConn(s, c, k.(lock := false)), t, c, S.SubIdle))
  }

  /** The start, after setup_server_prealloc: every buffer in the pool, every
      connection on the free list with its fields as the allocator left them,
      no descriptor registered, every thread idle. */
  ghost predicate Initial(s: Server) {
    && (forall p :: p != Pool ==> At(s, p) == [])
    && (forall i, j :: 0 <= i < j < |At(s, Pool)| ==> At(s, Pool)[i] != At(s, Pool)[j])
    && (forall b :: b in s.bufs <==> b in At(s, Pool))
    && (forall i, j :: 0 <= i < j < |s.free| ==> s.free[i] != s.free[j])
    && (forall c :: c in s.conns <==> c in s.free)
    && (forall c :: c in s.conns ==> s.conns[c].kernel.None?)
    && s.accepting == None && s.io == map[] && s.comp == map[] && s.sub == map[]
  }
}
