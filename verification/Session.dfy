/** The protocol of one server connection, as the IO, compute, submitter and
    accept threads run it (src/server/io/io.c, submit.c, accept.c,
    src/server/compute.c).

    A `Session` is everything that concerns one connection: the fields of its
    struct, the buffers of the pipeline that point at it, stage by stage, and
    where each of the threads working for it stands. A step is one access to
    shared state by one thread; accesses to fields that only the IO thread uses
    are merged with the shared access next to them. Queues are atomic here;
    module QueueMachine says why they may be.
 */
module SessionProtocol {
  import opened Rpc
  import opened Epoll

  /** A buffer with its message: the request bytes received so far, the
      response, and `left`, the bytes still to receive or to send. */
  datatype Item = Item(id: nat, req: Bytes, res: Bytes, left: nat)

  /** What has passed over the connection's socket since it was accepted. */
  datatype History = History(
    rx: Bytes,               // every byte received
    tx: Bytes,               // every byte sent
    delivered: seq<Bytes>,   // requests handed to the compute stage
    answered: seq<Item>,     // responses sent to the last byte
    recycled: bool)          // some submitter trylock failed

  const NO_HISTORY := History([], [], [], [], false)

  /** struct server_connection_t, with the kernel's registration of its
      descriptor. A buffer field keeps its C value: it is not cleared when the
      buffer is given away. */
  datatype Conn = Conn(
    ioidx: nat, computeidx: nat, submitidx: nat,
    received: nat, processed: nat, sent: nat,
    closed: bool, lock: bool,
    epoll: Interest, kernel: Registration,
    recvbuf: Option<nat>, sendbuf: Option<nat>,
    hist: History)

  /** Where the IO thread stands. `more` is the EPOLLIN bit of the event being
      dispatched: whether handle_request comes after handle_response. */
  datatype IoPc =
    | IoIdle
    | RespTop(more: bool) | RespSend(more: bool) | RespPut(more: bool)
    | RespLock(more: bool) | RespCheck(more: bool) | RespUnlock(more: bool)
    | ReqTop | ReqRecv | ReqLock | ReqCount | ReqPut | ReqUnlock
    | FinTry(more: bool) | FinSend(more: bool) | FinRecv(more: bool) | FinClose(more: bool)
    | FinDrain(more: bool) | FinPut(more: bool) | FinDecide(more: bool)
    | FinUnlock(more: bool) | FinRelease(more: bool)

  datatype CompPc = CompIdle | CompWork | CompPut

  datatype SubPc =
    | SubIdle | SubTry | SubRecycle | SubCount
    | SubDispose | SubDropLock | SubCheck | SubRelease
    | SubQueue | SubArm | SubUnlock

  datatype Session = Session(
    conn: Conn,
    recv: seq<Item>, send: seq<Item>, sendq: seq<Item>,
    cin: seq<Item>, chand: seq<Item>, sin: seq<Item>, shand: seq<Item>, iohand: seq<Item>,
    io: IoPc, comp: CompPc, sub: SubPc,
    nfree: nat,              // occurrences on empty_connections
    accepting: bool)         // taken from there, not yet in service

  datatype Act =
    | AcceptTake | AcceptServe(ioidx: nat, computeidx: nat, submitidx: nat)
    | IoEvent(err: bool, out: bool, inp: bool)
    | IoRecv(bytes: Bytes) | IoRecvAgain | IoRecvFail
    | IoSend(n: nat) | IoSendAgain | IoSendFail
    | IoReqTop(got: Option<nat>)
    | IoStep
    | CompTake | CompStep
    | SubTake | SubStep

  /** The acts of the IO thread inside a handler. */
  predicate InHandler(a: Act) {
    a.IoRecv? || a.IoRecvAgain? || a.IoRecvFail? || a.IoSend? || a.IoSendAgain? || a.IoSendFail? || a.IoReqTop? ||
    a.IoStep?
  }

  // ---------------------------------------------------------------- steps on a connection

  function SetEpoll(k: Conn, mask: Interest): Conn {
    k.(epoll := mask, kernel := KernelAfter(k.epoll, k.kernel, mask))
  }

  /** handle_accept: the counters, the queue, recvbuf, epoll_state, closed and
      the lock are reset, sendbuf is not; then the new descriptor is added. */
  function Accepted(k: Conn, ioidx: nat, computeidx: nat, submitidx: nat): Conn {
    SetEpoll(Conn(ioidx, computeidx, submitidx, 0, 0, 0, false, false,
                  NO_INTEREST, None, None, k.sendbuf, NO_HISTORY), EPOLLIN)
  }

  /** What __io_worker runs once handle_response has returned zero. */
  function AfterResponse(more: bool): IoPc { if more then ReqTop else IoIdle }

  function IoSize(cfg: Config, it: Item): nat { Min(it.left, cfg.maxIoSize) }

  function ReceivedInto(it: Item, bytes: Bytes): Item
    requires |bytes| <= it.left
  {
    it.(req := it.req + bytes, left := it.left - |bytes|)
  }

  /** The bytes from `ptr` that a send of n bytes takes. */
  function SentSlice(it: Item, n: nat): Bytes {
    if n <= it.left <= |it.res| then it.res[|it.res| - it.left..|it.res| - it.left + n] else []
  }

  /** The head-room test of handle_request, on the stored counters. */
  predicate TooFarAhead(cfg: Config, k: Conn) {
    Sub64(Wrap64(k.received), Wrap64(k.sent)) > cfg.readahead
  }

  // ---------------------------------------------------------------- the step function

  /** The next session when `a` is taken, None when it cannot be. */
  function Next(cfg: Config, v: Session, a: Act): Option<Session> {
    match a
    case AcceptTake =>
      if v.nfree > 0 && !v.accepting then Some(v.(nfree := v.nfree - 1, accepting := true)) else None
    case AcceptServe(i, c, s) =>
      if v.accepting then Some(v.(accepting := false, conn := Accepted(v.conn, i, c, s), sendq := []))
      else None
    case IoEvent(err, out, inp) =>
      if v.io != IoIdle || v.conn.kernel.None? then None
      else Some(v.(io := if err then FinTry(false) else if out then RespTop(inp)
                         else AfterResponse(inp)))
    case IoRecv(bytes) => RecvBytes(cfg, v, bytes)
    case IoRecvAgain => if v.io == ReqRecv then Some(v.(io := IoIdle)) else None
    case IoRecvFail => if v.io == ReqRecv then Some(v.(io := FinTry(false))) else None
    case IoSend(n) => SendBytes(cfg, v, n)
    case IoSendAgain => if v.io.RespSend? then Some(v.(io := AfterResponse(v.io.more))) else None
    case IoSendFail => if v.io.RespSend? then Some(v.(io := FinTry(v.io.more))) else None
    case IoReqTop(got) => RequestTop(cfg, v, got)
    case IoStep => IoNext(v)
    case CompTake =>
      if v.comp == CompIdle && v.cin != [] then
        Some(v.(cin := v.cin[1..], chand := [v.cin[0]], comp := CompWork))
      else None
    case CompStep => CompNext(cfg, v)
    case SubTake =>
      if v.sub == SubIdle && v.sin != [] then
        Some(v.(sin := v.sin[1..], shand := [v.sin[0]], sub := SubTry))
      else None
    case SubStep => SubNext(v)
  }

  /** Z_recv returned bytes (src/server/io/io.c:79-88). */
  function RecvBytes(cfg: Config, v: Session, bytes: Bytes): Option<Session> {
    if v.io == ReqRecv && v.recv != [] && 0 < |bytes| <= IoSize(cfg, v.recv[0]) then
      var it := ReceivedInto(v.recv[0], bytes);
      Some(v.(recv := [it],
              conn := v.conn.(hist := v.conn.hist.(rx := v.conn.hist.rx + bytes)),
              io := if it.left == 0 then ReqLock else ReqTop))
    else None
  }

  /** Z_send took n bytes (src/server/io/io.c:119-138): a short send returns,
      a full one goes round, and the last one counts and detaches the buffer. */
  function SendBytes(cfg: Config, v: Session, n: nat): Option<Session> {
    if v.io.RespSend? && v.send != [] && n <= IoSize(cfg, v.send[0]) then
      var it := v.send[0];
      var h := v.conn.hist.(tx := v.conn.hist.tx + SentSlice(it, n));
      var it' := it.(left := it.left - n);
      if n < IoSize(cfg, it) then
        Some(v.(send := [it'], conn := v.conn.(hist := h), io := AfterResponse(v.io.more)))
      else if it'.left > 0 then
        Some(v.(send := [it'], conn := v.conn.(hist := h), io := RespTop(v.io.more)))
      else
        Some(v.(send := [], iohand := [it'], io := RespPut(v.io.more),
                conn := v.conn.(sent := v.conn.sent + 1, sendbuf := None,
                                hist := h.(answered := h.answered + [it']))))
    else None
  }

  /** Top of the handle_request loop (src/server/io/io.c:63-78); `got` is what
      the buffer pool gave. */
  function RequestTop(cfg: Config, v: Session, got: Option<nat>): Option<Session> {
    if v.io != ReqTop then None
    else if v.conn.recvbuf.Some? then Some(v.(io := ReqRecv))
    else if TooFarAhead(cfg, v.conn) || got.None? then Some(v.(io := IoIdle))
    else
      Some(v.(recv := [Item(got.value, [], [], REQUEST_SIZE)],
              conn := v.conn.(recvbuf := got), io := ReqRecv))
  }

  /** Every other step of the IO thread. */
  function IoNext(v: Session): Option<Session> {
    var k := v.conn;
    match v.io
    case RespTop(m) =>
      if k.sendbuf.Some? then Some(v.(io := RespSend(m)))
      else if v.sendq == [] then Some(v.(io := AfterResponse(m)))
      else
        var it := v.sendq[0].(left := RESPONSE_SIZE);
        Some(v.(sendq := v.sendq[1..], send := [it], conn := k.(sendbuf := Some(it.id)), io := RespSend(m)))
    case RespPut(m) => Some(v.(iohand := [], io := RespLock(m)))
    case RespLock(m) => if k.lock then None else Some(v.(conn := k.(lock := true), io := RespCheck(m)))
    case RespCheck(m) =>
      Some(v.(io := RespUnlock(m),
              conn := if Wrap64(k.processed) == Wrap64(k.sent) then SetEpoll(k, k.epoll.(wr := false)) else k))
    case RespUnlock(m) => Some(v.(conn := k.(lock := false), io := RespTop(m)))
    case ReqLock => if k.lock then None else Some(v.(conn := k.(lock := true), io := ReqCount))
    case ReqCount =>
      if v.recv == [] then None else
      Some(v.(recv := [], iohand := v.recv, io := ReqPut,
              conn := k.(received := k.received + 1, recvbuf := None,
                         hist := k.hist.(delivered := k.hist.delivered + [v.recv[0].req]))))
    case ReqPut => Some(v.(cin := v.cin + v.iohand, iohand := [], io := ReqUnlock))
    case ReqUnlock => Some(v.(conn := k.(lock := false), io := ReqTop))
    case FinTry(m) =>
      if k.lock then Some(v.(io := AfterResponse(m)))
      else Some(v.(conn := k.(lock := true), io := FinSend(m)))
    case FinSend(m) => Some(v.(send := [], io := FinRecv(m)))
    case FinRecv(m) => Some(v.(recv := [], io := FinClose(m)))
    case FinClose(m) => Some(v.(conn := k.(kernel := None), io := FinDrain(m)))
    case FinDrain(m) =>
      if v.sendq == [] then Some(v.(io := FinDecide(m)))
      else Some(v.(sendq := v.sendq[1..], iohand := [v.sendq[0]], io := FinPut(m),
                   conn := k.(sent := k.sent + 1)))
    case FinPut(m) => Some(v.(iohand := [], io := FinDrain(m)))
    case FinDecide(m) =>
      Some(v.(conn := k.(closed := true),
              io := if Wrap64(k.sent) == Wrap64(k.received) then FinRelease(m) else FinUnlock(m)))
    case FinUnlock(m) => Some(v.(conn := k.(lock := false), io := AfterResponse(m)))
    case FinRelease(m) => Some(v.(nfree := v.nfree + 1, io := AfterResponse(m)))
    case _ => None
  }

  /** compute_worker, after it has taken a buffer. */
  function CompNext(cfg: Config, v: Session): Option<Session> {
    if v.chand == [] then None else
    match v.comp
    case CompWork =>
      Some(v.(chand := [v.chand[0].(res := Respond(cfg, v.chand[0].req))], comp := CompPut))
    case CompPut => Some(v.(chand := [], sin := v.sin + v.chand, comp := CompIdle))
    case CompIdle => None
  }

  /** __submitter_worker, after it has taken a buffer. */
  function SubNext(v: Session): Option<Session> {
    var k := v.conn;
    match v.sub
    case SubIdle => None
    case SubTry =>
      if k.lock then Some(v.(sub := SubRecycle))
      else Some(v.(conn := k.(lock := true), sub := SubCount))
    case SubRecycle =>
      Some(v.(sin := v.sin + v.shand, shand := [], sub := SubIdle,
              conn := k.(hist := k.hist.(recycled := true))))
    case SubCount =>
      Some(v.(conn := k.(processed := k.processed + 1), sub := if k.closed then SubDispose else SubQueue))
    case SubDispose => Some(v.(shand := [], sub := SubDropLock))
    case SubDropLock => Some(v.(conn := k.(lock := false), sub := SubCheck))
    case SubCheck =>
      Some(v.(sub := if Wrap64(k.processed) == Wrap64(k.received) then SubRelease else SubIdle))
    case SubRelease => Some(v.(nfree := v.nfree + 1, sub := SubIdle))
    case SubQueue => Some(v.(sendq := v.sendq + v.shand, shand := [], sub := SubArm))
    case SubArm => Some(v.(conn := SetEpoll(k, k.epoll.(wr := true)), sub := SubUnlock))
    case SubUnlock => Some(v.(conn := k.(lock := false), sub := SubIdle))
  }

  /** The two hypotheses the code needs. A connection enters service with
      sendbuf NULL: handle_accept does not clear it, and neither does
      finish_connection or the allocator. And the event in which
      handle_response finishes a connection does not go on to handle_request. */
  predicate Good(v: Session, a: Act) {
    && (a.AcceptServe? ==> v.conn.sendbuf == None)
    && (a.IoStep? && (v.io.FinUnlock? || v.io.FinRelease?) ==> !v.io.more)
  }
}
