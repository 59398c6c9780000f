/** One connection of the load generator (src/client/worker.c): it sends
    requests numbered from zero until `total`, which a stop flag may cut short,
    and counts the responses. A step is one test or one system call of its
    thread.
 */
module ClientProtocol {
  import opened Rpc
  import opened Epoll

  // ---------------------------------------------------------------- requests

  /** An `unsigned int` as the x86 stores it. */
  function IdBytes(n: nat): (b: Bytes)
    ensures |b| == ID_SIZE
  {
    [n % 256, n / 256 % 256, n / 65536 % 256, n / 16777216 % 256]
  }

  function IdOf(msg: Bytes): nat
    requires |msg| >= ID_SIZE
  {
    var a: int, b: int, c: int, d: int := msg[0], msg[1], msg[2], msg[3];
    a + 256 * b + 65536 * c + 16777216 * d
  }

  /** The n-th request: its number, modulo the width of the field, then the
      data, which the client never changes. */
  function Request(n: nat, data: Bytes): Bytes { IdBytes(n % TWO_32) + data }

  /** The id of a request has four bytes: it is the request's number, until that
      does not fit any more; and the data begins behind it. */
  lemma {:induction false} RequestId(n: nat, data: Bytes)
    ensures IdOf(Request(n, data)) == n % 0x1_0000_0000
    ensures n < 256 * 256 * 256 * 256 ==> IdOf(Request(n, data)) == n
    ensures |Request(n, data)| == 4 + |data| && Request(n, data)[4..] == data
  {
    var m := n % 0x1_0000_0000;
    var a, b, c := m / 256, m / 65536, m / 16777216;
    assert b == a / 256 && c == b / 256 && c < 256;
    assert m == 256 * a + m % 256 && a == 256 * b + a % 256 && b == 256 * c + b % 256;
  }

  /** Two requests are the same only when their numbers are a whole turn of the
      field apart. */
  lemma {:induction false} RequestsApart(m: nat, n: nat, data: Bytes)
    requires m < n < m + 256 * 256 * 256 * 256
    ensures Request(m, data) != Request(n, data)
  {
    hide IdOf, Request;
    RequestId(m, data);
    RequestId(n, data);
  }

  function Requests(n: nat, data: Bytes): seq<Bytes> { seq(n, i requires 0 <= i < n => Request(i, data)) }

  // ---------------------------------------------------------------- state

  /** Where the thread stands; `inp` is the EPOLLIN bit of the event. */
  datatype Pc =
    | Waiting
    | OutTop(inp: bool) | OutSend(inp: bool) | OutEnd(inp: bool)
    | InTop | InRecv | InEnd

  /** struct client_connection_t, with the kernel's registration of its
      descriptor and the bytes that have passed. */
  datatype Client = Client(
    sent: nat, received: nat, total: nat,
    msg: Bytes, sendLeft: nat, recvLeft: nat,
    watch: Registration, fdOpen: bool,
    pc: Pc, tx: Bytes, rx: Bytes)

  datatype Act =
    | Event(out: bool, inp: bool)
    | Begin(stopping: bool)
    | Send(n: nat) | SendAgain | SendFail
    | Recv(bytes: Bytes) | RecvAgain | RecvFail
    | Step

  function Data(c: Client): Bytes { if |c.msg| < ID_SIZE then [] else c.msg[ID_SIZE..] }

  /** What is left to send of sendbuf, from `sendptr`. */
  function Unsent(c: Client): Bytes {
    if c.sendLeft <= |c.msg| then c.msg[|c.msg| - c.sendLeft..] else []
  }

  function AfterOutput(inp: bool): Pc { if inp then InTop else Waiting }

  // ---------------------------------------------------------------- steps

  function Next(c: Client, a: Act): Option<Client> {
    match a
    case Event(out, inp) =>
      if c.pc != Waiting || c.watch.None? || (out && !c.watch.value.wr) || (inp && !c.watch.value.rd) then None
      else Some(c.(pc := if out then OutTop(inp) else AfterOutput(inp)))
    case Begin(stopping) => BeginRequest(c, stopping)
    case Send(n) => SendSome(c, n)
    case SendAgain => if c.pc.OutSend? then Some(c.(pc := OutEnd(c.pc.inp))) else None
    case SendFail => if c.pc.OutSend? then Some(c.(pc := Waiting)) else None
    case Recv(bytes) => RecvSome(c, bytes)
    case RecvAgain => if c.pc == InRecv then Some(c.(pc := InEnd)) else None
    case RecvFail => if c.pc == InRecv then Some(c.(pc := Waiting)) else None
    case Step => Local(c)
  }

  /** Top of the client_conn_handle_output loop (src/client/worker.c:88-98). */
  function BeginRequest(c: Client, stopping: bool): Option<Client> {
    if !c.pc.OutTop? || |c.msg| < ID_SIZE then None
    else if c.sendLeft > 0 then Some(c.(pc := OutSend(c.pc.inp)))
    else if stopping then Some(c.(total := c.sent, pc := OutEnd(c.pc.inp)))
    else Some(c.(sendLeft := REQUEST_SIZE, msg := Request(c.sent, c.msg[ID_SIZE..]), pc := OutSend(c.pc.inp)))
  }

  /** send took n bytes (src/client/worker.c:113-119). */
  function SendSome(c: Client, n: nat): Option<Client> {
    if c.pc.OutSend? && 0 < n <= c.sendLeft <= |c.msg| then
      var c' := c.(sendLeft := c.sendLeft - n, tx := c.tx + Unsent(c)[..n]);
      if c'.sendLeft > 0 then Some(c'.(pc := OutTop(c.pc.inp)))
      else if c.sent + 1 == c.total then Some(c'.(sent := c.sent + 1, pc := OutEnd(c.pc.inp)))
      else Some(c'.(sent := c.sent + 1, pc := OutTop(c.pc.inp)))
    else None
  }

  /** recv gave bytes (src/client/worker.c:74-76). */
  function RecvSome(c: Client, bytes: Bytes): Option<Client> {
    if c.pc == InRecv && 0 < |bytes| <= c.recvLeft then
      Some(c.(recvLeft := c.recvLeft - |bytes|, rx := c.rx + bytes, pc := InTop,
              received := if |bytes| == c.recvLeft then c.received + 1 else c.received))
    else None
  }

  /** The tests between the system calls. */
  function Local(c: Client): Option<Client> {
    match c.pc
    case OutEnd(inp) =>
      Some(c.(watch := if c.sent == c.total then Some(EPOLLIN) else c.watch, pc := AfterOutput(inp)))
    case InTop =>
      if c.recvLeft > 0 then Some(c.(pc := InRecv))
      else if c.received == c.total then Some(c.(pc := InEnd))
      else Some(c.(recvLeft := RESPONSE_SIZE, pc := InRecv))
    case InEnd =>
      Some(if c.received == c.total then c.(watch := None, fdOpen := false, pc := Waiting) else c.(pc := Waiting))
    case _ => None
  }

  /** The server sends no more than a response for each whole request that was
      sent to it. EndToEnd proves it of the server. */
  predicate Answerable(c: Client, a: Act) {
    a.Recv? ==> |c.rx| + |a.bytes| <= RESPONSE_SIZE * c.sent
  }

  // ---------------------------------------------------------------- the invariant

  function PartialOut(c: Client): Bytes {
    if c.sendLeft == 0 || c.sendLeft > |c.msg| then [] else c.msg[..|c.msg| - c.sendLeft]
  }

  function PartialIn(c: Client): nat { if 0 < c.recvLeft <= RESPONSE_SIZE then RESPONSE_SIZE - c.recvLeft else 0 }

  predicate InOutput(pc: Pc) { pc.OutTop? || pc.OutSend? }

  predicate Streams(c: Client, data: Bytes) {
    && |data| == REQUEST_LENGTH && |c.msg| == REQUEST_SIZE && Data(c) == data
    && c.sendLeft <= REQUEST_SIZE && c.recvLeft <= RESPONSE_SIZE
    && (c.sendLeft > 0 ==> c.msg == Request(c.sent, data))
    && c.tx == Flat(Requests(c.sent, data)) + PartialOut(c)
    && |c.rx| == RESPONSE_SIZE * c.received + PartialIn(c)
    && |c.rx| <= RESPONSE_SIZE * c.sent
  }

  predicate Bounds(c: Client) {
    && c.received <= c.sent <= c.total
    && (c.sendLeft > 0 ==> c.sent < c.total)
    && (InOutput(c.pc) ==> c.sent < c.total)
    && (c.pc.OutSend? ==> c.sendLeft > 0)
    && (c.pc.InRecv? ==> c.recvLeft > 0)
  }

  predicate Interested(c: Client) {
    && (c.fdOpen <==> c.watch.Some?)
    && (c.fdOpen ==> c.watch.value.rd)
    && (c.fdOpen && !c.pc.OutEnd? ==> (c.watch.value.wr <==> c.sent < c.total))
    && (c.fdOpen && c.sent < c.total ==> c.watch.value.wr)
    && (!c.fdOpen ==> c.received == c.total && c.pc == Waiting)
  }

  predicate Inv(c: Client, data: Bytes) { Streams(c, data) && Bounds(c) && Interested(c) }

  /** A connected client before its thread starts: nr_requests to go, and
      the struct zeroed by calloc. */
  predicate Initial(c: Client, data: Bytes) {
    && c.sent == 0 && c.received == 0 && c.total > 0
    && |data| == REQUEST_LENGTH && c.msg == IdBytes(0) + data && c.sendLeft == 0 && c.recvLeft == 0
    && c.watch == Some(Interest(true, true)) && c.fdOpen && c.pc == Waiting && c.tx == [] && c.rx == []
  }

  lemma InitInv(c: Client, data: Bytes)
    requires Initial(c, data)
    ensures Inv(c, data)
  {
  }

  // ---------------------------------------------------------------- preservation

  lemma MoreRequests(n: nat, data: Bytes)
    ensures Requests(n + 1, data) == Requests(n, data) + [Request(n, data)]
    ensures Flat(Requests(n + 1, data)) == Flat(Requests(n, data)) + Request(n, data)
  {
  }

  lemma BeginInv(c: Client, data: Bytes, stopping: bool)
    requires Inv(c, data) && BeginRequest(c, stopping).Some?
    ensures Inv(BeginRequest(c, stopping).value, data)
  {
    var c' := BeginRequest(c, stopping).value;
    assert Data(c') == data;
    assert c.sendLeft == 0 ==> PartialOut(c') == [] == PartialOut(c);
  }

  lemma Appended(front: Bytes, msg: Bytes, i: nat, j: nat)
    requires i <= j <= |msg|
    ensures front + msg[..i] + msg[i..j] == front + msg[..j]
  {
  }

  /** What a send does to the stream. */
  lemma SendStream(c: Client, data: Bytes, n: nat)
    requires Streams(c, data) && c.pc.OutSend? && 0 < n <= c.sendLeft
    ensures n < c.sendLeft ==>
              c.tx + Unsent(c)[..n] == Flat(Requests(c.sent, data)) + c.msg[..REQUEST_SIZE - c.sendLeft + n]
    ensures n == c.sendLeft ==> c.tx + Unsent(c)[..n] == Flat(Requests(c.sent + 1, data))
  {
    hide Flat, Requests, Request;
    var at := REQUEST_SIZE - c.sendLeft;
    assert PartialOut(c) == c.msg[..at];
    assert Unsent(c)[..n] == c.msg[at..at + n];
    Appended(Flat(Requests(c.sent, data)), c.msg, at, at + n);
    if n == c.sendLeft {
      MoreRequests(c.sent, data);
      assert c.msg[..at + n] == c.msg;
    }
  }

  lemma SendInv(c: Client, data: Bytes, n: nat)
    requires Inv(c, data) && SendSome(c, n).Some?
    ensures Inv(SendSome(c, n).value, data)
  {
    hide Flat, Requests, Request, Unsent;
    SendStream(c, data, n);
    var c' := SendSome(c, n).value;
    assert PartialOut(c') == if n < c.sendLeft then c.msg[..REQUEST_SIZE - c.sendLeft + n] else [];
    assert RESPONSE_SIZE * c.sent <= RESPONSE_SIZE * c'.sent;
  }

  lemma RecvInv(c: Client, data: Bytes, bytes: Bytes)
    requires Inv(c, data) && RecvSome(c, bytes).Some? && Answerable(c, Recv(bytes))
    ensures Inv(RecvSome(c, bytes).value, data)
  {
  }

  lemma OtherInv(c: Client, data: Bytes, a: Act)
    requires Inv(c, data) && Next(c, a).Some? && !a.Begin? && !a.Send? && !a.Recv?
    ensures Inv(Next(c, a).value, data)
  {
    hide Flat, Requests, Request;
    assert PartialOut(Next(c, a).value) == PartialOut(c);
  }

  lemma {:induction false} StepInv(c: Client, data: Bytes, a: Act)
    requires Inv(c, data) && Answerable(c, a) && Next(c, a).Some?
    ensures Inv(Next(c, a).value, data)
  {
    hide Inv, BeginRequest, SendSome, RecvSome, Local;
    match a
    case Begin(stopping) => BeginInv(c, data, stopping);
    case Send(n) => SendInv(c, data, n);
    case Recv(bytes) => RecvInv(c, data, bytes);
    case _ => OtherInv(c, data, a);
  }

  // ---------------------------------------------------------------- runs

  ghost predicate Run(cs: seq<Client>, acts: seq<Act>) {
    && |cs| == |acts| + 1
    && forall i :: 0 <= i < |acts| ==> Answerable(cs[i], acts[i]) && Next(cs[i], acts[i]) == Some(cs[i + 1])
  }

  lemma {:induction false} RunInv(cs: seq<Client>, acts: seq<Act>, data: Bytes, n: nat)
    requires Run(cs, acts) && Initial(cs[0], data) && n <= |acts|
    ensures Inv(cs[n], data)
  {
    hide Next, Inv, Answerable, Initial;
    if n == 0 {
      InitInv(cs[0], data);
    } else {
      RunInv(cs, acts, data, n - 1);
      assert Next(cs[n - 1], acts[n - 1]) == Some(cs[n]);
      StepInv(cs[n - 1], data, acts[n - 1]);
    }
  }

  /** received <= sent <= total at every moment of every run, whenever the stop
      flag is seen. The bytes sent are the requests in order, the last one
      possibly in part. */
  lemma {:induction false} Accounting(cs: seq<Client>, acts: seq<Act>, data: Bytes, n: nat)
    requires Run(cs, acts) && Initial(cs[0], data) && n <= |acts|
    ensures cs[n].received <= cs[n].sent <= cs[n].total
    ensures cs[n].tx == Flat(Requests(cs[n].sent, data)) + PartialOut(cs[n])
    ensures |PartialOut(cs[n])| < 1024
    ensures |cs[n].rx| / 24 == cs[n].received
  {
    RunInv(cs, acts, data, n);
  }

  /** EPOLLOUT is asked for exactly while requests are to be sent, whenever the
      thread waits; and the connection is closed only with every request that
      was sent answered and none half sent. */
  lemma {:induction false} InterestRule(cs: seq<Client>, acts: seq<Act>, data: Bytes, n: nat)
    requires Run(cs, acts) && Initial(cs[0], data) && n <= |acts|
    ensures cs[n].pc == Waiting && cs[n].fdOpen ==> cs[n].watch == Some(Interest(true, cs[n].sent < cs[n].total))
    ensures !cs[n].fdOpen ==>
              && cs[n].watch.None? && cs[n].received == cs[n].sent == cs[n].total
              && cs[n].tx == Flat(Requests(cs[n].total, data)) && |cs[n].rx| == RESPONSE_SIZE * cs[n].total
  {
    RunInv(cs, acts, data, n);
    if !cs[n].fdOpen {
      assert PartialIn(cs[n]) == 0;
    }
  }

  /** `total` changes at one place only: it drops to `sent`, between two
      messages, when the thread sees the stop flag. */
  lemma {:induction false} TotalDrops(c: Client, data: Bytes, a: Act)
    requires Inv(c, data) && Next(c, a).Some? && Next(c, a).value.total != c.total
    ensures a == Begin(true) && c.sendLeft == 0 && PartialOut(c) == []
    ensures Next(c, a).value.total == Next(c, a).value.sent == c.sent < c.total
  {
  }

  lemma {:induction false} TotalNeverGrows(cs: seq<Client>, acts: seq<Act>, data: Bytes, n: nat)
    requires Run(cs, acts) && Initial(cs[0], data) && n <= |acts|
    ensures cs[n].total <= cs[0].total
  {
    if n > 0 {
      TotalNeverGrows(cs, acts, data, n - 1);
      RunInv(cs, acts, data, n - 1);
    }
  }

  predicate MovesBytes(a: Act) { a.Send? || a.Recv? }

  function Moves(acts: seq<Act>): nat {
    if acts == [] then 0 else Moves(acts[..|acts| - 1]) + (if MovesBytes(acts[|acts| - 1]) then 1 else 0)
  }

  lemma StepGrows(c: Client, a: Act)
    requires Next(c, a).Some?
    ensures var d := Next(c, a).value;
            |d.tx| + |d.rx| >= |c.tx| + |c.rx| + (if MovesBytes(a) then 1 else 0)
  {
    hide IdBytes;
  }

  lemma {:induction false} MovesBounded(cs: seq<Client>, acts: seq<Act>, n: nat)
    requires Run(cs, acts) && n <= |acts|
    ensures |cs[0].tx| + |cs[0].rx| + Moves(acts[..n]) <= |cs[n].tx| + |cs[n].rx|
  {
    hide Next, Answerable, MovesBytes;
    if n > 0 {
      MovesBounded(cs, acts, n - 1);
      assert acts[..n][..n - 1] == acts[..n - 1];
      assert Next(cs[n - 1], acts[n - 1]) == Some(cs[n]);
      StepGrows(cs[n - 1], acts[n - 1]);
    }
  }

  lemma Fresh(c: Client, data: Bytes)
    requires Initial(c, data)
    ensures c.tx == [] && c.rx == []
  {
  }

  lemma StreamSizes(c: Client, data: Bytes)
    requires Inv(c, data)
    ensures |c.tx| + |c.rx| <= (REQUEST_SIZE + RESPONSE_SIZE) * c.total
    ensures |c.tx| < REQUEST_SIZE * (c.sent + 1)
  {
    hide Flat;
    FlatLength(Requests(c.sent, data), REQUEST_SIZE);
    assert |c.tx| == c.sent * REQUEST_SIZE + |PartialOut(c)|;
    assert |PartialOut(c)| < REQUEST_SIZE;
  }

  /** A run moves bytes a bounded number of times, however the calls cut the
      streams: so no handler loop goes on for ever. */
  lemma {:induction false} FinitelyManyMoves(cs: seq<Client>, acts: seq<Act>, data: Bytes)
    requires Run(cs, acts) && Initial(cs[0], data)
    ensures Moves(acts) <= (1024 + 24) * cs[0].total
  {
    hide Next, Initial, Flat, Requests, Moves;
    var n := |acts|;
    var c := cs[n];
    RunInv(cs, acts, data, n);
    TotalNeverGrows(cs, acts, data, n);
    MovesBounded(cs, acts, n);
    assert acts[..n] == acts;
    StreamSizes(c, data);
    Fresh(cs[0], data);
    assert (REQUEST_SIZE + RESPONSE_SIZE) * c.total <= (REQUEST_SIZE + RESPONSE_SIZE) * cs[0].total;
  }
}
