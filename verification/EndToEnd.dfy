/** A client connection and the server connection that serves it, joined by two
    byte streams in order. What one end has received is a prefix of what the
    other has sent, cut anywhere. A system call and the counter update that goes
    with it are one step on either side.
 */
module EndToEnd {
  import opened Rpc
  import opened Epoll
  import C = ClientProtocol
  import S = SessionProtocol
  import I = SessionInvariant
  import H = SessionHistory
  import T = SessionTheorems
  import Y = Hypotheses

  datatype System = System(client: C.Client, server: S.Session)

  datatype Act = ClientDoes(c: C.Act) | ServerDoes(s: S.Act)

  /** The streams allow the act: nothing is received that was not sent. The
      server's connection does not serve another client. */
  predicate Allowed(w: System, a: Act) {
    match a
    case ClientDoes(c) => c.Recv? ==> w.client.rx + c.bytes <= w.server.conn.hist.tx
    case ServerDoes(s) =>
      && S.Good(w.server, s) && !s.AcceptServe?
      && (s.IoRecv? ==> w.server.conn.hist.rx + s.bytes <= w.client.tx)
  }

  function Next(cfg: Config, w: System, a: Act): Option<System> {
    if !Allowed(w, a) then None
    else
      match a
      case ClientDoes(c) =>
        (match C.Next(w.client, c)
         case None => None
         case Some(client) => Some(System(client, w.server)))
      case ServerDoes(s) =>
        (match S.Next(cfg, w.server, s)
         case None => None
         case Some(server) => Some(System(w.client, server)))
  }

  /** Just connected, and just accepted. */
  ghost predicate Initial(cfg: Config, w: System, data: Bytes) {
    && C.Initial(w.client, data)
    && T.Reachable(cfg, w.server) && I.Serving(w.server) && w.server.conn.hist == S.NO_HISTORY
  }

  ghost predicate Run(cfg: Config, ws: seq<System>, acts: seq<Act>) {
    && |ws| == |acts| + 1
    && forall i :: 0 <= i < |acts| ==> Next(cfg, ws[i], acts[i]) == Some(ws[i + 1])
  }

  ghost predicate Reachable(cfg: Config, w: System, data: Bytes) {
    exists ws, acts :: Run(cfg, ws, acts) && Initial(cfg, ws[0], data) && w == ws[|acts|]
  }

  // ---------------------------------------------------------------- the server's account

  function Responses(cfg: Config, reqs: seq<Bytes>): seq<Bytes> {
    seq(|reqs|, i requires 0 <= i < |reqs| => Respond(cfg, reqs[i]))
  }

  /** `line` orders the delivered requests so that the bytes sent are the first
      of their answers; without a failed trylock it is the order of delivery. */
  ghost predicate Answers(cfg: Config, h: S.History, line: seq<Bytes>) {
    && multiset(line) == multiset(h.delivered) && |line| == |h.delivered|
    && (!h.recycled ==> line == h.delivered)
    && h.tx <= Flat(Responses(cfg, line))
  }

  /** What the server's history always says, even after the connection. */
  ghost predicate Ledger(cfg: Config, h: S.History) {
    && AllSized(h.delivered, REQUEST_SIZE)
    && Flat(h.delivered) <= h.rx
    && exists line :: Answers(cfg, h, line)
  }

  lemma {:induction false} FlatAppend(a: seq<Bytes>, b: seq<Bytes>)
    ensures Flat(a + b) == Flat(a) + Flat(b)
  {
    if b == [] {
      assert a + b == a;
    } else {
      var k := |b| - 1;
      assert a + b == (a + b[..k]) + [b[k]];
      FlatSnoc(a + b[..k], b[k]);
      FlatAppend(a, b[..k]);
    }
  }

  lemma {:induction false} AnswersFirst(cfg: Config, answered: seq<S.Item>, send: seq<S.Item>, rest: seq<Bytes>,
                                        partial: Bytes)
    requires H.Replied(cfg, answered) && H.Replied(cfg, send)
    requires if send == [] then partial == [] else partial <= send[0].res
    ensures Flat(H.Ress(answered)) + partial <= Flat(Responses(cfg, H.Reqs(answered) + H.Reqs(send) + rest))
  {
    hide Respond;
    var a, s := H.Reqs(answered), H.Reqs(send);
    assert Responses(cfg, a) == H.Ress(answered);
    assert Responses(cfg, a + s + rest) == Responses(cfg, a) + Responses(cfg, s + rest);
    FlatAppend(Responses(cfg, a), Responses(cfg, s + rest));
    if send != [] {
      var more := Responses(cfg, s + rest);
      assert more == [more[0]] + more[1..];
      FlatAppend([more[0]], more[1..]);
      FlatSnoc([], more[0]);
      assert [] + [more[0]] == [more[0]];
      assert more[0] == send[0].res;
      assert partial <= Flat(more);
    }
  }

  /** In a line, the answered requests and the one in sendbuf come first. */
  lemma LineStart(v: S.Session) returns (rest: seq<Bytes>)
    ensures H.Line(v) == H.Reqs(v.conn.hist.answered) + H.Reqs(v.send) + rest
  {
    hide H.Reqs;
    rest := H.Reqs(v.sendq) + H.Reqs(v.shand) + H.Reqs(v.sin) + H.Reqs(v.chand) + H.Reqs(v.cin) + H.Reqs(H.Counted(v));
    T.Regroup(H.Reqs(v.conn.hist.answered), H.Reqs(v.send), H.Reqs(v.sendq), H.Reqs(v.shand), H.Reqs(v.sin),
            H.Reqs(v.chand), H.Reqs(v.cin), H.Reqs(H.Counted(v)));
  }

  lemma KeptLedger(cfg: Config, v: S.Session)
    requires H.Kept(cfg, v)
    ensures Ledger(cfg, v.conn.hist)
  {
    hide Flat, H.Whole, Responses, H.Replied, H.Line, H.Reqs;
    var h := v.conn.hist;
    var line := H.Line(v);
    var rest := LineStart(v);
    AnswersFirst(cfg, h.answered, v.send, rest, H.PartialResponse(v));
    assert |line| == |multiset(line)| && |h.delivered| == |multiset(h.delivered)|;
    assert Answers(cfg, h, line);
  }

  lemma ServingLedger(cfg: Config, v: S.Session)
    requires H.Faithful(cfg, v) && I.Serving(v)
    ensures Ledger(cfg, v.conn.hist)
  {
    hide H.Sound, H.InLine, H.Framed;
    KeptLedger(cfg, v);
  }

  /** A connection that is not served any more moves no byte. */
  lemma Frozen(cfg: Config, v: S.Session, a: S.Act)
    requires ValidConfig(cfg) && I.Inv(cfg, v) && S.Next(cfg, v, a).Some? && !a.AcceptServe?
    requires !I.Serving(S.Next(cfg, v, a).value)
    ensures var h, h' := v.conn.hist, S.Next(cfg, v, a).value.conn.hist;
            h' == h || h' == h.(recycled := true)
  {
    hide Wrap64, Sub64, I.Wakeups, Respond, S.IoNext, S.SubNext, S.CompNext, S.RecvBytes, S.SendBytes, S.RequestTop;
    match a
    case IoStep =>
      H.IoHistory(v);
      if v.io.ReqCount? { CountServes(v); }
    case SubStep => H.SubHistory(v);
    case CompStep => CompHistory(cfg, v);
    case IoRecv(_) => SocketServes(cfg, v, a);
    case IoSend(_) => SocketServes(cfg, v, a);
    case _ => TopHistory(cfg, v, a);
  }

  lemma CompHistory(cfg: Config, v: S.Session)
    requires S.CompNext(cfg, v).Some?
    ensures S.CompNext(cfg, v).value.conn == v.conn
  {
    hide Respond;
  }

  lemma TopHistory(cfg: Config, v: S.Session, a: S.Act)
    requires S.Next(cfg, v, a).Some?
    requires !a.AcceptServe? && !a.IoStep? && !a.SubStep? && !a.CompStep? && !a.IoRecv? && !a.IoSend?
    ensures S.Next(cfg, v, a).value.conn.hist == v.conn.hist
  {
  }

  /** The socket is used only while the connection is served. */
  lemma SocketServes(cfg: Config, v: S.Session, a: S.Act)
    requires I.Inv(cfg, v) && S.Next(cfg, v, a).Some? && (a.IoRecv? || a.IoSend?)
    ensures I.Serving(S.Next(cfg, v, a).value)
  {
    hide I.Inv, S.RecvBytes, S.SendBytes;
    if a.IoRecv? {
      RecvServes(cfg, v, a.bytes);
    } else {
      SendServes(cfg, v, a.n);
    }
  }

  lemma RecvServes(cfg: Config, v: S.Session, bytes: Bytes)
    requires I.Inv(cfg, v) && S.RecvBytes(cfg, v, bytes).Some?
    ensures I.Serving(S.RecvBytes(cfg, v, bytes).value)
  {
    hide I.Wakeups, I.Shape, S.ReceivedInto, S.IoSize;
  }

  lemma SendServes(cfg: Config, v: S.Session, n: nat)
    requires I.Inv(cfg, v) && S.SendBytes(cfg, v, n).Some?
    ensures I.Serving(S.SendBytes(cfg, v, n).value)
  {
    hide I.Wakeups, I.Shape, S.SentSlice, S.IoSize;
  }

  lemma CountServes(v: S.Session)
    requires v.io.ReqCount? && S.IoNext(v).Some?
    ensures I.Serving(v) ==> I.Serving(S.IoNext(v).value)
  {
  }

  lemma LedgerStep(cfg: Config, v: S.Session, a: S.Act)
    requires ValidConfig(cfg) && I.Inv(cfg, v) && H.Faithful(cfg, v) && Ledger(cfg, v.conn.hist)
    requires S.Good(v, a) && S.Next(cfg, v, a).Some? && !a.AcceptServe?
    ensures Ledger(cfg, S.Next(cfg, v, a).value.conn.hist)
  {
    hide I.Inv, S.Next, H.Faithful, Flat;
    var w := S.Next(cfg, v, a).value;
    I.StepInv(cfg, v, a);
    H.StepFaithful(cfg, v, a);
    if I.Serving(w) {
      ServingLedger(cfg, w);
    } else {
      Frozen(cfg, v, a);
      var line :| Answers(cfg, v.conn.hist, line);
      assert Answers(cfg, w.conn.hist, line);
    }
  }

  // ---------------------------------------------------------------- the invariant

  ghost predicate Inv(cfg: Config, w: System, data: Bytes) {
    && C.Inv(w.client, data)
    && I.Inv(cfg, w.server) && H.Faithful(cfg, w.server) && Ledger(cfg, w.server.conn.hist)
    && w.server.conn.hist.rx <= w.client.tx
    && w.client.rx <= w.server.conn.hist.tx
  }

  lemma ResponsesSized(cfg: Config, reqs: seq<Bytes>)
    requires ValidConfig(cfg) && AllSized(reqs, REQUEST_SIZE)
    ensures AllSized(Responses(cfg, reqs), RESPONSE_SIZE)
    ensures |Flat(Responses(cfg, reqs))| == |reqs| * RESPONSE_SIZE
  {
    hide Flat;
    FlatLength(Responses(cfg, reqs), RESPONSE_SIZE);
  }

  lemma SameSize(a: seq<Bytes>, b: seq<Bytes>, size: nat)
    requires AllSized(a, size) && multiset(a) == multiset(b)
    ensures AllSized(b, size)
  {
    forall i | 0 <= i < |b| ensures |b[i]| == size {
      assert b[i] in multiset(b);
      assert b[i] in a;
    }
  }

  /** The delivered requests are the first that the client sent. */
  lemma Delivered(cfg: Config, w: System, data: Bytes)
    requires ValidConfig(cfg) && Inv(cfg, w, data)
    ensures var d := w.server.conn.hist.delivered;
            |d| <= w.client.sent && d == C.Requests(|d|, data)
  {
    hide Flat, C.Request, I.Inv, H.Faithful;
    var d := w.server.conn.hist.delivered;
    var all := C.Requests(w.client.sent, data);
    RequestSizes(w.client.sent, data);
    assert Flat(d) + [] == Flat(d);
    CutUnique(d, [], all, C.PartialOut(w.client), REQUEST_SIZE);
    assert all[..|d|] == C.Requests(|d|, data);
  }

  lemma RequestSizes(n: nat, data: Bytes)
    requires |data| == REQUEST_LENGTH
    ensures AllSized(C.Requests(n, data), REQUEST_SIZE)
  {
  }

  /** The bytes sent to the client answer no more than what it asked. */
  lemma TxBound(cfg: Config, w: System, data: Bytes)
    requires ValidConfig(cfg) && Inv(cfg, w, data)
    ensures |w.server.conn.hist.tx| <= RESPONSE_SIZE * w.client.sent
  {
    hide Flat, Responses, C.Requests, C.Inv, I.Inv, H.Faithful;
    var h := w.server.conn.hist;
    Delivered(cfg, w, data);
    var line :| Answers(cfg, h, line);
    SameSize(h.delivered, line, REQUEST_SIZE);
    ResponsesSized(cfg, line);
    assert |line| * RESPONSE_SIZE <= w.client.sent * RESPONSE_SIZE;
  }

  lemma {:induction false} StepInv(cfg: Config, w: System, data: Bytes, a: Act)
    requires ValidConfig(cfg) && Inv(cfg, w, data) && Next(cfg, w, a).Some?
    ensures Inv(cfg, Next(cfg, w, a).value, data)
  {
    hide Ledger, C.Inv, I.Inv, H.Faithful, C.Next, S.Next;
    match a
    case ClientDoes(c) =>
      TxBound(cfg, w, data);
      C.StepInv(w.client, data, c);
      ClientStreams(w.client, c);
    case ServerDoes(s) =>
      I.StepInv(cfg, w.server, s);
      H.StepFaithful(cfg, w.server, s);
      LedgerStep(cfg, w.server, s);
      ServerStreams(cfg, w.server, s);
  }

  lemma ClientStreams(c: C.Client, a: C.Act)
    requires C.Next(c, a).Some?
    ensures c.tx <= C.Next(c, a).value.tx
    ensures C.Next(c, a).value.rx == if a.Recv? then c.rx + a.bytes else c.rx
  {
  }

  /** The step grows the streams, or leaves them; only IoRecv adds to rx. */
  predicate Grows(h: S.History, h': S.History, bytes: Bytes) { h.tx <= h'.tx && h'.rx == h.rx + bytes }

  lemma ServerStreams(cfg: Config, v: S.Session, a: S.Act)
    requires S.Next(cfg, v, a).Some? && !a.AcceptServe?
    ensures Grows(v.conn.hist, S.Next(cfg, v, a).value.conn.hist, if a.IoRecv? then a.bytes else [])
  {
    hide Wrap64, Sub64, Respond, S.IoNext, S.SubNext, S.IoSize, S.ReceivedInto, S.SentSlice, S.TooFarAhead;
    if a == S.IoStep { H.IoHistory(v); }
    if a == S.SubStep { H.SubHistory(v); }
  }

  lemma {:induction false} RunInv(cfg: Config, ws: seq<System>, acts: seq<Act>, data: Bytes, n: nat)
    requires ValidConfig(cfg) && Run(cfg, ws, acts) && Initial(cfg, ws[0], data) && n <= |acts|
    ensures Inv(cfg, ws[n], data)
  {
    hide Next, Inv, Ledger;
    if n == 0 {
      InitInv(cfg, ws[0], data);
    } else {
      RunInv(cfg, ws, acts, data, n - 1);
      assert Next(cfg, ws[n - 1], acts[n - 1]) == Some(ws[n]);
      StepInv(cfg, ws[n - 1], data, acts[n - 1]);
    }
  }

  lemma InitInv(cfg: Config, w: System, data: Bytes)
    requires ValidConfig(cfg) && Initial(cfg, w, data)
    ensures Inv(cfg, w, data)
  {
    hide Ledger, H.Faithful, I.Inv, C.Inv, T.Reachable;
    T.ReachableKeeps(cfg, w.server);
    C.InitInv(w.client, data);
    ServingLedger(cfg, w.server);
  }

  lemma {:induction false} ReachableInv(cfg: Config, w: System, data: Bytes)
    requires ValidConfig(cfg) && Reachable(cfg, w, data)
    ensures Inv(cfg, w, data)
  {
    hide Inv, Initial;
    var ws, acts :| Run(cfg, ws, acts) && Initial(cfg, ws[0], data) && w == ws[|acts|];
    RunInv(cfg, ws, acts, data, |acts|);
  }

  lemma {:induction false} StepReaches(cfg: Config, w: System, a: Act, w': System, data: Bytes)
    requires Reachable(cfg, w, data) && Next(cfg, w, a) == Some(w')
    ensures Reachable(cfg, w', data)
  {
    hide Next, Initial;
    var ws, acts :| Run(cfg, ws, acts) && Initial(cfg, ws[0], data) && w == ws[|acts|];
    var ws', acts' := ws + [w'], acts + [a];
    forall i | 0 <= i < |acts'| ensures Next(cfg, ws'[i], acts'[i]) == Some(ws'[i + 1]) {
      if i < |acts| {
        assert Next(cfg, ws[i], acts[i]) == Some(ws[i + 1]);
      }
    }
    assert Run(cfg, ws', acts') && ws'[0] == ws[0] && w' == ws'[|acts'|];
  }

  /** Runs exist in every configuration: a client that has connected and the
      connection just accepted for it are where they start. */
  lemma {:induction false} Joined(cfg: Config, client: C.Client, data: Bytes) returns (w: System)
    requires C.Initial(client, data)
    ensures w.client == client && I.Serving(w.server) && Reachable(cfg, w, data)
  {
    hide T.Reachable;
    w := System(client, Y.Fresh());
    Y.FreshReachable(cfg);
    assert Run(cfg, [w], []) && Initial(cfg, [w][0], data);
  }

  // ---------------------------------------------------------------- end to end

  /** The n-th request the server delivers is the n-th the client made, and its
      id is n modulo 2^32. It holds after the connection, too. */
  lemma {:induction false} RequestsArrive(cfg: Config, w: System, data: Bytes, n: nat)
    requires ValidConfig(cfg) && Reachable(cfg, w, data) && n < |w.server.conn.hist.delivered|
    ensures n < w.client.sent
    ensures w.server.conn.hist.delivered[n] == C.Request(n, data)
    ensures |w.server.conn.hist.delivered[n]| == 1024
    ensures C.IdOf(w.server.conn.hist.delivered[n]) == n % 0x1_0000_0000
  {
    hide Inv, Reachable, C.IdOf;
    ReachableInv(cfg, w, data);
    Delivered(cfg, w, data);
    C.RequestId(n, data);
    DataSize(cfg, w, data);
  }

  lemma DataSize(cfg: Config, w: System, data: Bytes)
    requires Inv(cfg, w, data)
    ensures |data| == REQUEST_LENGTH
  {
  }

  /** The counters of the two ends and the three stages, in order, while the
      connection is served. */
  lemma {:induction false} CounterChain(cfg: Config, w: System, data: Bytes)
    requires ValidConfig(cfg) && Reachable(cfg, w, data) && I.Serving(w.server)
    ensures var k := w.server.conn;
            w.client.received <= k.sent <= k.processed <= k.received <= w.client.sent <= w.client.total
  {
    hide Reachable, H.Sound, H.Line, Flat, I.Wakeups, Ledger;
    ReachableInv(cfg, w, data);
    Delivered(cfg, w, data);
    SentBytes(cfg, w.server);
    assert RESPONSE_SIZE * w.client.received < RESPONSE_SIZE * (w.server.conn.sent + 1);
  }

  lemma SentBytes(cfg: Config, v: S.Session)
    requires ValidConfig(cfg) && I.Inv(cfg, v) && H.Faithful(cfg, v) && I.Serving(v)
    ensures |v.conn.hist.tx| < RESPONSE_SIZE * (v.conn.sent + 1)
  {
    hide Flat, Respond, I.Wakeups, H.Line;
    var ans := v.conn.hist.answered;
    forall i | 0 <= i < |ans| ensures |ans[i].res| == RESPONSE_SIZE {
      H.ReplySize(cfg, ans[i]);
    }
    if v.send != [] {
      H.ReplySize(cfg, v.send[0]);
    }
    FlatLength(H.Ress(ans), RESPONSE_SIZE);
  }

  function ResponseAt(rx: Bytes, n: nat): Bytes
    requires (n + 1) * RESPONSE_SIZE <= |rx|
  {
    rx[n * RESPONSE_SIZE..n * RESPONSE_SIZE + RESPONSE_SIZE]
  }

  /** Every response that the client receives answers one of its own requests,
      no two the same one; and if no trylock failed on the server, the n-th
      answers the n-th: it carries that id, and the digest of the data. */
  lemma {:induction false} ResponsesMatch(cfg: Config, w: System, data: Bytes) returns (line: seq<Bytes>)
    requires ValidConfig(cfg) && Reachable(cfg, w, data)
    ensures |w.client.rx| / RESPONSE_SIZE == w.client.received <= |line| <= w.client.sent
    ensures multiset(line) == multiset(C.Requests(|line|, data))
    ensures forall n :: 0 <= n < w.client.received ==>
              (n + 1) * RESPONSE_SIZE <= |w.client.rx| && ResponseAt(w.client.rx, n) == Respond(cfg, line[n])
    ensures !w.server.conn.hist.recycled ==>
              forall n :: 0 <= n < w.client.received ==>
                line[n] == C.Request(n, data) &&
                |ResponseAt(w.client.rx, n)| == 24 && C.IdOf(ResponseAt(w.client.rx, n)) == n % 0x1_0000_0000 &&
                ResponseAt(w.client.rx, n)[4..] == cfg.sha1(data)
  {
    hide Flat, Reachable, I.Inv, H.Faithful, Responses, Respond, C.IdOf;
    ReachableInv(cfg, w, data);
    Delivered(cfg, w, data);
    var h := w.server.conn.hist;
    line :| Answers(cfg, h, line);
    Received(cfg, w.client, data, line, h);
    forall n | 0 <= n < w.client.received && !h.recycled
      ensures var r := Respond(cfg, C.Request(n, data));
              |r| == 24 && C.IdOf(r) == n % 0x1_0000_0000 && r[4..] == cfg.sha1(data)
    {
      AnswerOf(cfg, n, data);
    }
  }

  lemma AnswerOf(cfg: Config, n: nat, data: Bytes)
    requires ValidConfig(cfg)
    ensures var r := Respond(cfg, C.Request(n, data));
            |r| == 24 && C.IdOf(r) == n % 0x1_0000_0000 && r[4..] == cfg.sha1(data)
  {
    C.RequestId(n, data);
    assert C.IdOf(Respond(cfg, C.Request(n, data))) == C.IdOf(C.Request(n, data));
  }

  lemma Received(cfg: Config, c: C.Client, data: Bytes, line: seq<Bytes>, h: S.History)
    requires ValidConfig(cfg) && C.Inv(c, data) && Answers(cfg, h, line) && c.rx <= h.tx
    requires AllSized(h.delivered, REQUEST_SIZE)
    ensures |c.rx| / RESPONSE_SIZE == c.received <= |line|
    ensures forall n :: 0 <= n < c.received ==>
              (n + 1) * RESPONSE_SIZE <= |c.rx| && ResponseAt(c.rx, n) == Respond(cfg, line[n])
  {
    hide Flat, C.Bounds, C.Interested, Respond;
    var all := Responses(cfg, line);
    SameSize(h.delivered, line, REQUEST_SIZE);
    ResponsesSized(cfg, line);
    assert RESPONSE_SIZE * c.received <= |line| * RESPONSE_SIZE;
    forall n | 0 <= n < c.received
      ensures (n + 1) * RESPONSE_SIZE <= |c.rx| && ResponseAt(c.rx, n) == Respond(cfg, line[n])
    {
      assert (n + 1) * RESPONSE_SIZE <= c.received * RESPONSE_SIZE;
      FlatAt(all, RESPONSE_SIZE, n);
      SliceOfPrefix(c.rx, Flat(all), n * RESPONSE_SIZE, n * RESPONSE_SIZE + RESPONSE_SIZE);
    }
  }

  /** When the client closes, it has had an answer to each request it sent, and
      without a failed trylock the bytes it has received are the answers in the
      order of the requests, nothing more and nothing less. */
  lemma {:induction false} ClientDone(cfg: Config, w: System, data: Bytes)
    requires ValidConfig(cfg) && Reachable(cfg, w, data) && !w.client.fdOpen
    ensures |w.server.conn.hist.delivered| == w.client.sent == w.client.total
    ensures !w.server.conn.hist.recycled ==>
              w.client.rx == Flat(Responses(cfg, C.Requests(w.client.total, data)))
  {
    hide Flat, Reachable, I.Inv, H.Faithful, Responses, Respond, C.Request;
    ReachableInv(cfg, w, data);
    Delivered(cfg, w, data);
    var h := w.server.conn.hist;
    var line :| Answers(cfg, h, line);
    Received(cfg, w.client, data, line, h);
    SameSize(h.delivered, line, REQUEST_SIZE);
    ResponsesSized(cfg, line);
    assert C.PartialIn(w.client) == 0;
    assert |w.client.rx| == |Flat(Responses(cfg, line))|;
  }
}
