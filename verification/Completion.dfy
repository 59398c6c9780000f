/** A client can always come to its end: from every state of a client and the
    connection that serves it, both can go on, with events that there is cause for
    and no call failing, until the client has sent all its requests, received all
    the answers, and closed; unless the server is bound to finish the connection
    before, or the client waits for input when all its answers are in.
 */
module Completion {
  import opened Rpc
  import C = ClientProtocol
  import S = SessionProtocol
  import I = SessionInvariant
  import H = SessionHistory
  import L = SessionLiveness
  import E = EndToEnd

  // ---------------------------------------------------------------- continuations

  /** No call fails, the events are those of the masks, with something to receive
      where there is input, and the stop flag stays down. */
  predicate Honest(w: E.System, a: E.Act) {
    match a
    case ClientDoes(c) =>
      !c.SendFail? && !c.RecvFail? && c != C.Begin(true) &&
      (c.Event? && c.inp ==> w.client.rx != w.server.conn.hist.tx)
    case ServerDoes(s) =>
      (L.Honest(w.server, s) || s.IoRecv?) && (s.IoEvent? && s.inp ==> w.server.conn.hist.rx != w.client.tx)
  }

  function Path(cfg: Config, w: E.System, acts: seq<E.Act>): Option<E.System> {
    if acts == [] then Some(w)
    else
      match Path(cfg, w, acts[..|acts| - 1])
      case None => None
      case Some(u) => if Honest(u, acts[|acts| - 1]) then E.Next(cfg, u, acts[|acts| - 1]) else None
  }

  lemma {:induction false} PathStep(cfg: Config, w: E.System, acts: seq<E.Act>, u: E.System, a: E.Act)
    requires Path(cfg, w, acts) == Some(u) && Honest(u, a)
    ensures Path(cfg, w, acts + [a]) == E.Next(cfg, u, a)
  {
    assert (acts + [a])[..|acts + [a]| - 1] == acts;
  }

  ghost predicate Led(cfg: Config, w0: E.System, w: E.System, data: Bytes) {
    && (exists acts :: Path(cfg, w0, acts) == Some(w))
    && E.Inv(cfg, w, data) && I.Serving(w.server) && w.client.total == w0.client.total
  }

  lemma {:induction false} ClientTakes(cfg: Config, w0: E.System, w: E.System, a: C.Act, data: Bytes)
    returns (w': E.System)
    requires ValidConfig(cfg) && Led(cfg, w0, w, data) && C.Next(w.client, a).Some?
    requires !a.SendFail? && !a.RecvFail? && a != C.Begin(true)
    requires a.Event? && a.inp ==> w.client.rx != w.server.conn.hist.tx
    requires a.Recv? ==> w.client.rx + a.bytes <= w.server.conn.hist.tx
    ensures w' == E.System(C.Next(w.client, a).value, w.server) && Led(cfg, w0, w', data)
  {
    hide Path, E.Inv, C.Next, I.Serving;
    var acts :| Path(cfg, w0, acts) == Some(w);
    var m := E.ClientDoes(a);
    PathStep(cfg, w0, acts, w, m);
    E.StepInv(cfg, w, data, m);
    w' := E.Next(cfg, w, m).value;
    SameTotal(w.client, a);
    assert Path(cfg, w0, acts + [m]) == Some(w');
  }

  lemma SameTotal(c: C.Client, a: C.Act)
    requires C.Next(c, a).Some? && a != C.Begin(true)
    ensures C.Next(c, a).value.total == c.total
  {
    hide C.Request;
  }

  lemma {:induction false} ServerTakes(cfg: Config, w0: E.System, w: E.System, a: S.Act, data: Bytes)
    returns (w': E.System)
    requires ValidConfig(cfg) && Led(cfg, w0, w, data) && S.Next(cfg, w.server, a).Some?
    requires L.Honest(w.server, a) || a.IoRecv?
    requires I.Serving(S.Next(cfg, w.server, a).value)
    requires a.IoEvent? && a.inp ==> w.server.conn.hist.rx != w.client.tx
    requires a.IoRecv? ==> w.server.conn.hist.rx + a.bytes <= w.client.tx
    ensures w' == E.System(w.client, S.Next(cfg, w.server, a).value) && Led(cfg, w0, w', data)
  {
    hide Path, E.Inv, S.Next, I.Serving;
    var acts :| Path(cfg, w0, acts) == Some(w);
    var m := E.ServerDoes(a);
    ServerMay(cfg, w, a, data);
    PathStep(cfg, w0, acts, w, m);
    E.StepInv(cfg, w, data, m);
    w' := E.Next(cfg, w, m).value;
    assert Path(cfg, w0, acts + [m]) == Some(w');
  }

  lemma ServerMay(cfg: Config, w: E.System, a: S.Act, data: Bytes)
    requires E.Inv(cfg, w, data) && I.Serving(w.server) && (L.Honest(w.server, a) || a.IoRecv?)
    requires a.IoRecv? ==> w.server.conn.hist.rx + a.bytes <= w.client.tx
    ensures E.Allowed(w, E.ServerDoes(a))
  {
    hide I.Inv, H.Faithful, C.Inv, E.Ledger, I.Serving, L.Honest, S.Good;
    if L.Honest(w.server, a) {
      L.HonestIsGood(cfg, w.server, a);
      L.Accepts(w.server, a);
    } else {
      GoodRecv(w.server, a);
    }
  }

  lemma GoodRecv(v: S.Session, a: S.Act)
    requires a.IoRecv?
    ensures S.Good(v, a)
  {
  }

  // ---------------------------------------------------------------- the client sends everything

  /** What brings the client to its next send. */
  function OutAct(c: C.Client): C.Act {
    match c.pc
    case Waiting => C.Event(true, false)
    case OutTop(_) => C.Begin(false)
    case OutSend(_) => C.Send(c.sendLeft)
    case InRecv => C.RecvAgain
    case _ => C.Step
  }

  function OutRank(pc: C.Pc): nat {
    match pc
    case OutSend(_) => 1
    case OutTop(_) => 2
    case Waiting => 3
    case InEnd => 4
    case InRecv => 5
    case InTop => 6
    case OutEnd(_) => 7
  }

  lemma OutMoves(c: C.Client, data: Bytes)
    requires C.Inv(c, data) && c.sent < c.total
    ensures C.Next(c, OutAct(c)).Some? && !OutAct(c).Recv?
    ensures var d := C.Next(c, OutAct(c)).value;
            && d.received == c.received && d.fdOpen == c.fdOpen
            && (d.sent > c.sent || (d.sent == c.sent && OutRank(d.pc) < OutRank(c.pc)))
  {
    hide C.Request, C.Requests, Flat;
  }

  lemma {:induction false} ClientSends(cfg: Config, w0: E.System, w: E.System, data: Bytes) returns (w': E.System)
    requires ValidConfig(cfg) && Led(cfg, w0, w, data)
    ensures Led(cfg, w0, w', data) && w'.server == w.server && w'.client.sent == w'.client.total
    ensures w'.client.received == w.client.received && w'.client.fdOpen == w.client.fdOpen
    ensures w.client.sent == w.client.total ==> w' == w
    decreases w.client.total - w.client.sent, OutRank(w.client.pc)
  {
    hide Led, C.Next, OutRank, OutAct;
    InvOf(cfg, w0, w, data);
    if w.client.sent == w.client.total {
      w' := w;
    } else {
      OutMoves(w.client, data);
      OutHonest(w.client);
      w' := ClientTakes(cfg, w0, w, OutAct(w.client), data);
      InvOf(cfg, w0, w', data);
      w' := ClientSends(cfg, w0, w', data);
    }
  }

  lemma OutHonest(c: C.Client)
    ensures var a := OutAct(c); !a.SendFail? && !a.RecvFail? && a != C.Begin(true) && (a.Event? ==> !a.inp)
  {
  }

  lemma InvOf(cfg: Config, w0: E.System, w: E.System, data: Bytes)
    requires Led(cfg, w0, w, data)
    ensures C.Inv(w.client, data) && w.client.sent <= w.client.total == w0.client.total
    ensures I.Inv(cfg, w.server) && H.Faithful(cfg, w.server) && I.Serving(w.server)
    ensures w.server.conn.hist.rx <= w.client.tx && w.client.rx <= w.server.conn.hist.tx
  {
    hide C.Streams, C.Interested, I.Inv, H.Faithful, E.Ledger, I.Serving, Path;
  }

  /** With all sent, and answers to come, it goes back to its wait. */
  lemma BackMoves(c: C.Client, data: Bytes)
    requires C.Inv(c, data) && c.received < c.sent == c.total && c.pc != C.Waiting
    ensures C.Next(c, OutAct(c)).Some? && !OutAct(c).Recv?
    ensures var d := C.Next(c, OutAct(c)).value;
            && d.sent == c.sent && d.received == c.received && d.fdOpen == c.fdOpen
            && OutRank(d.pc) < OutRank(c.pc)
  {
    hide C.Streams;
  }

  lemma {:induction false} ClientRests(cfg: Config, w0: E.System, w: E.System, data: Bytes) returns (w': E.System)
    requires ValidConfig(cfg) && Led(cfg, w0, w, data) && w.client.received < w.client.sent == w.client.total
    ensures Led(cfg, w0, w', data) && w'.server == w.server && w'.client.pc == C.Waiting
    ensures w'.client.received == w.client.received && w'.client.sent == w'.client.total
    ensures w'.client.fdOpen == w.client.fdOpen
    decreases if w.client.pc == C.Waiting then 0 else OutRank(w.client.pc) + 8
  {
    hide Led, C.Next, OutRank, OutAct;
    InvOf(cfg, w0, w, data);
    if w.client.pc == C.Waiting {
      w' := w;
    } else {
      BackMoves(w.client, data);
      OutHonest(w.client);
      w' := ClientTakes(cfg, w0, w, OutAct(w.client), data);
      InvOf(cfg, w0, w', data);
      w' := ClientRests(cfg, w0, w', data);
    }
  }

  // ---------------------------------------------------------------- the server receives and answers everything

  lemma {:induction false} PathInv(cfg: Config, v: S.Session, acts: seq<S.Act>)
    requires ValidConfig(cfg) && I.Inv(cfg, v) && L.Path(cfg, v, acts).Some?
    ensures I.Inv(cfg, L.Path(cfg, v, acts).value)
  {
    hide I.Inv, S.Next, S.Good, L.Honest;
    if acts != [] {
      PathInv(cfg, v, acts[..|acts| - 1]);
      I.StepInv(cfg, L.Path(cfg, v, acts[..|acts| - 1]).value, acts[|acts| - 1]);
    }
  }

  /** A path of the session, while the client stands still. */
  lemma {:induction false} ServerFollows(cfg: Config, w0: E.System, w: E.System, acts: seq<S.Act>, data: Bytes)
    returns (w': E.System)
    requires ValidConfig(cfg) && Led(cfg, w0, w, data)
    requires L.Path(cfg, w.server, acts).Some? && I.Serving(L.Path(cfg, w.server, acts).value) && L.Frugal(acts)
    ensures Led(cfg, w0, w', data) && w' == E.System(w.client, L.Path(cfg, w.server, acts).value)
  {
    hide Led, I.Inv, I.Serving, S.Next, S.Good, L.Honest, L.Frugal;
    if acts == [] {
      w' := w;
    } else {
      var u, a := L.Path(cfg, w.server, acts[..|acts| - 1]).value, acts[|acts| - 1];
      InvOf(cfg, w0, w, data);
      L.LastIsSpare(acts);
      PathInv(cfg, w.server, acts[..|acts| - 1]);
      L.Accepts(u, a);
      H.ServedBefore(cfg, u, a);
      w' := ServerFollows(cfg, w0, w, acts[..|acts| - 1], data);
      w' := ServerTakes(cfg, w0, w', a, data);
    }
  }

  predicate Done(v: S.Session) { L.Settled(v) && v.conn.sent == v.conn.received }

  lemma {:induction false} ServerAnswers(cfg: Config, w0: E.System, w: E.System, data: Bytes) returns (w': E.System)
    requires ValidConfig(cfg) && Led(cfg, w0, w, data) && !L.Doomed(w.server)
    ensures Led(cfg, w0, w', data) && w'.client == w.client && Done(w'.server)
    ensures w'.server.conn.hist.rx == w.server.conn.hist.rx
  {
    hide Led, L.Path, L.Settled, L.Doomed, H.Faithful, I.Inv, I.Serving;
    InvOf(cfg, w0, w, data);
    var acts := L.AnswersFrom(cfg, w.server);
    w' := ServerFollows(cfg, w0, w, acts, data);
  }

  lemma EventIn(cfg: Config, v: S.Session)
    requires I.Inv(cfg, v) && I.Serving(v) && v.io == S.IoIdle
    ensures L.Honest(v, S.IoEvent(false, false, true))
    ensures S.Next(cfg, v, S.IoEvent(false, false, true)) == Some(v.(io := S.ReqTop)) && I.Serving(v.(io := S.ReqTop))
  {
    hide I.Shape, I.Counts;
  }

  lemma TopIn(cfg: Config, v: S.Session)
    requires I.Inv(cfg, v) && I.Serving(v) && v.io == S.ReqTop && v.conn.sent == v.conn.received
    ensures L.Honest(v, S.IoReqTop(Some(0))) && S.Next(cfg, v, S.IoReqTop(Some(0))).Some?
    ensures var w := S.Next(cfg, v, S.IoReqTop(Some(0))).value;
            I.Serving(w) && w.io == S.ReqRecv && w.conn.hist == v.conn.hist
  {
    hide I.Shape, I.Wakeups;
  }

  /** As many bytes as there are, and as the call asks for. */
  lemma RecvIn(cfg: Config, v: S.Session, avail: Bytes) returns (n: nat)
    requires ValidConfig(cfg) && I.Inv(cfg, v) && H.Faithful(cfg, v) && I.Serving(v) && v.io == S.ReqRecv && avail != []
    ensures 0 < n <= |avail| && S.Next(cfg, v, S.IoRecv(avail[..n])).Some?
    ensures var w := S.Next(cfg, v, S.IoRecv(avail[..n])).value;
            I.Serving(w) && !L.Doomed(w) && w.conn.hist.rx == v.conn.hist.rx + avail[..n]
  {
    hide I.Counts, I.Wakeups, H.Sound, H.InLine, Flat;
    n := Min(S.IoSize(cfg, v.recv[0]), |avail|);
  }

  lemma {:induction false} ReceiveSome(cfg: Config, w0: E.System, w: E.System, data: Bytes) returns (w': E.System)
    requires ValidConfig(cfg) && Led(cfg, w0, w, data) && Done(w.server) && w.server.conn.hist.rx != w.client.tx
    ensures Led(cfg, w0, w', data) && w'.client == w.client && !L.Doomed(w'.server)
    ensures |w.server.conn.hist.rx| < |w'.server.conn.hist.rx|
  {
    hide Led, S.Next, H.Faithful, I.Inv, I.Serving, L.Honest, L.Doomed;
    InvOf(cfg, w0, w, data);
    EventIn(cfg, w.server);
    w' := ServerTakes(cfg, w0, w, S.IoEvent(false, false, true), data);
    InvOf(cfg, w0, w', data);
    TopIn(cfg, w'.server);
    w' := ServerTakes(cfg, w0, w', S.IoReqTop(Some(0)), data);
    InvOf(cfg, w0, w', data);
    var rx, tx := w'.server.conn.hist.rx, w'.client.tx;
    var avail := tx[|rx|..];
    var n := RecvIn(cfg, w'.server, avail);
    assert rx + avail[..n] == tx[..|rx| + n];
    w' := ServerTakes(cfg, w0, w', S.IoRecv(avail[..n]), data);
  }

  lemma {:induction false} ServerReceives(cfg: Config, w0: E.System, w: E.System, data: Bytes) returns (w': E.System)
    requires ValidConfig(cfg) && Led(cfg, w0, w, data) && !L.Doomed(w.server)
    ensures Led(cfg, w0, w', data) && w'.client == w.client && Done(w'.server)
    ensures w'.server.conn.hist.rx == w.client.tx
    decreases |w.client.tx| - |w.server.conn.hist.rx|
  {
    hide Led, L.Doomed, L.Settled, Done;
    w' := ServerAnswers(cfg, w0, w, data);
    InvOf(cfg, w0, w', data);
    if w'.server.conn.hist.rx != w.client.tx {
      w' := ReceiveSome(cfg, w0, w', data);
      InvOf(cfg, w0, w', data);
      w' := ServerReceives(cfg, w0, w', data);
    }
  }

  /** The server has sent the answers that it counts; with all received, they are
      the answers to all that the client has sent. */
  lemma TxSize(cfg: Config, v: S.Session)
    requires ValidConfig(cfg) && I.Inv(cfg, v) && H.Faithful(cfg, v) && I.Serving(v)
    ensures |v.conn.hist.tx| >= RESPONSE_SIZE * v.conn.sent
  {
    hide Flat, Respond, I.Wakeups, H.Line, H.Framed;
    var ans := v.conn.hist.answered;
    forall i | 0 <= i < |ans| ensures |ans[i].res| == RESPONSE_SIZE {
      H.ReplySize(cfg, ans[i]);
    }
    FlatLength(H.Ress(ans), RESPONSE_SIZE);
    TxHas(cfg, v);
  }

  lemma TxHas(cfg: Config, v: S.Session)
    requires H.Faithful(cfg, v) && I.Serving(v)
    ensures Flat(H.Ress(v.conn.hist.answered)) <= v.conn.hist.tx && |v.conn.hist.answered| == v.conn.sent
  {
    hide Flat, H.Sound, H.Line;
  }

  lemma AllReceived(cfg: Config, w: E.System, data: Bytes)
    requires ValidConfig(cfg) && E.Inv(cfg, w, data) && I.Serving(w.server) && Done(w.server)
    requires w.client.sent == w.client.total && w.server.conn.hist.rx == w.client.tx
    ensures w.server.conn.sent == w.client.total
  {
    hide Flat, C.Requests, I.Wakeups, H.Line, H.Sound, E.Ledger;
    var d := w.server.conn.hist.delivered;
    RequestsAre(w.client.sent, data);
    RecvPart(cfg, w.server);
    FlatLength(d, REQUEST_SIZE);
    FlatLength(C.Requests(w.client.sent, data), REQUEST_SIZE);
    assert |d| * REQUEST_SIZE + |H.PartialRequest(w.server)| == w.client.sent * REQUEST_SIZE;
  }

  lemma RequestsAre(n: nat, data: Bytes)
    requires |data| == REQUEST_LENGTH
    ensures |C.Requests(n, data)| == n && AllSized(C.Requests(n, data), REQUEST_SIZE)
  {
  }

  lemma RecvPart(cfg: Config, v: S.Session)
    requires I.Inv(cfg, v) && H.Faithful(cfg, v) && I.Serving(v) && v.io == S.IoIdle
    ensures |H.PartialRequest(v)| < REQUEST_SIZE && |v.conn.hist.delivered| == v.conn.received
    ensures v.conn.hist.rx == Flat(v.conn.hist.delivered) + H.PartialRequest(v)
    ensures AllSized(v.conn.hist.delivered, REQUEST_SIZE)
  {
    hide Flat, I.Wakeups, I.Counts, H.Line, H.Sound;
  }

  // ---------------------------------------------------------------- the client receives everything

  /** What the client does when all the answers are there: it waits for input, and
      takes the rest of a response at once. */
  function InAct(c: C.Client, tx: Bytes): C.Act {
    match c.pc
    case Waiting => C.Event(false, true)
    case InRecv =>
      if c.received == c.total then C.RecvAgain
      else C.Recv(if |c.rx| + c.recvLeft <= |tx| then tx[|c.rx|..|c.rx| + c.recvLeft] else [])
    case _ => C.Step
  }

  function InRank(pc: C.Pc): nat {
    match pc
    case OutEnd(_) => 5
    case Waiting => 4
    case InTop => 3
    case InRecv => 2
    case _ => 1
  }

  /** On its way to its end, without anything more to send. */
  predicate Receiving(c: C.Client) {
    c.fdOpen && c.sent == c.total &&
    ((c.pc.Waiting? && c.received < c.total) || c.pc == C.OutEnd(true) || c.pc.InTop? || c.pc.InRecv? ||
     (c.pc.InEnd? && c.received == c.total))
  }

  lemma InMoves(c: C.Client, data: Bytes, tx: Bytes)
    requires C.Inv(c, data) && Receiving(c) && c.rx <= tx && |tx| >= RESPONSE_SIZE * c.total
    ensures var a := InAct(c, tx);
            && !a.SendFail? && !a.RecvFail? && !a.Begin? && C.Next(c, a).Some?
            && (a.Recv? ==> c.rx + a.bytes <= tx) && (a.Event? && a.inp ==> c.rx != tx)
    ensures var d := C.Next(c, InAct(c, tx)).value;
            !d.fdOpen || (Receiving(d) && d.received >= c.received &&
                          (d.received > c.received || InRank(d.pc) < InRank(c.pc)))
  {
    hide C.Request, C.Requests, Flat;
    if c.received < c.total { Fits(c, data, tx); }
  }

  lemma Fits(c: C.Client, data: Bytes, tx: Bytes)
    requires C.Inv(c, data) && c.received < c.total && |tx| >= RESPONSE_SIZE * c.total && c.rx <= tx
    ensures |c.rx| + c.recvLeft <= |tx| && c.rx + tx[|c.rx|..|c.rx| + c.recvLeft] <= tx && c.rx != tx
  {
    hide C.Request, C.Requests, Flat;
    assert RESPONSE_SIZE * (c.received + 1) <= RESPONSE_SIZE * c.total;
    assert c.rx == tx[..|c.rx|];
  }

  lemma {:induction false} ClientReceives(cfg: Config, w0: E.System, w: E.System, data: Bytes) returns (w': E.System)
    requires ValidConfig(cfg) && Led(cfg, w0, w, data) && Receiving(w.client)
    requires |w.server.conn.hist.tx| >= RESPONSE_SIZE * w.client.total
    ensures Led(cfg, w0, w', data) && !w'.client.fdOpen
    decreases w.client.total - w.client.received, InRank(w.client.pc)
  {
    hide Led, C.Next, InRank, InAct, Receiving, C.Inv;
    InvOf(cfg, w0, w, data);
    InMoves(w.client, data, w.server.conn.hist.tx);
    w' := ClientTakes(cfg, w0, w, InAct(w.client, w.server.conn.hist.tx), data);
    InvOf(cfg, w0, w', data);
    Ordered(w.client, data);
    Ordered(w'.client, data);
    if w'.client.fdOpen {
      w' := ClientReceives(cfg, w0, w', data);
    }
  }

  lemma Ordered(c: C.Client, data: Bytes)
    requires C.Inv(c, data)
    ensures c.received <= c.sent <= c.total
  {
    hide C.Streams;
  }

  // ---------------------------------------------------------------- the client's end

  ghost predicate CanEnd(cfg: Config, w: E.System) {
    exists acts :: Path(cfg, w, acts).Some? && !Path(cfg, w, acts).value.client.fdOpen
  }

  /** All its answers are in, and it goes to wait for input. That is where the stop
      flag leaves it when it cuts `total` to what is answered already; the code
      closes the descriptor only after an event of input. */
  predicate Idle(c: C.Client) {
    c.fdOpen && c.received == c.total && (c.pc == C.Waiting || c.pc == C.OutEnd(false))
  }

  /** From every reachable state in which the connection is served: with the stop
      flag down from now on and no call failing, the client can come to its end,
      with all its requests answered, if and only if it has come to it already; or
      it does not wait for input with all its answers in, and the server is not
      bound to finish the connection or has sent all the answers. */
  lemma {:induction false} ClientCanEnd(cfg: Config, w: E.System, data: Bytes)
    requires ValidConfig(cfg) && E.Reachable(cfg, w, data) && I.Serving(w.server)
    ensures CanEnd(cfg, w) <==>
            !w.client.fdOpen ||
            (!Idle(w.client) && (!L.Doomed(w.server) || w.server.conn.sent == w.client.total))
  {
    hide E.Reachable, E.Inv, CanEnd, L.Doomed, I.Serving, Idle;
    E.ReachableInv(cfg, w, data);
    Starts(cfg, w, data);
    if !w.client.fdOpen {
      AtEnd(cfg, w);
    } else if Idle(w.client) {
      LeftOpen(cfg, w, data);
    } else if !L.Doomed(w.server) || w.server.conn.sent == w.client.total {
      Ends(cfg, w, data);
    } else {
      E.CounterChain(cfg, w, data);
      CutOff(cfg, w, data);
    }
  }

  lemma Starts(cfg: Config, w: E.System, data: Bytes)
    requires E.Inv(cfg, w, data) && I.Serving(w.server)
    ensures Led(cfg, w, w, data)
  {
    assert Path(cfg, w, []) == Some(w);
  }

  lemma AtEnd(cfg: Config, w: E.System)
    requires !w.client.fdOpen
    ensures CanEnd(cfg, w)
  {
    assert Path(cfg, w, []) == Some(w);
  }

  lemma {:induction false} Ends(cfg: Config, w: E.System, data: Bytes)
    requires ValidConfig(cfg) && Led(cfg, w, w, data) && w.client.fdOpen && !Idle(w.client)
    requires !L.Doomed(w.server) || w.server.conn.sent == w.client.total
    ensures CanEnd(cfg, w)
  {
    hide Led, L.Doomed, Receiving, Done, Idle, C.Inv;
    InvOf(cfg, w, w, data);
    Ordered(w.client, data);
    var w1 := ClientSends(cfg, w, w, data);
    InvOf(cfg, w, w1, data);
    Ordered(w1.client, data);
    if w1.client.received == w1.client.total {
      NotIdle(w.client, data);
      RxSize(w1.client, data);
    } else {
      w1 := ClientRests(cfg, w, w1, data);
      if !L.Doomed(w1.server) {
        w1 := ServerReceives(cfg, w, w1, data);
        Complete(cfg, w, w1, data);
      }
      InvOf(cfg, w, w1, data);
      TxSize(cfg, w1.server);
      WaitsOpen(w1.client);
    }
    w1 := ClientReceives(cfg, w, w1, data);
    Reached(cfg, w, w1, data);
  }

  lemma NotIdle(c: C.Client, data: Bytes)
    requires C.Inv(c, data) && c.fdOpen && !Idle(c) && c.received == c.total
    ensures Receiving(c)
  {
    hide C.Streams, C.Interested;
  }

  lemma RxSize(c: C.Client, data: Bytes)
    requires C.Inv(c, data)
    ensures |c.rx| >= RESPONSE_SIZE * c.received
  {
    hide Flat, C.Requests;
  }

  lemma Complete(cfg: Config, w0: E.System, w: E.System, data: Bytes)
    requires ValidConfig(cfg) && Led(cfg, w0, w, data) && Done(w.server) && w.client.sent == w.client.total
    requires w.server.conn.hist.rx == w.client.tx
    ensures w.server.conn.sent == w.client.total
  {
    hide Path, E.Inv, Done;
    AllReceived(cfg, w, data);
  }

  lemma WaitsOpen(c: C.Client)
    requires c.fdOpen && c.received < c.sent == c.total && c.pc == C.Waiting
    ensures Receiving(c)
  {
  }

  lemma Reached(cfg: Config, w: E.System, w1: E.System, data: Bytes)
    requires Led(cfg, w, w1, data) && !w1.client.fdOpen
    ensures CanEnd(cfg, w)
  {
    hide Path, E.Inv;
    var acts :| Path(cfg, w, acts) == Some(w1);
  }

  // ---------------------------------------------------------------- cut off

  lemma SendsOnly(cfg: Config, v: S.Session, a: S.Act)
    requires S.Next(cfg, v, a).Some? && !a.AcceptServe?
    ensures a.IoSend? ==> v.io.RespSend?
    ensures !a.IoSend? ==> S.Next(cfg, v, a).value.conn.hist.tx == v.conn.hist.tx
  {
    hide Wrap64, Sub64, Respond, S.IoNext, S.SubNext, S.IoSize, S.ReceivedInto, S.SentSlice, S.TooFarAhead;
    if a == S.IoStep { H.IoHistory(v); }
    if a == S.SubStep { H.SubHistory(v); }
  }

  lemma ServesToSend(cfg: Config, v: S.Session)
    requires I.Inv(cfg, v) && v.io.RespSend?
    ensures I.Serving(v) && !L.Doomed(v)
  {
    hide I.Shape, I.Wakeups;
  }

  /** A server bound to finish sends nothing more, and serves no more. */
  lemma SilentStep(cfg: Config, v: S.Session, u: S.Session, a: S.Act)
    requires I.Inv(cfg, v) && I.Serving(v) && L.Doomed(v) && I.Inv(cfg, u) && (u == v || !I.Serving(u))
    requires S.Next(cfg, u, a).Some? && (L.Honest(u, a) || a.IoRecv?)
    ensures !I.Serving(S.Next(cfg, u, a).value) && S.Next(cfg, u, a).value.conn.hist.tx == u.conn.hist.tx
  {
    hide I.Inv, I.Serving, L.Doomed, S.Next, L.Honest;
    ActsOf(cfg, u, a);
    SendsOnly(cfg, u, a);
    if u.io.RespSend? { ServesToSend(cfg, u); }
    if u == v {
      NoRecv(cfg, v, a);
      L.DoomedStep(cfg, v, a);
    } else if I.Serving(S.Next(cfg, u, a).value) {
      H.ServedBefore(cfg, u, a);
    }
  }

  lemma ActsOf(cfg: Config, u: S.Session, a: S.Act)
    requires L.Honest(u, a) || a.IoRecv?
    ensures !a.AcceptServe?
  {
  }

  lemma NoRecv(cfg: Config, v: S.Session, a: S.Act)
    requires L.Doomed(v) && S.Next(cfg, v, a).Some?
    ensures !a.IoRecv?
  {
  }

  lemma {:induction false} Silent(cfg: Config, w: E.System, acts: seq<E.Act>, data: Bytes)
    requires ValidConfig(cfg) && E.Inv(cfg, w, data) && I.Serving(w.server) && L.Doomed(w.server)
    requires Path(cfg, w, acts).Some?
    ensures var u := Path(cfg, w, acts).value;
            && E.Inv(cfg, u, data) && u.client.total == w.client.total
            && u.server.conn.hist.tx == w.server.conn.hist.tx
            && (u.server == w.server || !I.Serving(u.server))
  {
    hide E.Inv, I.Serving, L.Doomed, C.Next, S.Next, L.Honest, S.Good;
    if acts != [] {
      var u, a := Path(cfg, w, acts[..|acts| - 1]).value, acts[|acts| - 1];
      Silent(cfg, w, acts[..|acts| - 1], data);
      E.StepInv(cfg, u, data, a);
      Parts(cfg, w, data);
      Parts(cfg, u, data);
      match a
      case ClientDoes(c) => SameTotal(u.client, c);
      case ServerDoes(s) => SilentStep(cfg, w.server, u.server, s);
    }
  }

  lemma Parts(cfg: Config, w: E.System, data: Bytes)
    requires E.Inv(cfg, w, data)
    ensures I.Inv(cfg, w.server) && H.Faithful(cfg, w.server) && C.Inv(w.client, data)
    ensures w.client.rx <= w.server.conn.hist.tx
  {
    hide C.Inv, I.Inv, H.Faithful, E.Ledger;
  }

  /** So what the client can receive falls short. */
  lemma {:induction false} CutOff(cfg: Config, w: E.System, data: Bytes)
    requires ValidConfig(cfg) && E.Inv(cfg, w, data) && I.Serving(w.server) && L.Doomed(w.server)
    requires w.server.conn.sent < w.client.total
    ensures !CanEnd(cfg, w)
  {
    hide E.Inv, Path, I.Serving, L.Doomed, C.Inv;
    if CanEnd(cfg, w) {
      var acts :| Path(cfg, w, acts).Some? && !Path(cfg, w, acts).value.client.fdOpen;
      Silent(cfg, w, acts, data);
      var u := Path(cfg, w, acts).value;
      Parts(cfg, w, data);
      Parts(cfg, u, data);
      E.SentBytes(cfg, w.server);
      AllIn(u.client, data);
      TooFew(w.server.conn.sent, u.client.total);
    }
  }

  lemma TooFew(sent: nat, total: nat)
    requires sent < total
    ensures RESPONSE_SIZE * (sent + 1) <= RESPONSE_SIZE * total
  {
  }

  lemma AllIn(c: C.Client, data: Bytes)
    requires C.Inv(c, data) && !c.fdOpen
    ensures |c.rx| >= RESPONSE_SIZE * c.total
  {
    hide Flat, C.Requests;
  }

  // ---------------------------------------------------------------- left open

  /** Nothing is to come, on either stream. */
  lemma NothingToCome(cfg: Config, w: E.System, data: Bytes)
    requires ValidConfig(cfg) && E.Inv(cfg, w, data) && Idle(w.client)
    ensures w.client.rx == w.server.conn.hist.tx && w.client.sent == w.client.total
    ensures w.client.pc == C.Waiting ==> !w.client.watch.value.wr
  {
    hide Flat, C.Requests, I.Inv, H.Faithful, E.Ledger;
    E.TxBound(cfg, w, data);
    assert RESPONSE_SIZE * w.client.received == RESPONSE_SIZE * w.client.sent;
  }

  lemma IdleStep(c: C.Client, data: Bytes, a: C.Act)
    requires C.Inv(c, data) && Idle(c) && C.Next(c, a).Some?
    requires c.sent == c.total && (c.pc == C.Waiting ==> !c.watch.value.wr) && (a.Event? ==> !a.inp)
    ensures Idle(C.Next(c, a).value)
  {
    hide C.Streams, C.Request;
  }

  lemma {:induction false} StaysIdle(cfg: Config, w: E.System, acts: seq<E.Act>, data: Bytes)
    requires ValidConfig(cfg) && E.Inv(cfg, w, data) && Idle(w.client) && Path(cfg, w, acts).Some?
    ensures E.Inv(cfg, Path(cfg, w, acts).value, data) && Idle(Path(cfg, w, acts).value.client)
  {
    hide E.Inv, C.Next, S.Next, L.Honest, S.Good, Idle;
    if acts != [] {
      var u, a := Path(cfg, w, acts[..|acts| - 1]).value, acts[|acts| - 1];
      StaysIdle(cfg, w, acts[..|acts| - 1], data);
      E.StepInv(cfg, u, data, a);
      if a.ClientDoes? {
        Parts(cfg, u, data);
        NothingToCome(cfg, u, data);
        IdleStep(u.client, data, a.c);
      }
    }
  }

  lemma {:induction false} LeftOpen(cfg: Config, w: E.System, data: Bytes)
    requires ValidConfig(cfg) && E.Inv(cfg, w, data) && Idle(w.client)
    ensures !CanEnd(cfg, w)
  {
    hide E.Inv, Path;
    if CanEnd(cfg, w) {
      var acts :| Path(cfg, w, acts).Some? && !Path(cfg, w, acts).value.client.fdOpen;
      StaysIdle(cfg, w, acts, data);
    }
  }

  /** It comes to that: the flag is seen before the first request. */
  lemma {:induction false} FlagLeavesOpen(cfg: Config, client: C.Client, data: Bytes) returns (w: E.System)
    requires ValidConfig(cfg) && C.Initial(client, data)
    ensures E.Reachable(cfg, w, data) && I.Serving(w.server) && Idle(w.client)
  {
    hide I.Serving, E.Initial;
    var w0 := E.Joined(cfg, client, data);
    w := E.System(client.(pc := C.OutTop(false)), w0.server);
    var w2 := E.System(client.(pc := C.OutEnd(false), total := 0), w0.server);
    E.StepReaches(cfg, w0, E.ClientDoes(C.Event(true, false)), w, data);
    E.StepReaches(cfg, w, E.ClientDoes(C.Begin(true)), w2, data);
    w := w2;
  }
}
