/** The client's handlers as loops over the fields of a connection
    (src/client/worker.c), each proved to take it through steps of
    ClientProtocol and to keep the invariant there; the loops end because the
    bytes still owed, in either direction, go down.
 */
module ClientWorker {
  import opened Rpc
  import opened Epoll
  import C = ClientProtocol

  // ---------------------------------------------------------------- paths

  function After(c: C.Client, acts: seq<C.Act>): Option<C.Client> {
    if acts == [] then Some(c)
    else
      match After(c, acts[..|acts| - 1])
      case None => None
      case Some(d) => if C.Answerable(d, acts[|acts| - 1]) then C.Next(d, acts[|acts| - 1]) else None
  }

  predicate IsCall(a: C.Act) {
    a.Send? || a.SendAgain? || a.SendFail? || a.Recv? || a.RecvAgain? || a.RecvFail?
  }

  /** The acts of a path that are results of send and recv. */
  function Calls(acts: seq<C.Act>): seq<C.Act> {
    if acts == [] then []
    else Calls(acts[..|acts| - 1]) + (if IsCall(acts[|acts| - 1]) then [acts[|acts| - 1]] else [])
  }

  /** The events that a path takes. */
  function Events(acts: seq<C.Act>): seq<C.Act> {
    if acts == [] then []
    else Events(acts[..|acts| - 1]) + (if acts[|acts| - 1].Event? then [acts[|acts| - 1]] else [])
  }

  ghost method Extend(c: C.Client, data: Bytes, acts: seq<C.Act>, d: C.Client, a: C.Act) returns (path: seq<C.Act>)
    requires After(c, acts) == Some(d) && C.Inv(d, data)
    requires C.Answerable(d, a) && C.Next(d, a).Some?
    ensures After(c, path) == C.Next(d, a) && C.Inv(C.Next(d, a).value, data)
    ensures Calls(path) == Calls(acts) + (if IsCall(a) then [a] else [])
    ensures Events(path) == Events(acts) + (if a.Event? then [a] else [])
  {
    hide C.Inv, C.Next, C.Answerable, IsCall;
    path := acts + [a];
    assert path[..|path| - 1] == acts;
    C.StepInv(d, data, a);
  }

  // ---------------------------------------------------------------- the server's end

  datatype RecvResult = Data(bytes: Bytes) | Again | Fail

  /** The client's socket. Calls that do not fail move at least one byte; `log`
      has the results. */
  class Peer {
    var taken: Bytes
    ghost var log: seq<C.Act>

    method Send(bytes: Bytes) returns (n: int, again: bool)
      requires bytes != []
      modifies this
      ensures n == -1 || 0 < n <= |bytes|
      ensures taken == old(taken) + (if n < 0 then [] else bytes[..n]) && log == old(log) + [SendAct(n, again)]
    {
      var k: nat :| k <= |bytes|;
      n := if k == 0 then -1 else k;
      again := *;
      if n > 0 {
        taken := taken + bytes[..n];
      }
      log := log + [SendAct(n, again)];
    }

    /** At most `owed` bytes of answers can be there. */
    method Recv(max: nat, owed: nat) returns (r: RecvResult)
      modifies this`log
      ensures r.Data? ==> 0 < |r.bytes| <= max && |r.bytes| <= owed
      ensures log == old(log) + [RecvAct(r)]
    {
      var bytes: Bytes :| |bytes| <= max && |bytes| <= owed;
      var again: bool := *;
      r := if bytes != [] then Data(bytes) else if again then Again else Fail;
      log := log + [RecvAct(r)];
    }
  }

  /** The acts of the protocol that the results of the calls are. */
  function SendAct(n: int, again: bool): C.Act {
    if n >= 0 then C.Send(n) else if again then C.SendAgain else C.SendFail
  }

  function RecvAct(r: RecvResult): C.Act {
    match r
    case Data(bytes) => C.Recv(bytes)
    case Again => C.RecvAgain
    case Fail => C.RecvFail
  }

  predicate LastIs(log: seq<C.Act>, a: C.Act) { log != [] && log[|log| - 1] == a }

  /** The client's context: the stop flag, which another thread may raise at any
      moment. */
  class Context {
    var stopping: bool

    method Stopping() returns (b: bool)
      modifies this
      ensures b == stopping && (old(stopping) ==> stopping)
    {
      var raised: bool := *;
      stopping := stopping || raised;
      b := stopping;
    }
  }

  // ---------------------------------------------------------------- the connection

  class Connection {
    var sent: nat
    var received: nat
    var total: nat
    var msg: Bytes
    var sendLeft: nat
    var recvLeft: nat
    var watch: Registration
    var fdOpen: bool
    ghost var tx: Bytes
    ghost var rx: Bytes

    ghost function Abs(pc: C.Pc): (c: C.Client)
      reads this
      ensures c.pc == pc
    {
      C.Client(sent, received, total, msg, sendLeft, recvLeft, watch, fdOpen, pc, tx, rx)
    }

    twostate predicate Steps(pc: C.Pc, a: C.Act, pc': C.Pc)
      reads this
    {
      C.Next(old(Abs(pc)), a) == Some(Abs(pc'))
    }

    /** epoll_set_conn: the descriptor is taken out, and put back unless there
        is nothing to wait for; so whatever was registered, ADD fits. */
    method SetWatch(mask: Interest)
      modifies this`watch
      ensures watch == if mask == NO_INTEREST then None else Some(mask)
    {
      watch := None;
      if mask != NO_INTEREST {
        watch := Ctl(watch, Add, mask).value;
      }
    }

    // -------------------------------------------------------------- output

    /** Bytes of requests still to send. */
    ghost function OutOwed(): int
      reads this
    {
      REQUEST_SIZE * (total - sent) - (if sendLeft > 0 then REQUEST_SIZE - sendLeft else 0)
    }

    /** Top of the loop; the flag is read between two requests only. */
    method BeginRequest(inp: bool, ctx: Context) returns (more: bool, ghost stopping: bool)
      requires |msg| == REQUEST_SIZE
      modifies this`total, this`sendLeft, this`msg, ctx
      ensures Steps(C.OutTop(inp), C.Begin(stopping), if more then C.OutSend(inp) else C.OutEnd(inp))
      ensures more ==> OutOwed() == old(OutOwed()) && total == old(total)
      ensures !more ==> ctx.stopping && total == sent && sendLeft == 0
      ensures old(ctx.stopping) ==> ctx.stopping
      ensures more <==> old(sendLeft) > 0 || !ctx.stopping
    {
      stopping := false;
      if sendLeft == 0 {
        var stop := ctx.Stopping();
        stopping := stop;
        if stop {
          total := sent;
          return false, true;
        }
        sendLeft := REQUEST_SIZE;
        msg := C.IdBytes(sent % TWO_32) + msg[ID_SIZE..];
      }
      more := true;
    }

    /** One send from `sendptr`. */
    method SendSome(inp: bool, server: Peer) returns (n: int, again: bool, done: bool)
      requires |msg| == REQUEST_SIZE && 0 < sendLeft <= REQUEST_SIZE && sent < total
      modifies this`sendLeft, this`sent, this`tx, server
      ensures old(sent) <= sent
      ensures n < 0 ==> !done && Steps(C.OutSend(inp), if again then C.SendAgain else C.SendFail,
                                       if again then C.OutEnd(inp) else C.Waiting)
      ensures n < 0 ==> tx == old(tx) && server.taken == old(server.taken)
      ensures n >= 0 ==> Steps(C.OutSend(inp), C.Send(n), if done then C.OutEnd(inp) else C.OutTop(inp))
      ensures n >= 0 ==> OutOwed() + n == old(OutOwed()) && n > 0
      ensures exists d :: tx == old(tx) + d && server.taken == old(server.taken) + d
      ensures server.log == old(server.log) + [SendAct(n, again)]
      ensures done ==> sent == total && sendLeft == 0
    {
      var from := REQUEST_SIZE - sendLeft;
      n, again := server.Send(msg[from..from + sendLeft]);
      done := false;
      if n < 0 {
        assert tx == tx + [] && server.taken == old(server.taken) + [];
        return;
      }
      ghost var d := msg[from..from + sendLeft][..n];
      assert msg[from..from + sendLeft] == C.Unsent(Abs(C.OutSend(inp)));
      tx := tx + d;
      sendLeft := sendLeft - n;
      if sendLeft == 0 {
        sent := sent + 1;
        done := sent == total;
      }
    }

    /** client_conn_handle_output, with the results that the socket gave and no
        others. It goes on until the socket is full, everything is sent, or the
        stop flag is seen between two requests, and only then is `total` cut. The
        bytes that the server gets are the next bytes of the requests; none, when
        the flag is up and no request is half sent. */
    method HandleOutput(inp: bool, ctx: Context, server: Peer, ghost data: Bytes, ghost start: C.Client,
                        ghost before: seq<C.Act>)
      returns (ok: bool, ghost path: seq<C.Act>)
      requires C.Inv(Abs(C.OutTop(inp)), data) && After(start, before) == Some(Abs(C.OutTop(inp)))
      requires Calls(before) == server.log
      modifies this, ctx, server
      ensures After(start, path) == Some(Abs(if ok then C.OutEnd(inp) else C.Waiting))
      ensures C.Inv(Abs(if ok then C.OutEnd(inp) else C.Waiting), data)
      ensures Calls(path) == server.log && old(server.log) <= server.log
      ensures Events(path) == Events(before)
      ensures ok ==>
              (sent == total && sendLeft == 0) || (LastIs(server.log, C.SendAgain) && old(server.log) < server.log)
      ensures !ok ==> LastIs(server.log, C.SendFail) && old(server.log) < server.log
      ensures total != old(total) ==> ctx.stopping && total == sent && sendLeft == 0
      ensures old(ctx.stopping) && old(sendLeft) == 0 ==> total == sent == old(sent) && server.log == old(server.log)
      ensures old(sent) <= sent && total <= old(total)
      ensures received == old(received) && rx == old(rx) && watch == old(watch) && fdOpen == old(fdOpen)
      ensures exists d :: tx == old(tx) + d && server.taken == old(server.taken) + d
    {
      hide C.Next, After, C.Streams, C.Answerable, Calls, Events, LastIs, IsCall;
      ok, path := true, before;
      var go := true;
      ghost var d: Bytes := [];
      while go
        invariant go ==> C.Inv(Abs(C.OutTop(inp)), data) && After(start, path) == Some(Abs(C.OutTop(inp)))
        invariant received == old(received) && rx == old(rx) && watch == old(watch) && fdOpen == old(fdOpen)
        invariant tx == old(tx) + d && server.taken == old(server.taken) + d
        invariant Calls(path) == server.log && old(server.log) <= server.log && (old(ctx.stopping) ==> ctx.stopping)
        invariant Events(path) == Events(before)
        invariant old(sent) <= sent && total <= old(total) && (go ==> total == old(total))
        invariant go && old(ctx.stopping) && old(sendLeft) == 0 ==>
                    sendLeft == 0 && sent == old(sent) && server.log == old(server.log)
        invariant total != old(total) ==> ctx.stopping && total == sent && sendLeft == 0
        invariant !go ==> After(start, path) == Some(Abs(if ok then C.OutEnd(inp) else C.Waiting)) &&
                          C.Inv(Abs(if ok then C.OutEnd(inp) else C.Waiting), data)
        invariant !go && ok ==> (sent == total && sendLeft == 0) ||
                                (LastIs(server.log, C.SendAgain) && old(server.log) < server.log)
        invariant !go && !ok ==> LastIs(server.log, C.SendFail) && old(server.log) < server.log
        invariant !go && old(ctx.stopping) && old(sendLeft) == 0 ==>
                    total == sent == old(sent) && server.log == old(server.log)
        decreases go, OutOwed()
      {
        ghost var e: Bytes;
        go, ok, path, e := OutputTurn(inp, ctx, server, data, start, path);
        d := d + e;
      }
    }

    /** One turn of the loop; `go` says that there is another. */
    method OutputTurn(inp: bool, ctx: Context, server: Peer, ghost data: Bytes, ghost start: C.Client,
                      ghost before: seq<C.Act>)
      returns (go: bool, ok: bool, ghost path: seq<C.Act>, ghost e: Bytes)
      requires C.Inv(Abs(C.OutTop(inp)), data) && After(start, before) == Some(Abs(C.OutTop(inp)))
      requires Calls(before) == server.log
      modifies this, ctx, server
      ensures go ==> C.Inv(Abs(C.OutTop(inp)), data) && After(start, path) == Some(Abs(C.OutTop(inp)))
      ensures !go ==> C.Inv(Abs(if ok then C.OutEnd(inp) else C.Waiting), data) &&
                      After(start, path) == Some(Abs(if ok then C.OutEnd(inp) else C.Waiting))
      ensures received == old(received) && rx == old(rx) && watch == old(watch) && fdOpen == old(fdOpen)
      ensures tx == old(tx) + e && server.taken == old(server.taken) + e
      ensures Calls(path) == server.log && old(server.log) <= server.log && (old(ctx.stopping) ==> ctx.stopping)
      ensures Events(path) == Events(before)
      ensures old(sent) <= sent && total <= old(total)
              && (go ==> total == old(total) && 0 <= OutOwed() < old(OutOwed()))
      ensures old(ctx.stopping) && old(sendLeft) == 0 ==>
              !go && ok && sent == old(sent) == total && server.log == old(server.log)
      ensures total != old(total) ==> ctx.stopping && total == sent && sendLeft == 0
      ensures !go && ok ==> (sent == total && sendLeft == 0) ||
                            (LastIs(server.log, C.SendAgain) && old(server.log) < server.log)
      ensures !go && !ok ==> LastIs(server.log, C.SendFail) && old(server.log) < server.log
    {
      hide C.Next, After, C.Streams, C.Answerable, Calls, Events;
      go, ok, e := false, true, [];
      ghost var was := Abs(C.OutTop(inp));
      Sizes(was, data);
      var more, stopping := BeginRequest(inp, ctx);
      path := Extend(start, data, before, was, C.Begin(stopping));
      if !more {
        return;
      }
      go, ok, path, e := SendTurn(inp, server, data, start, path);
    }

    /** The turn goes on with a request to send: one send, and its result. */
    method SendTurn(inp: bool, server: Peer, ghost data: Bytes, ghost start: C.Client, ghost before: seq<C.Act>)
      returns (go: bool, ok: bool, ghost path: seq<C.Act>, ghost e: Bytes)
      requires C.Inv(Abs(C.OutSend(inp)), data) && After(start, before) == Some(Abs(C.OutSend(inp)))
      requires Calls(before) == server.log
      modifies this`sendLeft, this`sent, this`tx, server
      ensures var pc := if go then C.OutTop(inp) else if ok then C.OutEnd(inp) else C.Waiting;
              C.Inv(Abs(pc), data) && After(start, path) == Some(Abs(pc))
      ensures tx == old(tx) + e && server.taken == old(server.taken) + e && old(sent) <= sent
      ensures Calls(path) == server.log && old(server.log) < server.log
      ensures Events(path) == Events(before)
      ensures go ==> 0 <= OutOwed() < old(OutOwed())
      ensures !go && ok ==> (sent == total && sendLeft == 0) || LastIs(server.log, C.SendAgain)
      ensures !go && !ok ==> LastIs(server.log, C.SendFail)
    {
      hide C.Next, After, C.Streams, C.Answerable, Calls, Events;
      ghost var was := Abs(C.OutSend(inp));
      ghost var tx0, taken := tx, server.taken;
      Sizes(was, data);
      var n, again, done := SendSome(inp, server);
      e :| tx == tx0 + e && server.taken == taken + e;
      path := Extend(start, data, before, was, SendAct(n, again));
      ok := n >= 0 || again;
      go := n >= 0 && !done;
    }

    lemma Sizes(c: C.Client, data: Bytes)
      requires C.Inv(c, data)
      ensures |c.msg| == REQUEST_SIZE && c.sendLeft <= REQUEST_SIZE && c.recvLeft <= RESPONSE_SIZE
      ensures |c.rx| <= RESPONSE_SIZE * c.sent && |c.rx| == RESPONSE_SIZE * c.received + C.PartialIn(c)
      ensures forall a: C.Act :: !a.Recv? ==> C.Answerable(c, a)
    {}

    // -------------------------------------------------------------- input

    /** Bytes of responses still to receive. */
    ghost function InOwed(): int
      reads this
    {
      RESPONSE_SIZE * (total - received) - (if recvLeft > 0 then RESPONSE_SIZE - recvLeft else 0)
    }

    method BeginResponse() returns (more: bool)
      modifies this`recvLeft
      ensures Steps(C.InTop, C.Step, if more then C.InRecv else C.InEnd)
      ensures !more ==> received == total && recvLeft == 0
      ensures InOwed() == old(InOwed())
    {
      if recvLeft == 0 {
        if received == total {
          return false;
        }
        recvLeft := RESPONSE_SIZE;
      }
      more := true;
    }

    /** One recv; the server owes an answer for each whole request. */
    method RecvSome(server: Peer) returns (r: RecvResult)
      requires 0 < recvLeft <= RESPONSE_SIZE && received <= sent
      requires |rx| == RESPONSE_SIZE * received + (RESPONSE_SIZE - recvLeft) <= RESPONSE_SIZE * sent
      modifies this`recvLeft, this`received, this`rx, server`log
      ensures old(received) <= received && server.log == old(server.log) + [RecvAct(r)]
      ensures r.Data? ==> Steps(C.InRecv, C.Recv(r.bytes), C.InTop) && C.Answerable(old(Abs(C.InRecv)), C.Recv(r.bytes))
      ensures r.Data? ==> InOwed() + |r.bytes| == old(InOwed()) && r.bytes != [] && rx == old(rx) + r.bytes
      ensures r.Again? ==> Steps(C.InRecv, C.RecvAgain, C.InEnd) && rx == old(rx)
      ensures r.Fail? ==> Steps(C.InRecv, C.RecvFail, C.Waiting) && rx == old(rx)
    {
      r := server.Recv(recvLeft, RESPONSE_SIZE * sent - RESPONSE_SIZE * received - (RESPONSE_SIZE - recvLeft));
      if r.Data? {
        recvLeft := recvLeft - |r.bytes|;
        rx := rx + r.bytes;
        if recvLeft == 0 {
          received := received + 1;
        }
      }
    }

    /** client_conn_handle_input, with the results that the socket gave and no
        others, until the socket is empty or everything has been answered. */
    method HandleInput(server: Peer, ghost data: Bytes, ghost start: C.Client, ghost before: seq<C.Act>)
      returns (ok: bool, ghost path: seq<C.Act>)
      requires C.Inv(Abs(C.InTop), data) && After(start, before) == Some(Abs(C.InTop))
      requires Calls(before) == server.log
      modifies this`recvLeft, this`received, this`rx, server`log
      ensures old(received) <= received
      ensures After(start, path) == Some(Abs(if ok then C.InEnd else C.Waiting))
      ensures C.Inv(Abs(if ok then C.InEnd else C.Waiting), data)
      ensures Calls(path) == server.log && old(server.log) <= server.log
      ensures Events(path) == Events(before)
      ensures ok ==> (received == total && recvLeft == 0) ||
                     (LastIs(server.log, C.RecvAgain) && old(server.log) < server.log)
      ensures !ok ==> LastIs(server.log, C.RecvFail) && old(server.log) < server.log
      ensures old(rx) <= rx
    {
      hide C.Next, After, C.Streams, C.Answerable, Calls, Events;
      path := before;
      while true
        invariant C.Inv(Abs(C.InTop), data) && After(start, path) == Some(Abs(C.InTop))
        invariant Calls(path) == server.log && old(server.log) <= server.log
        invariant Events(path) == Events(before)
        invariant old(rx) <= rx && old(received) <= received
        decreases InOwed()
      {
        var more, r;
        more, r, path := InputTurn(server, data, start, path);
        if !more {
          return true, path;
        }
        if !r.Data? {
          return r.Again?, path;
        }
      }
    }

    /** One turn of the loop: no more to come, or the result of one recv. */
    method InputTurn(server: Peer, ghost data: Bytes, ghost start: C.Client, ghost before: seq<C.Act>)
      returns (more: bool, r: RecvResult, ghost path: seq<C.Act>)
      requires C.Inv(Abs(C.InTop), data) && After(start, before) == Some(Abs(C.InTop))
      requires Calls(before) == server.log
      modifies this`recvLeft, this`received, this`rx, server`log
      ensures old(received) <= received && old(rx) <= rx
      ensures Calls(path) == server.log && server.log == old(server.log) + (if more then [RecvAct(r)] else [])
      ensures Events(path) == Events(before)
      ensures !more ==> received == total && recvLeft == 0
      ensures var pc := if !more || r.Again? then C.InEnd else if r.Fail? then C.Waiting else C.InTop;
              C.Inv(Abs(pc), data) && After(start, path) == Some(Abs(pc))
      ensures more && r.Data? ==> 0 <= InOwed() < old(InOwed())
    {
      hide C.Next, After, C.Streams, C.Answerable, Calls, Events;
      r := Fail;
      ghost var was := Abs(C.InTop);
      Sizes(was, data);
      more := BeginResponse();
      path := Extend(start, data, before, was, C.Step);
      if more {
        was := Abs(C.InRecv);
        Sizes(was, data);
        r := RecvSome(server);
        path := Extend(start, data, path, was, RecvAct(r));
      }
    }

    // -------------------------------------------------------------- the event

    method EndOutput(inp: bool)
      modifies this`watch
      ensures Steps(C.OutEnd(inp), C.Step, C.AfterOutput(inp))
    {
      if sent == total {
        SetWatch(EPOLLIN);
      }
    }

    method EndInput()
      modifies this`watch, this`fdOpen
      ensures Steps(C.InEnd, C.Step, C.Waiting)
      ensures fdOpen <==> old(fdOpen) && received != total
    {
      if received == total {
        SetWatch(NO_INTEREST);
        fdOpen := false;
      }
    }

    method TakeEvent(out: bool, inp: bool)
      requires watch.Some? && (out ==> watch.value.wr) && (inp ==> watch.value.rd)
      ensures C.Next(Abs(C.Waiting), C.Event(out, inp)) == Some(Abs(if out then C.OutTop(inp) else C.AfterOutput(inp)))
    {}

    /** handle_client_epoll_event, for an event that was asked for. Whatever the
        socket does and whenever the flag is raised, the thread comes back to its
        wait in a state of the protocol's invariant: the counters are ordered,
        EPOLLOUT is asked for exactly while there are requests to send, and the
        descriptor is closed only when every request sent is answered. */
    method HandleEvent(out: bool, inp: bool, ctx: Context, server: Peer, ghost data: Bytes)
      returns (ok: bool, ghost path: seq<C.Act>)
      requires C.Inv(Abs(C.Waiting), data)
      requires watch.Some? && (out ==> watch.value.wr) && (inp ==> watch.value.rd)
      requires server.log == []
      modifies this, ctx, server
      ensures After(old(Abs(C.Waiting)), path) == Some(Abs(C.Waiting)) && C.Inv(Abs(C.Waiting), data)
      ensures Events(path) == [C.Event(out, inp)]
      ensures Calls(path) == server.log && (!out && !inp ==> server.log == [])
      ensures !ok ==> LastIs(server.log, C.SendFail) || LastIs(server.log, C.RecvFail)
      ensures ok && out && !inp ==> (sent == total && sendLeft == 0) || LastIs(server.log, C.SendAgain)
      ensures ok && inp ==> (received == total && recvLeft == 0) || LastIs(server.log, C.RecvAgain)
      ensures total != old(total) ==> out && ctx.stopping
      ensures received <= sent <= total <= old(total) && old(sent) <= sent && old(received) <= received
      ensures fdOpen ==> watch == Some(Interest(true, sent < total))
      ensures !fdOpen ==> watch.None? && received == sent == total
      ensures ok && inp ==> (fdOpen <==> received < total)
      ensures exists d :: tx == old(tx) + d && server.taken == old(server.taken) + d
    {
      hide C.Next, After, C.Streams, C.Answerable, Calls, Events, LastIs;
      ghost var start := Abs(C.Waiting);
      Sizes(start, data);
      TakeEvent(out, inp);
      path := Extend(start, data, Nothing(start), start, C.Event(out, inp));
      ok := true;
      if out {
        ok, path := OutputEvent(inp, ctx, server, data, start, path);
      } else {
        assert tx == old(tx) + [] && server.taken == old(server.taken) + [];
      }
      if ok && inp {
        ok, path := InputEvent(server, data, start, path);
      }
    }

    method OutputEvent(inp: bool, ctx: Context, server: Peer, ghost data: Bytes, ghost start: C.Client,
                       ghost before: seq<C.Act>)
      returns (ok: bool, ghost path: seq<C.Act>)
      requires C.Inv(Abs(C.OutTop(inp)), data) && After(start, before) == Some(Abs(C.OutTop(inp)))
      requires Calls(before) == server.log
      modifies this, ctx, server
      ensures After(start, path) == Some(Abs(if ok then C.AfterOutput(inp) else C.Waiting))
      ensures C.Inv(Abs(if ok then C.AfterOutput(inp) else C.Waiting), data)
      ensures Calls(path) == server.log && (total != old(total) ==> ctx.stopping)
      ensures Events(path) == Events(before)
      ensures ok ==> (sent == total && sendLeft == 0) || LastIs(server.log, C.SendAgain)
      ensures !ok ==> LastIs(server.log, C.SendFail)
      ensures received == old(received) && fdOpen == old(fdOpen) && old(sent) <= sent && total <= old(total)
      ensures exists d :: tx == old(tx) + d && server.taken == old(server.taken) + d
    {
      hide C.Next, After, C.Inv, C.Answerable, Calls, Events, LastIs;
      ok, path := HandleOutput(inp, ctx, server, data, start, before);
      if ok {
        ghost var was := Abs(C.OutEnd(inp));
        Sizes(was, data);
        EndOutput(inp);
        path := Extend(start, data, path, was, C.Step);
      }
    }

    method InputEvent(server: Peer, ghost data: Bytes, ghost start: C.Client, ghost before: seq<C.Act>)
      returns (ok: bool, ghost path: seq<C.Act>)
      requires C.Inv(Abs(C.InTop), data) && After(start, before) == Some(Abs(C.InTop))
      requires Calls(before) == server.log
      modifies this`recvLeft, this`received, this`rx, this`watch, this`fdOpen, server`log
      ensures After(start, path) == Some(Abs(C.Waiting)) && C.Inv(Abs(C.Waiting), data)
      ensures Calls(path) == server.log && old(received) <= received
      ensures Events(path) == Events(before)
      ensures ok ==> (received == total && recvLeft == 0) || LastIs(server.log, C.RecvAgain)
      ensures !ok ==> LastIs(server.log, C.RecvFail)
      ensures ok ==> (fdOpen <==> old(fdOpen) && received != total)
      ensures !ok ==> fdOpen == old(fdOpen)
    {
      hide C.Next, After, C.Inv, C.Answerable, Calls, Events, LastIs;
      ok, path := HandleInput(server, data, start, before);
      if ok {
        ghost var was := Abs(C.InEnd);
        Sizes(was, data);
        EndInput();
        path := Extend(start, data, path, was, C.Step);
      }
    }
  }

  ghost function Nothing(c: C.Client): (path: seq<C.Act>)
    ensures After(c, path) == Some(c) && Calls(path) == [] && Events(path) == []
  {
    []
  }

  // ---------------------------------------------------------------- the thread

  class Thread {
    var conns: seq<Connection>

    ghost function Active(n: nat): set<int>
      requires n <= |conns|
      reads this, conns
    {
      set i | 0 <= i < n && conns[i].received < conns[i].total
    }

    /** thread_has_active_connections counts the connections that wait for an
        answer or have requests to send. */
    method HasActive() returns (active: nat)
      ensures active == |Active(|conns|)|
      ensures active == 0 <==> forall i :: 0 <= i < |conns| ==> conns[i].received >= conns[i].total
    {
      active := 0;
      for i := 0 to |conns|
        invariant active == |Active(i)|
      {
        if conns[i].received < conns[i].total {
          assert Active(i + 1) == Active(i) + {i};
          active := active + 1;
        } else {
          assert Active(i + 1) == Active(i);
        }
      }
      if active != 0 {
        ghost var some :| some in Active(|conns|);
      } else {
        forall i | 0 <= i < |conns| ensures conns[i].received >= conns[i].total {
          assert i !in Active(|conns|);
        }
      }
    }

    /** So the worker's loop ends with every request that was sent answered, and
        each connection's requests all sent. */
    method WorkerMayStop(ghost datas: seq<Bytes>) returns (stop: bool)
      requires |datas| == |conns|
      requires forall i :: 0 <= i < |conns| ==> C.Inv(conns[i].Abs(C.Waiting), datas[i])
      ensures stop <==> forall i :: 0 <= i < |conns| ==> conns[i].received == conns[i].sent == conns[i].total
    {
      hide C.Streams, C.Interested;
      var active := HasActive();
      stop := active == 0;
    }
  }
}
