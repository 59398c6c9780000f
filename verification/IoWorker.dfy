/** The handlers of the IO thread, written as the program writes them: loops
    over the fields of a connection, a socket and the queues
    (src/server/io/io.c). Each handler is proved to take its connection through
    steps of SessionProtocol, so that what is proved of the protocol is proved
    of the code. The other threads stand still while a handler runs here; the
    protocol is what says that they need not.
 */
module IoWorker {
  import opened Rpc
  import opened Epoll
  import S = SessionProtocol
  import I = SessionInvariant
  import H = SessionHistory

  // ---------------------------------------------------------------- paths of the protocol

  /** The session after a sequence of acts, when each can be taken. With `lax`,
      the fall-through after a finish is allowed. */
  function After(cfg: Config, lax: bool, v: S.Session, acts: seq<S.Act>): Option<S.Session> {
    if acts == [] then Some(v)
    else
      match After(cfg, lax, v, acts[..|acts| - 1])
      case None => None
      case Some(u) => if lax || S.Good(u, acts[|acts| - 1]) then S.Next(cfg, u, acts[|acts| - 1]) else None
  }

  lemma {:induction false} AfterStep(cfg: Config, lax: bool, v: S.Session, acts: seq<S.Act>, u: S.Session, a: S.Act)
    requires After(cfg, lax, v, acts) == Some(u) && (lax || S.Good(u, a))
    ensures After(cfg, lax, v, acts + [a]) == S.Next(cfg, u, a)
  {
  }

  predicate IsCall(a: S.Act) {
    a.IoRecv? || a.IoRecvAgain? || a.IoRecvFail? || a.IoSend? || a.IoSendAgain? || a.IoSendFail?
  }

  /** The acts of a path that are results of recv and send. */
  function Calls(acts: seq<S.Act>): seq<S.Act> {
    if acts == [] then []
    else Calls(acts[..|acts| - 1]) + (if IsCall(acts[|acts| - 1]) then [acts[|acts| - 1]] else [])
  }

  /** The buffers that a path has taken from the pool. */
  function Taken(acts: seq<S.Act>): seq<nat> {
    if acts == [] then []
    else Taken(acts[..|acts| - 1]) + GotBy(acts[|acts| - 1])
  }

  function GotBy(a: S.Act): seq<nat> { if a.IoReqTop? && a.got.Some? then [a.got.value] else [] }

  /** The acts of a path that are not the IO thread's within a handler: the events
      it takes, and whatever other threads do. */
  function Outer(acts: seq<S.Act>): seq<S.Act> {
    if acts == [] then []
    else Outer(acts[..|acts| - 1]) + (if S.InHandler(acts[|acts| - 1]) then [] else [acts[|acts| - 1]])
  }

  /** From one path to the other no socket was used, no buffer taken and no event. */
  predicate NoCalls(acts: seq<S.Act>, path: seq<S.Act>) {
    Calls(path) == Calls(acts) && Taken(path) == Taken(acts) && Outer(path) == Outer(acts)
  }

  lemma {:induction false} AfterLax(cfg: Config, lax: bool, v: S.Session, acts: seq<S.Act>)
    requires After(cfg, false, v, acts).Some?
    ensures After(cfg, lax, v, acts) == After(cfg, false, v, acts)
  {
    if acts != [] {
      AfterLax(cfg, lax, v, acts[..|acts| - 1]);
    }
  }

  /** A path keeps what the protocol keeps. */
  lemma {:induction false} AfterKeeps(cfg: Config, v: S.Session, acts: seq<S.Act>, w: S.Session)
    requires ValidConfig(cfg) && I.Inv(cfg, v) && H.Faithful(cfg, v)
    requires After(cfg, false, v, acts) == Some(w)
    ensures I.Inv(cfg, w) && H.Faithful(cfg, w)
  {
    hide S.Next, S.IoNext, S.Good, I.Inv, H.Faithful;
    if acts != [] {
      var u := After(cfg, false, v, acts[..|acts| - 1]).value;
      AfterKeeps(cfg, v, acts[..|acts| - 1], u);
      I.StepInv(cfg, u, acts[|acts| - 1]);
      H.StepFaithful(cfg, u, acts[|acts| - 1]);
    }
  }

  // ---------------------------------------------------------------- the socket

  datatype RecvResult = Data(bytes: Bytes) | RecvAgain | RecvFail

  /** A stream socket: what the peer has sent and is not received yet, and what
      has been sent to it. Each call moves as much as it likes; `log` has the
      results. */
  class Socket {
    var pending: Bytes
    var out: Bytes
    ghost var log: seq<S.Act>

    /** recv of at most `max` bytes; RecvFail covers the end of the stream. */
    method Recv(max: nat) returns (r: RecvResult)
      modifies this
      ensures out == old(out) && log == old(log) + [RecvAct(r)]
      ensures r.Data? ==> 0 < |r.bytes| <= max && old(pending) == r.bytes + pending
      ensures !r.Data? ==> pending == old(pending)
    {
      var n: nat :| n <= max && n <= |pending|;
      var again: bool := *;
      r := if n > 0 then Data(pending[..n]) else if again then RecvAgain else RecvFail;
      pending := pending[n..];
      log := log + [RecvAct(r)];
    }

    /** send; -1 with `again` for EAGAIN, -1 without it for an error. */
    method Send(bytes: Bytes) returns (n: int, again: bool)
      modifies this
      ensures -1 <= n <= |bytes| && pending == old(pending)
      ensures out == old(out) + (if n < 0 then [] else bytes[..n]) && log == old(log) + [SendAct(n, again)]
    {
      n :| -1 <= n <= |bytes|;
      again := *;
      if n >= 0 {
        out := out + bytes[..n];
      }
      log := log + [SendAct(n, again)];
    }
  }

  /** The acts of the protocol that the results of the calls are. */
  function RecvAct(r: RecvResult): (a: S.Act)
    ensures IsCall(a) && S.InHandler(a) && GotBy(a) == []
  {
    match r
    case Data(bytes) => S.IoRecv(bytes)
    case RecvAgain => S.IoRecvAgain
    case RecvFail => S.IoRecvFail
  }

  function SendAct(n: int, again: bool): (a: S.Act)
    ensures IsCall(a) && S.InHandler(a) && GotBy(a) == []
  {
    if n >= 0 then S.IoSend(n) else if again then S.IoSendAgain else S.IoSendFail
  }

  /** Where handle_response goes on after a send, and what it has in its hand. */
  function SentPc(n: int, again: bool, full: bool, done: Option<S.Item>, more: bool): S.IoPc {
    if n < 0 && !again then S.FinTry(more)
    else if n < 0 || !full then S.AfterResponse(more)
    else if done.None? then S.RespTop(more)
    else S.RespPut(more)
  }

  function InHand(done: Option<S.Item>): seq<S.Item> { if done.Some? then [done.value] else [] }

  predicate LastIs(log: seq<S.Act>, a: S.Act) { log != [] && log[|log| - 1] == a }

  // ---------------------------------------------------------------- the connection

  function Ids(b: Option<S.Item>): seq<nat> { if b.Some? then [b.value.id] else [] }

  lemma Rotated(pool: seq<nat>, more: seq<nat>)
    requires pool != []
    ensures multiset(pool[1..] + more + [pool[0]]) == multiset(pool) + multiset(more)
  {
    assert pool == [pool[0]] + pool[1..];
  }

  function AllIds(items: seq<S.Item>): seq<nat> { seq(|items|, i requires 0 <= i < |items| => items[i].id) }

  class Connection {
    var received: nat
    var processed: nat
    var sent: nat
    var closed: bool
    var lock: bool
    var epoll: Interest
    var kernel: Registration
    var recvbuf: Option<S.Item>
    var sendbuf: Option<S.Item>
    var sendQueue: seq<S.Item>
    var computeInbox: seq<S.Item>   // of this connection
    var emptyBuffers: seq<nat>      // the shared pool
    var freeCount: nat              // occurrences on empty_connections

    /** What the handlers do not touch: the other stages and threads. */
    ghost var rest: S.Session
    ghost var hist: S.History

    /** The buffers on their way out, and those on their way in, oldest first. */
    ghost function Outgoing(): seq<nat>
      reads this`sendbuf, this`sendQueue
    {
      Ids(sendbuf) + AllIds(sendQueue)
    }

    ghost function Incoming(): seq<nat>
      reads this`recvbuf, this`computeInbox
    {
      AllIds(computeInbox) + Ids(recvbuf)
    }

    /** Every buffer of the connection, with the pool between those that come from
        it and those that go back to it: its handlers only move along this line. */
    ghost function Held(): seq<nat>
      reads this`sendbuf, this`sendQueue, this`recvbuf, this`computeInbox, this`emptyBuffers
    {
      Incoming() + emptyBuffers + Outgoing()
    }

    /** While open it holds what it held, in that order; once it is finished, all of
        that is in the pool or with the compute thread. */
    ghost predicate Keeps(held: seq<nat>)
      reads this`closed, this`sendbuf, this`sendQueue, this`recvbuf, this`computeInbox, this`emptyBuffers
    {
      if closed then multiset(AllIds(computeInbox) + emptyBuffers) == multiset(held) else Held() == held
    }

    function Pointer(b: Option<S.Item>): Option<nat> { if b.Some? then Some(b.value.id) else None }

    /** The session, with the IO thread at `io` and `hand` in its hand. */
    ghost function Abs(io: S.IoPc, hand: seq<S.Item>): (v: S.Session)
      reads this
      ensures v.io == io
    {
      S.Session(
        S.Conn(rest.conn.ioidx, rest.conn.computeidx, rest.conn.submitidx, received, processed, sent,
               closed, lock, epoll, kernel, Pointer(recvbuf), Pointer(sendbuf), hist),
        if recvbuf.Some? && !closed && !I.RecvGone(io) then [recvbuf.value] else [],
        if sendbuf.Some? && !closed && !I.SendGone(io) then [sendbuf.value] else [],
        sendQueue, computeInbox, rest.chand, rest.sin, rest.shand, hand,
        io, rest.comp, rest.sub, freeCount, rest.accepting)
    }

    /** epoll_set_conn_state, which does not fail on a mirrored mask. */
    method SetEpoll(mask: Interest)
      modifies this`epoll, this`kernel
      ensures epoll == mask && kernel == KernelAfter(old(epoll), old(kernel), mask)
    {
      kernel := KernelAfter(epoll, kernel, mask);
      epoll := mask;
    }

    /** A step of the IO thread, from one point to another, as the protocol has
        it. */
    twostate predicate Steps(cfg: Config, io: S.IoPc, hand: seq<S.Item>, a: S.Act, io': S.IoPc, hand': seq<S.Item>)
      reads this
    {
      S.Next(cfg, old(Abs(io, hand)), a) == Some(Abs(io', hand')) && rest == old(rest)
    }

    /** The same, for the IO thread's own steps. */
    twostate predicate Moves(io: S.IoPc, hand: seq<S.Item>, io': S.IoPc, hand': seq<S.Item>)
      reads this
    {
      S.IoNext(old(Abs(io, hand))) == Some(Abs(io', hand')) && rest == old(rest)
    }

    // -------------------------------------------------------------- finish_connection

    method TryLock(ghost cfg: Config, ghost more: bool) returns (got: bool)
      modifies this`lock
      ensures got <==> !old(lock)
      ensures lock
      ensures Moves(S.FinTry(more), [], if got then S.FinSend(more) else S.AfterResponse(more), [])
    {
      got := !lock;
      lock := true;
    }

    method GiveSend(ghost cfg: Config, ghost more: bool)
      modifies this`emptyBuffers
      ensures Moves(S.FinSend(more), [], S.FinRecv(more), [])
      ensures emptyBuffers == old(emptyBuffers) + Ids(sendbuf)
    {
      if sendbuf.Some? {
        emptyBuffers := emptyBuffers + [sendbuf.value.id];
      }
    }

    method GiveRecv(ghost cfg: Config, ghost more: bool)
      modifies this`emptyBuffers
      ensures Moves(S.FinRecv(more), [], S.FinClose(more), [])
      ensures emptyBuffers == old(emptyBuffers) + Ids(recvbuf)
    {
      if recvbuf.Some? {
        emptyBuffers := emptyBuffers + [recvbuf.value.id];
      }
    }

    /** close removes the descriptor from epoll. */
    method Close(ghost cfg: Config, ghost more: bool)
      modifies this`kernel
      ensures kernel.None?
      ensures Moves(S.FinClose(more), [], S.FinDrain(more), [])
    {
      kernel := None;
    }

    method DrainOne(ghost cfg: Config, ghost more: bool) returns (q: Option<S.Item>)
      modifies this`sendQueue, this`sent
      ensures q.None? <==> old(sendQueue) == []
      ensures q.None? ==> sent == old(sent) && sendQueue == [] &&
                          Moves(S.FinDrain(more), [], S.FinDecide(more), [])
      ensures q.Some? ==> sent == old(sent) + 1 && [q.value] + sendQueue == old(sendQueue) &&
                          Moves(S.FinDrain(more), [], S.FinPut(more), [q.value])
    {
      hide S.IoNext;
      ghost var was := Abs(S.FinDrain(more), []);
      DrainNext(was);
      if sendQueue == [] {
        return None;
      }
      q := Some(sendQueue[0]);
      sendQueue := sendQueue[1..];
      sent := sent + 1;
      assert Abs(S.FinPut(more), [q.value]) == S.IoNext(was).value;
    }

    /** queue_put to empty_buffers, after the drain or after a response. */
    method PutEmpty(ghost cfg: Config, ghost pc: S.IoPc, it: S.Item)
      requires pc.FinPut? || pc.RespPut?
      modifies this`emptyBuffers
      ensures emptyBuffers == old(emptyBuffers) + [it.id]
      ensures Moves(pc, [it], if pc.FinPut? then S.FinDrain(pc.more) else S.RespLock(pc.more), [])
    {
      emptyBuffers := emptyBuffers + [it.id];
    }

    method Decide(ghost cfg: Config, ghost more: bool) returns (released: bool)
      modifies this`closed
      ensures closed && (released <==> Wrap64(sent) == Wrap64(received))
      ensures Moves(S.FinDecide(more), [], if released then S.FinRelease(more) else S.FinUnlock(more), [])
    {
      closed := true;
      released := Wrap64(sent) == Wrap64(received);
    }

    method Leave(ghost cfg: Config, ghost more: bool, released: bool)
      requires closed
      modifies this`lock, this`freeCount
      ensures freeCount == old(freeCount) + (if released then 1 else 0)
      ensures lock == (old(lock) && released)
      ensures Moves(if released then S.FinRelease(more) else S.FinUnlock(more), [], S.AfterResponse(more), [])
    {
      hide S.IoNext, S.AfterResponse;
      ghost var was := Abs(if released then S.FinRelease(more) else S.FinUnlock(more), []);
      LeaveNext(was);
      if released {
        freeCount := freeCount + 1;
      } else {
        lock := false;
      }
      assert Abs(S.AfterResponse(more), []) == S.IoNext(was).value;
    }

    /** finish_connection. When the lock is held it does nothing; otherwise it
        gives the buffers back, drains the send queue, closes, and releases the
        connection exactly when nothing of it is in flight, keeping the lock. */
    method Finish(ghost cfg: Config, more: bool, ghost start: S.Session, ghost before: seq<S.Act>)
      returns (ghost path: seq<S.Act>)
      requires After(cfg, false, start, before) == Some(Abs(S.FinTry(more), []))
      modifies this
      ensures NoCalls(before, path)
      ensures After(cfg, more && closed, start, path) == Some(Abs(S.AfterResponse(more), []))
      ensures old(lock) ==>
              && closed == old(closed) && emptyBuffers == old(emptyBuffers)
              && freeCount == old(freeCount) && sent == old(sent)
      ensures !old(lock) ==> closed && kernel.None? && sendQueue == [] && sent == old(sent) + |old(sendQueue)|
      ensures !old(lock) ==> (lock <==> Wrap64(sent) == Wrap64(received)) && freeCount == old(freeCount) + I.Ones(lock)
      ensures !old(lock) ==> emptyBuffers == old(emptyBuffers) + Ids(sendbuf) + Ids(recvbuf) + AllIds(old(sendQueue))
      ensures sendbuf == old(sendbuf) && recvbuf == old(recvbuf) && computeInbox == old(computeInbox)
      ensures received == old(received) && processed == old(processed) && hist == old(hist) && rest == old(rest)
    {
      hide Calls, Taken, Outer, After, S.Next, S.IoNext, S.AfterResponse, Wrap64, Abs, Ids, AllIds, I.Ones;
      ghost var was := Abs(S.FinTry(more), []);
      var got := TryLock(cfg, more);
      path := Own(cfg, false, start, before, was);
      if got {
        path := FinishLocked(cfg, more, start, path);
      } else {
        AfterLax(cfg, more && closed, start, path);
      }
    }

    /** The rest of it, under the lock. */
    method FinishLocked(ghost cfg: Config, more: bool, ghost start: S.Session, ghost before: seq<S.Act>)
      returns (ghost path: seq<S.Act>)
      requires lock && After(cfg, false, start, before) == Some(Abs(S.FinSend(more), []))
      modifies this`emptyBuffers, this`kernel, this`sendQueue, this`sent, this`closed, this`lock, this`freeCount
      ensures NoCalls(before, path)
      ensures After(cfg, more, start, path) == Some(Abs(S.AfterResponse(more), []))
      ensures closed && kernel.None? && sendQueue == [] && sent == old(sent) + |old(sendQueue)|
      ensures (lock <==> Wrap64(sent) == Wrap64(received)) && freeCount == old(freeCount) + I.Ones(lock)
      ensures emptyBuffers == old(emptyBuffers) + Ids(sendbuf) + Ids(recvbuf) + AllIds(old(sendQueue))
    {
      hide Calls, Taken, Outer, After, S.Next, S.IoNext, S.AfterResponse, Wrap64, Abs, Ids, AllIds, I.Ones;
      path := GiveUp(cfg, more, start, before);
      path := Settle(cfg, more, start, path);
    }

    /** Its buffers, its descriptor and its responses are given up. */
    method GiveUp(ghost cfg: Config, more: bool, ghost start: S.Session, ghost before: seq<S.Act>)
      returns (ghost path: seq<S.Act>)
      requires After(cfg, false, start, before) == Some(Abs(S.FinSend(more), []))
      modifies this`emptyBuffers, this`kernel, this`sendQueue, this`sent
      ensures NoCalls(before, path)
      ensures After(cfg, false, start, path) == Some(Abs(S.FinDecide(more), []))
      ensures kernel.None? && sendQueue == [] && sent == old(sent) + |old(sendQueue)|
      ensures emptyBuffers == old(emptyBuffers) + Ids(sendbuf) + Ids(recvbuf) + AllIds(old(sendQueue))
    {
      hide Calls, Taken, Outer, After, S.Next, S.IoNext, S.AfterResponse, Wrap64, Abs, Ids, AllIds, I.Ones;
      path := GiveBack(cfg, more, start, before);
      path := CloseFd(cfg, more, start, path);
      path := Drain(cfg, more, start, path);
    }

    /** Both buffers go back. */
    method GiveBack(ghost cfg: Config, more: bool, ghost start: S.Session, ghost before: seq<S.Act>)
      returns (ghost path: seq<S.Act>)
      requires After(cfg, false, start, before) == Some(Abs(S.FinSend(more), []))
      modifies this`emptyBuffers
      ensures NoCalls(before, path)
      ensures After(cfg, false, start, path) == Some(Abs(S.FinClose(more), []))
      ensures emptyBuffers == old(emptyBuffers) + Ids(sendbuf) + Ids(recvbuf)
    {
      hide Calls, Taken, Outer, After, S.Next, S.IoNext, Abs, Ids;
      ghost var was := Abs(S.FinSend(more), []);
      GiveSend(cfg, more);
      path := Own(cfg, false, start, before, was);
      was := Abs(S.FinRecv(more), []);
      GiveRecv(cfg, more);
      path := Own(cfg, false, start, path, was);
    }

    /** The descriptor is closed. */
    method CloseFd(ghost cfg: Config, more: bool, ghost start: S.Session, ghost before: seq<S.Act>)
      returns (ghost path: seq<S.Act>)
      requires After(cfg, false, start, before) == Some(Abs(S.FinClose(more), []))
      modifies this`kernel
      ensures NoCalls(before, path)
      ensures After(cfg, false, start, path) == Some(Abs(S.FinDrain(more), [])) && kernel.None?
    {
      hide Calls, Taken, Outer, After, S.Next, S.IoNext, Abs;
      ghost var was := Abs(S.FinClose(more), []);
      Close(cfg, more);
      path := Own(cfg, false, start, before, was);
    }

    /** Closed: the connection goes to the pool, or is left to the submitter. */
    method Settle(ghost cfg: Config, more: bool, ghost start: S.Session, ghost before: seq<S.Act>)
      returns (ghost path: seq<S.Act>)
      requires lock
      requires After(cfg, false, start, before) == Some(Abs(S.FinDecide(more), []))
      modifies this`closed, this`lock, this`freeCount
      ensures NoCalls(before, path)
      ensures After(cfg, more, start, path) == Some(Abs(S.AfterResponse(more), []))
      ensures closed && (lock <==> Wrap64(sent) == Wrap64(received)) && freeCount == old(freeCount) + I.Ones(lock)
    {
      hide Calls, Taken, Outer, After, S.Next, S.IoNext, S.AfterResponse, Wrap64, Abs;
      AfterLax(cfg, more, start, before);
      ghost var was := Abs(S.FinDecide(more), []);
      var released := Decide(cfg, more);
      path := Own(cfg, more, start, before, was);
      was := Abs(if released then S.FinRelease(more) else S.FinUnlock(more), []);
      Leave(cfg, more, released);
      path := Own(cfg, more, start, path, was);
    }

    /** The drain loop of finish_connection. */
    method Drain(ghost cfg: Config, more: bool, ghost start: S.Session, ghost before: seq<S.Act>)
      returns (ghost path: seq<S.Act>)
      requires After(cfg, false, start, before) == Some(Abs(S.FinDrain(more), []))
      modifies this`sendQueue, this`sent, this`emptyBuffers
      ensures NoCalls(before, path)
      ensures After(cfg, false, start, path) == Some(Abs(S.FinDecide(more), []))
      ensures sendQueue == [] && sent == old(sent) + |old(sendQueue)|
      ensures emptyBuffers == old(emptyBuffers) + AllIds(old(sendQueue))
    {
      hide Calls, Taken, Outer, After, S.Next, S.IoNext, Abs, AllIds;
      ghost var was := Abs(S.FinDrain(more), []);
      var q := DrainOne(cfg, more);
      path := Own(cfg, false, start, before, was);
      Split(old(sendQueue), q, sendQueue);
      while q.Some?
        invariant sent + |sendQueue| == old(sent) + |old(sendQueue)|
        invariant q.None? ==> sendQueue == []
        invariant emptyBuffers + Ids(q) + AllIds(sendQueue) == old(emptyBuffers) + AllIds(old(sendQueue))
        invariant NoCalls(before, path)
        invariant After(cfg, false, start, path) ==
                  Some(if q.Some? then Abs(S.FinPut(more), [q.value]) else Abs(S.FinDecide(more), []))
        decreases |sendQueue| + I.Ones(q.Some?)
      {
        q, path := DrainNextOne(cfg, more, q.value, start, path);
      }
    }

    /** One turn of the drain: a buffer is put, and the next taken. */
    method DrainNextOne(ghost cfg: Config, more: bool, it: S.Item, ghost start: S.Session, ghost before: seq<S.Act>)
      returns (q: Option<S.Item>, ghost path: seq<S.Act>)
      requires After(cfg, false, start, before) == Some(Abs(S.FinPut(more), [it]))
      modifies this`sendQueue, this`sent, this`emptyBuffers
      ensures NoCalls(before, path)
      ensures After(cfg, false, start, path) ==
              Some(if q.Some? then Abs(S.FinPut(more), [q.value]) else Abs(S.FinDecide(more), []))
      ensures sent == old(sent) + I.Ones(q.Some?) && |sendQueue| == |old(sendQueue)| - I.Ones(q.Some?)
      ensures q.None? ==> sendQueue == []
      ensures emptyBuffers + Ids(q) + AllIds(sendQueue) == old(emptyBuffers) + [it.id] + AllIds(old(sendQueue))
    {
      hide Calls, Taken, Outer, After, S.Next, S.IoNext, Abs, AllIds;
      ghost var was := Abs(S.FinPut(more), [it]);
      PutEmpty(cfg, S.FinPut(more), it);
      path := Own(cfg, false, start, before, was);
      was := Abs(S.FinDrain(more), []);
      q := DrainOne(cfg, more);
      path := Own(cfg, false, start, path, was);
      Split(old(sendQueue), q, sendQueue);
    }


    // -------------------------------------------------------------- handle_request

    /** Top of the loop: go on with the attached buffer, or take one from the
        pool, unless the connection is too far ahead or the pool is empty. */
    method RequestTop(cfg: Config) returns (ready: bool, ghost got: Option<nat>)
      requires !closed
      modifies this`recvbuf, this`emptyBuffers
      ensures ready <==> recvbuf.Some?
      ensures !ready ==>
              recvbuf.None? && (Sub64(Wrap64(received), Wrap64(sent)) > cfg.readahead || old(emptyBuffers) == [])
      ensures old(recvbuf).Some? ==> recvbuf == old(recvbuf)
      ensures old(emptyBuffers) == GotBy(S.IoReqTop(got)) + emptyBuffers
      ensures Incoming() + emptyBuffers == old(Incoming() + emptyBuffers)
      ensures S.RequestTop(cfg, old(Abs(S.ReqTop, [])), got) == Some(Abs(if ready then S.ReqRecv else S.IoIdle, []))
    {
      hide S.RequestTop, Sub64, Incoming;
      ghost var was := Abs(S.ReqTop, []);
      got := None;
      TopNext(cfg, was);
      if recvbuf.None? {
        if Sub64(Wrap64(received), Wrap64(sent)) > cfg.readahead {
          return false, None;
        }
        if emptyBuffers == [] {
          return false, None;
        }
        got := AttachEmpty(cfg);
        return true, got;
      }
      ready := true;
      assert Abs(S.ReqRecv, []) == S.RequestTop(cfg, was, got).value;
    }

    /** There is head room and an empty buffer: it is attached. */
    method AttachEmpty(ghost cfg: Config) returns (ghost got: Option<nat>)
      requires !closed && recvbuf.None? && emptyBuffers != [] && !S.TooFarAhead(cfg, Abs(S.ReqTop, []).conn)
      modifies this`recvbuf, this`emptyBuffers
      ensures recvbuf.Some? && old(emptyBuffers) == GotBy(S.IoReqTop(got)) + emptyBuffers
      ensures Incoming() + emptyBuffers == old(Incoming() + emptyBuffers)
      ensures S.RequestTop(cfg, old(Abs(S.ReqTop, [])), got) == Some(Abs(S.ReqRecv, []))
    {
      hide S.RequestTop, S.TooFarAhead, AllIds;
      ghost var was := Abs(S.ReqTop, []);
      got := Some(emptyBuffers[0]);
      TopTakes(cfg, was, emptyBuffers[0]);
      recvbuf := Some(S.Item(emptyBuffers[0], [], [], REQUEST_SIZE));
      emptyBuffers := emptyBuffers[1..];
      assert Abs(S.ReqRecv, []) == S.RequestTop(cfg, was, got).value;
    }

    /** One recv into the attached buffer. */
    method Receive(cfg: Config, sock: Socket) returns (r: RecvResult)
      requires !closed && recvbuf.Some?
      modifies this`recvbuf, this`hist, sock
      ensures Incoming() == old(Incoming())
      ensures recvbuf.Some? && sock.out == old(sock.out) && hist.tx == old(hist.tx)
      ensures sock.log == old(sock.log) + [RecvAct(r)]
      ensures r.Data? ==>
              hist.rx == old(hist.rx) + r.bytes && old(sock.pending) == r.bytes + sock.pending && 0 < |r.bytes|
      ensures !r.Data? ==> hist == old(hist) && sock.pending == old(sock.pending)
      ensures r.Data? ==>
              Steps(cfg, S.ReqRecv, [], S.IoRecv(r.bytes), if recvbuf.value.left == 0 then S.ReqLock else S.ReqTop, [])
      ensures r.RecvAgain? ==> Steps(cfg, S.ReqRecv, [], S.IoRecvAgain, S.IoIdle, [])
      ensures r.RecvFail? ==> Steps(cfg, S.ReqRecv, [], S.IoRecvFail, S.FinTry(false), [])
    {
      hide S.SendBytes, S.RecvBytes, S.RequestTop, S.Next, S.IoNext, Abs;
      r := sock.Recv(S.IoSize(cfg, recvbuf.value));
      SocketActs(cfg, Abs(S.ReqRecv, []));
      if r.Data? {
        Received(cfg, r.bytes);
      } else {
        NothingReceived(cfg, r.RecvAgain?);
      }
    }

    lemma NothingReceived(cfg: Config, again: bool)
      requires !closed && recvbuf.Some?
      ensures S.Next(cfg, Abs(S.ReqRecv, []), if again then S.IoRecvAgain else S.IoRecvFail) ==
              Some(Abs(if again then S.IoIdle else S.FinTry(false), []))
    {}

    /** Bytes have come in. */
    method Received(cfg: Config, bytes: Bytes)
      requires !closed && recvbuf.Some? && 0 < |bytes| <= S.IoSize(cfg, recvbuf.value)
      modifies this`recvbuf, this`hist
      ensures Incoming() == old(Incoming())
      ensures recvbuf.Some? && hist == old(hist).(rx := old(hist).rx + bytes)
      ensures S.RecvBytes(cfg, old(Abs(S.ReqRecv, [])), bytes) ==
              Some(Abs(if recvbuf.value.left == 0 then S.ReqLock else S.ReqTop, []))
    {
      hide S.RecvBytes, S.IoSize;
      ghost var was := Abs(S.ReqRecv, []);
      RecvNext(cfg, was, bytes);
      recvbuf := Some(S.ReceivedInto(recvbuf.value, bytes));
      hist := hist.(rx := hist.rx + bytes);
      assert Abs(if recvbuf.value.left == 0 then S.ReqLock else S.ReqTop, []) == S.RecvBytes(cfg, was, bytes).value;
    }

    /** lock; the lock is free. */
    method TakeLock(ghost cfg: Config, ghost pc: S.IoPc)
      requires !lock && (pc.ReqLock? || pc.RespLock?)
      modifies this`lock
      ensures lock
      ensures Moves(pc, [], if pc.ReqLock? then S.ReqCount else S.RespCheck(pc.more), [])
    {
      hide S.IoNext;
      ghost var was := Abs(pc, []);
      LockNext(was);
      lock := true;
      assert Abs(if pc.ReqLock? then S.ReqCount else S.RespCheck(pc.more), []) == S.IoNext(was).value;
    }

    method DropLock(ghost cfg: Config, ghost pc: S.IoPc)
      requires pc.ReqUnlock? || pc.RespUnlock?
      modifies this`lock
      ensures !lock
      ensures Moves(pc, [], if pc.ReqUnlock? then S.ReqTop else S.RespTop(pc.more), [])
    {
      hide S.IoNext;
      ghost var was := Abs(pc, []);
      LockNext(was);
      lock := false;
      assert Abs(if pc.ReqUnlock? then S.ReqTop else S.RespTop(pc.more), []) == S.IoNext(was).value;
    }

    method Count(ghost cfg: Config) returns (it: S.Item)
      requires !closed && recvbuf.Some?
      modifies this`received, this`recvbuf, this`hist
      ensures received == old(received) + 1 && recvbuf.None? && Some(it) == old(recvbuf)
      ensures hist == old(hist).(delivered := old(hist).delivered + [it.req])
      ensures Moves(S.ReqCount, [], S.ReqPut, [it])
    {
      hide S.IoNext;
      ghost var was := Abs(S.ReqCount, []);
      it := recvbuf.value;
      received := received + 1;
      recvbuf := None;
      hist := hist.(delivered := hist.delivered + [it.req]);
      CountNext(was);
      assert Abs(S.ReqPut, [it]) == S.IoNext(was).value;
    }

    method PutCompute(ghost cfg: Config, it: S.Item)
      modifies this`computeInbox
      ensures computeInbox == old(computeInbox) + [it]
      ensures Moves(S.ReqPut, [it], S.ReqUnlock, [])
    {
      computeInbox := computeInbox + [it];
    }

    /** A complete request is counted and handed over, under the lock. */
    method Deliver(ghost cfg: Config, ghost start: S.Session, ghost before: seq<S.Act>) returns (ghost path: seq<S.Act>)
      requires !closed && !lock && recvbuf.Some?
      requires After(cfg, false, start, before) == Some(Abs(S.ReqLock, []))
      modifies this`lock, this`received, this`recvbuf, this`hist, this`computeInbox
      ensures NoCalls(before, path)
      ensures After(cfg, false, start, path) == Some(Abs(S.ReqTop, []))
      ensures Incoming() == old(Incoming())
      ensures !lock && hist.rx == old(hist.rx) && hist.tx == old(hist.tx)
              && computeInbox == old(computeInbox) + [old(recvbuf).value]
    {
      hide Calls, Taken, Outer, After, S.Next, S.IoNext, Abs;
      ghost var was := Abs(S.ReqLock, []);
      TakeLock(cfg, S.ReqLock);
      path := Own(cfg, false, start, before, was);
      path := CountOne(cfg, start, path);
      Handed(old(computeInbox), old(recvbuf).value);
    }

    /** The request is handed over if it is complete. */
    method DeliverWhole(ghost cfg: Config, ghost start: S.Session, ghost before: seq<S.Act>)
      returns (ghost path: seq<S.Act>)
      requires !closed && !lock && recvbuf.Some?
      requires After(cfg, false, start, before) ==
               Some(Abs(if recvbuf.value.left == 0 then S.ReqLock else S.ReqTop, []))
      modifies this`lock, this`received, this`recvbuf, this`hist, this`computeInbox
      ensures NoCalls(before, path) && Incoming() == old(Incoming())
      ensures After(cfg, false, start, path) == Some(Abs(S.ReqTop, []))
      ensures !lock && hist.rx == old(hist.rx) && hist.tx == old(hist.tx)
    {
      hide Calls, Taken, Outer, After, S.Next, S.IoNext, Abs, Incoming;
      path := before;
      if recvbuf.value.left == 0 {
        path := Deliver(cfg, start, path);
      }
    }

    method CountOne(ghost cfg: Config, ghost start: S.Session, ghost before: seq<S.Act>)
      returns (ghost path: seq<S.Act>)
      requires !closed && recvbuf.Some?
      requires After(cfg, false, start, before) == Some(Abs(S.ReqCount, []))
      modifies this`lock, this`received, this`recvbuf, this`hist, this`computeInbox
      ensures NoCalls(before, path)
      ensures After(cfg, false, start, path) == Some(Abs(S.ReqTop, []))
      ensures !lock && hist.rx == old(hist.rx) && hist.tx == old(hist.tx)
      ensures computeInbox == old(computeInbox) + [old(recvbuf).value] && recvbuf.None?
    {
      hide Calls, Taken, Outer, After, S.Next, S.IoNext, Abs;
      ghost var was := Abs(S.ReqCount, []);
      var it := Count(cfg);
      path := Own(cfg, false, start, before, was);
      path := HandOver(cfg, it, start, path);
    }

    method HandOver(ghost cfg: Config, it: S.Item, ghost start: S.Session, ghost before: seq<S.Act>)
      returns (ghost path: seq<S.Act>)
      requires After(cfg, false, start, before) == Some(Abs(S.ReqPut, [it]))
      modifies this`lock, this`computeInbox
      ensures NoCalls(before, path)
      ensures After(cfg, false, start, path) == Some(Abs(S.ReqTop, []))
      ensures !lock && computeInbox == old(computeInbox) + [it]
    {
      hide Calls, Taken, Outer, After, S.Next, S.IoNext, Abs;
      ghost var was := Abs(S.ReqPut, [it]);
      PutCompute(cfg, it);
      path := Own(cfg, false, start, before, was);
      was := Abs(S.ReqUnlock, []);
      DropLock(cfg, S.ReqUnlock);
      path := Own(cfg, false, start, path, was);
    }

    /** Why handle_request returns with the connection open: no buffer attached
        and none to be had, or the socket is empty. */
    ghost predicate RequestRests(cfg: Config, sock: Socket)
      reads this`recvbuf, this`received, this`sent, this`emptyBuffers, sock`log
    {
      if recvbuf.None? then Sub64(Wrap64(received), Wrap64(sent)) > cfg.readahead || emptyBuffers == []
      else LastIs(sock.log, S.IoRecvAgain)
    }

    /** After a finish: what was coming in and the pool, then the buffers behind
        sendbuf and recvbuf and those of the send queue, once each. */
    ghost predicate GivenUp(was: seq<nat>, queue: seq<S.Item>)
      reads this`sendbuf, this`sendQueue, this`recvbuf, this`computeInbox, this`emptyBuffers
    {
      sendQueue == [] && Incoming() + emptyBuffers == was + Ids(sendbuf) + Ids(recvbuf) + AllIds(queue)
    }

    /** handle_request. It follows the protocol from ReqTop to its return, with
        the results that the socket and the pool gave and no others; no byte the
        socket gave is lost, and none is made up. It goes on until it has to
        stop, and finishes the connection exactly when recv fails. */
    method HandleRequest(cfg: Config, sock: Socket, ghost start: S.Session, ghost before: seq<S.Act>)
      returns (ghost path: seq<S.Act>)
      requires !closed && !lock
      requires After(cfg, false, start, before) == Some(Abs(S.ReqTop, [])) && Calls(before) == sock.log
      modifies this, sock
      ensures After(cfg, false, start, path) == Some(Abs(S.IoIdle, []))
      ensures hist.rx + sock.pending == old(hist.rx) + old(sock.pending)
      ensures hist.tx == old(hist.tx) && sock.out == old(sock.out)
      ensures Calls(path) == sock.log && old(sock.log) <= sock.log
      ensures Keeps(old(Held()))
      ensures Outer(path) == Outer(before)
      ensures !closed ==> !lock && RequestRests(cfg, sock) && (recvbuf.Some? ==> old(sock.log) < sock.log)
      ensures !closed ==> Taken(before) + old(emptyBuffers) == Taken(path) + emptyBuffers
      ensures closed ==> LastIs(sock.log, S.IoRecvFail) && old(sock.log) < sock.log
      ensures sendbuf == old(sendbuf)
      ensures !closed ==> sendQueue == old(sendQueue) && Incoming() + emptyBuffers == old(Incoming() + emptyBuffers)
      ensures closed ==> GivenUp(old(Incoming() + emptyBuffers), old(sendQueue))
    {
      hide After, S.Next, S.IoNext, Abs, Calls, Taken, Outer, RequestRests, LastIs;
      path := before;
      var go := true;
      while go
        invariant go ==> !closed && !lock && After(cfg, false, start, path) == Some(Abs(S.ReqTop, []))
        invariant hist.rx + sock.pending == old(hist.rx) + old(sock.pending)
        invariant hist.tx == old(hist.tx) && sock.out == old(sock.out)
        invariant Calls(path) == sock.log && old(sock.log) <= sock.log
        invariant Outer(path) == Outer(before)
        invariant !closed ==> Taken(before) + old(emptyBuffers) == Taken(path) + emptyBuffers
        invariant sendbuf == old(sendbuf)
        invariant !closed ==> sendQueue == old(sendQueue) && Incoming() + emptyBuffers == old(Incoming() + emptyBuffers)
        invariant closed ==> GivenUp(old(Incoming() + emptyBuffers), old(sendQueue))
        invariant !go ==> After(cfg, false, start, path) == Some(Abs(S.IoIdle, []))
        invariant !go && !closed ==> !lock && RequestRests(cfg, sock) && (recvbuf.Some? ==> old(sock.log) < sock.log)
        invariant !go && closed ==> LastIs(sock.log, S.IoRecvFail) && old(sock.log) < sock.log
        decreases go, |sock.pending|
      {
        go, path := RequestTurn(cfg, sock, start, path);
      }
      if closed {
        Up(old(Incoming() + emptyBuffers), Ids(sendbuf), Ids(recvbuf), AllIds(old(sendQueue)), AllIds(computeInbox),
           emptyBuffers);
      }
    }

    /** One turn of the loop; `go` says that there is another. */
    method RequestTurn(cfg: Config, sock: Socket, ghost start: S.Session, ghost before: seq<S.Act>)
      returns (go: bool, ghost path: seq<S.Act>)
      requires !closed && !lock
      requires After(cfg, false, start, before) == Some(Abs(S.ReqTop, [])) && Calls(before) == sock.log
      modifies this, sock
      ensures After(cfg, false, start, path) == Some(Abs(if go then S.ReqTop else S.IoIdle, []))
      ensures hist.rx + sock.pending == old(hist.rx) + old(sock.pending)
      ensures hist.tx == old(hist.tx) && sock.out == old(sock.out)
      ensures Calls(path) == sock.log && old(sock.log) <= sock.log
      ensures Outer(path) == Outer(before)
      ensures !closed ==> !lock && Taken(before) + old(emptyBuffers) == Taken(path) + emptyBuffers
      ensures sendbuf == old(sendbuf)
      ensures !closed ==> sendQueue == old(sendQueue) && Incoming() + emptyBuffers == old(Incoming() + emptyBuffers)
      ensures closed ==> GivenUp(old(Incoming() + emptyBuffers), old(sendQueue))
      ensures go ==> !closed && |sock.pending| < |old(sock.pending)|
      ensures !go && !closed ==> RequestRests(cfg, sock) && (recvbuf.Some? ==> old(sock.log) < sock.log)
      ensures !go && closed ==> LastIs(sock.log, S.IoRecvFail) && old(sock.log) < sock.log
    {
      hide S.SendBytes, S.RecvBytes, S.RequestTop, After, S.Next, S.IoNext, Abs, Calls, Taken, Outer, Wrap64, Sub64,
           Ids, AllIds, I.Ones, Incoming, GivenUp;
      ghost var was := Abs(S.ReqTop, []);
      SocketActs(cfg, was);
      var ready, got := RequestTop(cfg);
      path := Extend(cfg, false, start, before, was, S.IoReqTop(got));
      if !ready {
        return false, path;
      }
      go, path := ReceiveTurn(cfg, sock, start, path);
    }

    /** The turn goes on with a buffer attached: one recv, and what follows. */
    method ReceiveTurn(cfg: Config, sock: Socket, ghost start: S.Session, ghost before: seq<S.Act>)
      returns (go: bool, ghost path: seq<S.Act>)
      requires !closed && !lock && recvbuf.Some?
      requires After(cfg, false, start, before) == Some(Abs(S.ReqRecv, [])) && Calls(before) == sock.log
      modifies this, sock
      ensures After(cfg, false, start, path) == Some(Abs(if go then S.ReqTop else S.IoIdle, []))
      ensures hist.rx + sock.pending == old(hist.rx) + old(sock.pending)
      ensures hist.tx == old(hist.tx) && sock.out == old(sock.out)
      ensures Calls(path) == sock.log && old(sock.log) < sock.log && Taken(path) == Taken(before)
      ensures Outer(path) == Outer(before)
      ensures !closed ==> !lock && emptyBuffers == old(emptyBuffers)
      ensures sendbuf == old(sendbuf)
      ensures !closed ==> sendQueue == old(sendQueue) && Incoming() == old(Incoming())
      ensures closed ==> GivenUp(old(Incoming() + emptyBuffers), old(sendQueue))
      ensures closed ==> !go && old(emptyBuffers) <= emptyBuffers && LastIs(sock.log, S.IoRecvFail)
      ensures go ==> |sock.pending| < |old(sock.pending)|
      ensures !go && !closed ==> recvbuf.Some? && LastIs(sock.log, S.IoRecvAgain)
    {
      hide IsCall, GotBy, S.InHandler, After, S.Next, S.IoNext, Abs, Calls, Taken, Outer, Wrap64, Sub64,
           Ids, AllIds, I.Ones, Incoming, GivenUp;
      ghost var was := Abs(S.ReqRecv, []);
      var r := Receive(cfg, sock);
      path := Extend(cfg, false, start, before, was, RecvAct(r));
      go := r.Data?;
      if r.RecvFail? {
        path := FinishRequest(cfg, start, path);
      } else if r.Data? {
        path := DeliverWhole(cfg, start, path);
      }
    }

    /** recv has failed. */
    method FinishRequest(cfg: Config, ghost start: S.Session, ghost before: seq<S.Act>) returns (ghost path: seq<S.Act>)
      requires !lock && After(cfg, false, start, before) == Some(Abs(S.FinTry(false), []))
      modifies this
      ensures After(cfg, false, start, path) == Some(Abs(S.IoIdle, [])) && NoCalls(before, path)
      ensures closed && hist == old(hist) && sendbuf == old(sendbuf) && old(emptyBuffers) <= emptyBuffers
      ensures GivenUp(old(Incoming() + emptyBuffers), old(sendQueue))
    {
      hide After, S.Next, S.IoNext, Abs, Calls, Taken, Outer, Wrap64, Ids, AllIds, I.Ones, Incoming;
      path := Finish(cfg, false, start, before);
      Behind(old(Incoming()), old(emptyBuffers), Ids(sendbuf), Ids(recvbuf), AllIds(old(sendQueue)));
    }

    // -------------------------------------------------------------- handle_response

    /** Every response in the connection has its full size, and the attached one
        has bytes left. */
    ghost predicate Sized()
      reads this`sendQueue, this`sendbuf
    {
      && (forall i :: 0 <= i < |sendQueue| ==> |sendQueue[i].res| == RESPONSE_SIZE)
      && (sendbuf.Some? ==> |sendbuf.value.res| == RESPONSE_SIZE && 0 < sendbuf.value.left <= RESPONSE_SIZE)
    }

    /** Bytes that the connection owes its peer. */
    ghost function Owed(): nat
      reads this`sendQueue, this`sendbuf
    {
      |sendQueue| * RESPONSE_SIZE + (if sendbuf.Some? then sendbuf.value.left else 0)
    }

    method ResponseTop(ghost cfg: Config, ghost more: bool) returns (ready: bool)
      requires !closed && Sized()
      modifies this`sendQueue, this`sendbuf
      ensures Sized() && Owed() == old(Owed()) && (ready <==> sendbuf.Some?)
      ensures !ready ==> sendQueue == []
      ensures Outgoing() == old(Outgoing())
      ensures Moves(S.RespTop(more), [], if ready then S.RespSend(more) else S.AfterResponse(more), [])
    {
      hide S.IoNext, S.AfterResponse;
      ResponseNext(Abs(S.RespTop(more), []));
      StillHas(S.AfterResponse(more), more);
      if sendbuf.None? {
        if sendQueue == [] {
          return false;
        }
        AttachResponse(cfg, more);
      }
      ready := true;
    }

    /** The first of the send queue is attached. */
    method AttachResponse(ghost cfg: Config, ghost more: bool)
      requires !closed && Sized() && sendbuf.None? && sendQueue != []
      modifies this`sendQueue, this`sendbuf
      ensures Sized() && Owed() == old(Owed()) && sendbuf.Some? && Outgoing() == old(Outgoing())
      ensures Moves(S.RespTop(more), [], S.RespSend(more), [])
    {
      hide S.IoNext;
      ghost var was := Abs(S.RespTop(more), []);
      ResponseNext(was);
      Split(sendQueue, Some(sendQueue[0]), sendQueue[1..]);
      sendbuf := Some(sendQueue[0].(left := RESPONSE_SIZE));
      sendQueue := sendQueue[1..];
      assert Abs(S.RespSend(more), []) == S.IoNext(was).value;
    }

    /** One send: how many bytes went, -1 for none, and the buffer when it is
        sent to the last byte. */
    method SendOnce(cfg: Config, ghost more: bool, sock: Socket)
      returns (n: int, again: bool, full: bool, done: Option<S.Item>, ghost d: Bytes)
      requires !closed && sendbuf.Some? && Sized() && cfg.maxIoSize > 0
      modifies this`sendbuf, this`sent, this`hist, sock
      ensures Sized() && sock.pending == old(sock.pending) && hist.rx == old(hist.rx)
      ensures sock.log == old(sock.log) + [SendAct(n, again)]
      ensures n >= 0 && !full ==> sendbuf.Some? && n < Min(sendbuf.value.left + n, cfg.maxIoSize)
      ensures n < 0 ==> sendbuf.Some?
      ensures hist.tx == old(hist.tx) + d && sock.out == old(sock.out) + d && Owed() + |d| == old(Owed())
      ensures full ==> d != []
      ensures n < 0 ==> !full && done.None? && hist == old(hist) && sent == old(sent)
      ensures Steps(cfg, S.RespSend(more), [], SendAct(n, again), SentPc(n, again, full, done, more), InHand(done))
      ensures n >= 0 && done.None? ==> sent == old(sent)
      ensures (n >= 0 && !full ==> done.None?) && (full ==> n >= 0)
      ensures Ids(done) + Outgoing() == old(Outgoing()) && (done.None? ==> Outgoing() == old(Outgoing()))
      ensures done.Some? ==> n >= 0 && full && sent == old(sent) + 1 && sendbuf.None?
    {
      hide S.SendBytes, S.RecvBytes, S.RequestTop, After, S.Next, S.IoNext, Abs;
      var it := sendbuf.value;
      var from := |it.res| - it.left;
      var size := S.IoSize(cfg, it);
      n, again := sock.Send(it.res[from..from + size]);
      full, done, d := false, None, [];
      if n < 0 {
        NothingSent(cfg, more, again);
        return;
      }
      d := S.SentSlice(it, n);
      SliceSent(it, size, n);
      SocketActs(cfg, Abs(S.RespSend(more), []));
      full, done := Sent(cfg, more, n);
      Between(Ids(done), Ids(sendbuf), AllIds(sendQueue));
      assert hist.tx == old(hist.tx) + d && sock.out == old(sock.out) + d;
    }

    lemma NothingSent(cfg: Config, more: bool, again: bool)
      requires !closed && sendbuf.Some?
      ensures S.Next(cfg, Abs(S.RespSend(more), []), if again then S.IoSendAgain else S.IoSendFail) ==
              Some(Abs(if again then S.AfterResponse(more) else S.FinTry(more), []))
    {}

    /** n bytes of the attached response have gone. */
    method Sent(cfg: Config, ghost more: bool, n: nat) returns (full: bool, done: Option<S.Item>)
      requires !closed && sendbuf.Some? && Sized() && n <= S.IoSize(cfg, sendbuf.value)
      modifies this`sendbuf, this`sent, this`hist
      ensures Sized() && Owed() + n == old(Owed())
      ensures full <==> n == S.IoSize(cfg, old(sendbuf).value)
      ensures !full ==> sendbuf == Some(old(sendbuf).value.(left := old(sendbuf).value.left - n))
      ensures hist.tx == old(hist.tx) + S.SentSlice(old(sendbuf).value, n) && hist.rx == old(hist.rx)
      ensures done.None? ==> sent == old(sent)
      ensures Ids(done) + Ids(sendbuf) == old(Ids(sendbuf))
      ensures done.Some? ==> full && sent == old(sent) + 1 && sendbuf.None?
      ensures S.SendBytes(cfg, old(Abs(S.RespSend(more), [])), n) ==
              Some(Abs(if !full then S.AfterResponse(more) else if done.None? then S.RespTop(more) else S.RespPut(more),
                       if done.Some? then [done.value] else []))
    {
      hide S.SentSlice, S.SendBytes, Abs;
      var left := sendbuf.value.left - n;
      full := n == S.IoSize(cfg, sendbuf.value);
      done := None;
      if left > 0 {
        SentPart(cfg, more, n);
      } else {
        var it := SentLast(cfg, more, n);
        done := Some(it);
      }
    }

    /** Bytes of it are left. */
    method SentPart(ghost cfg: Config, ghost more: bool, n: nat)
      requires !closed && sendbuf.Some? && n < sendbuf.value.left && n <= S.IoSize(cfg, sendbuf.value)
      modifies this`sendbuf, this`hist
      ensures sendbuf == Some(old(sendbuf).value.(left := old(sendbuf).value.left - n))
      ensures hist.tx == old(hist.tx) + S.SentSlice(old(sendbuf).value, n) && hist.rx == old(hist.rx)
      ensures S.SendBytes(cfg, old(Abs(S.RespSend(more), [])), n) ==
              Some(Abs(if n < S.IoSize(cfg, old(sendbuf).value) then S.AfterResponse(more) else S.RespTop(more), []))
    {
      hide S.SentSlice, S.SendBytes, S.IoSize, S.AfterResponse, I.SendGone, I.RecvGone;
      ghost var was := Abs(S.RespSend(more), []);
      StillHas(S.RespSend(more), more);
      SendNext(cfg, was, n);
      hist := hist.(tx := hist.tx + S.SentSlice(sendbuf.value, n));
      sendbuf := Some(sendbuf.value.(left := sendbuf.value.left - n));
      ghost var pc := if n < S.IoSize(cfg, old(sendbuf).value) then S.AfterResponse(more) else S.RespTop(more);
      StillHas(pc, more);
      assert Abs(pc, []) == S.SendBytes(cfg, was, n).value;
    }

    /** That was the last of it. */
    method SentLast(ghost cfg: Config, ghost more: bool, n: nat) returns (it: S.Item)
      requires !closed && sendbuf.Some? && n == sendbuf.value.left == S.IoSize(cfg, sendbuf.value)
      modifies this`sendbuf, this`sent, this`hist
      ensures Some(it.id) == Pointer(old(sendbuf))
      ensures sendbuf.None? && sent == old(sent) + 1
      ensures hist.tx == old(hist.tx) + S.SentSlice(old(sendbuf).value, n) && hist.rx == old(hist.rx)
      ensures S.SendBytes(cfg, old(Abs(S.RespSend(more), [])), n) == Some(Abs(S.RespPut(more), [it]))
    {
      hide S.SentSlice, S.SendBytes, S.IoSize;
      ghost var was := Abs(S.RespSend(more), []);
      SendsLast(cfg, was, n);
      it := sendbuf.value.(left := 0);
      sent := sent + 1;
      hist := hist.(tx := hist.tx + S.SentSlice(sendbuf.value, n), answered := hist.answered + [it]);
      sendbuf := None;
      assert Abs(S.RespPut(more), [it]) == S.SendBytes(cfg, was, n).value;
    }

    method Recheck(ghost cfg: Config, ghost more: bool)
      modifies this`epoll, this`kernel
      ensures Wrap64(processed) == Wrap64(sent) ==> !epoll.wr && epoll.rd == old(epoll).rd
      ensures Wrap64(processed) != Wrap64(sent) ==> epoll == old(epoll) && kernel == old(kernel)
      ensures Moves(S.RespCheck(more), [], S.RespUnlock(more), [])
    {
      hide S.IoNext, Wrap64, KernelAfter;
      ghost var was := Abs(S.RespCheck(more), []);
      RecheckNext(was);
      if Wrap64(processed) == Wrap64(sent) {
        SetEpoll(epoll.(wr := false));
      }
      assert Abs(S.RespUnlock(more), []) == S.IoNext(was).value;
    }

    /** After a response: the buffer goes back, and the interest in EPOLLOUT is
        reconsidered under the lock. */
    method Answered(ghost cfg: Config, ghost more: bool, it: S.Item, ghost start: S.Session, ghost before: seq<S.Act>)
      returns (ghost path: seq<S.Act>)
      requires !lock
      requires After(cfg, false, start, before) == Some(Abs(S.RespPut(more), [it]))
      modifies this`emptyBuffers, this`lock, this`epoll, this`kernel
      ensures NoCalls(before, path)
      ensures After(cfg, false, start, path) == Some(Abs(S.RespTop(more), []))
      ensures !lock && emptyBuffers == old(emptyBuffers) + [it.id]
      ensures Wrap64(processed) == Wrap64(sent) ==> !epoll.wr
    {
      hide Calls, Taken, Outer, After, S.Next, S.IoNext, Abs, Wrap64;
      ghost var was := Abs(S.RespPut(more), [it]);
      PutEmpty(cfg, S.RespPut(more), it);
      path := Own(cfg, false, start, before, was);
      path := LockAndReconsider(cfg, more, start, path);
    }

    method LockAndReconsider(ghost cfg: Config, ghost more: bool, ghost start: S.Session, ghost before: seq<S.Act>)
      returns (ghost path: seq<S.Act>)
      requires !lock
      requires After(cfg, false, start, before) == Some(Abs(S.RespLock(more), []))
      modifies this`lock, this`epoll, this`kernel
      ensures NoCalls(before, path)
      ensures After(cfg, false, start, path) == Some(Abs(S.RespTop(more), []))
      ensures !lock && (Wrap64(processed) == Wrap64(sent) ==> !epoll.wr)
    {
      hide Calls, Taken, Outer, After, S.Next, S.IoNext, Abs, Wrap64;
      ghost var was := Abs(S.RespLock(more), []);
      TakeLock(cfg, S.RespLock(more));
      path := Own(cfg, false, start, before, was);
      path := Reconsider(cfg, more, start, path);
    }

    method Reconsider(ghost cfg: Config, ghost more: bool, ghost start: S.Session, ghost before: seq<S.Act>)
      returns (ghost path: seq<S.Act>)
      requires After(cfg, false, start, before) == Some(Abs(S.RespCheck(more), []))
      modifies this`lock, this`epoll, this`kernel
      ensures NoCalls(before, path)
      ensures After(cfg, false, start, path) == Some(Abs(S.RespTop(more), []))
      ensures !lock && (Wrap64(processed) == Wrap64(sent) ==> !epoll.wr)
    {
      hide Calls, Taken, Outer, After, S.Next, S.IoNext, Abs, Wrap64;
      ghost var was := Abs(S.RespCheck(more), []);
      Recheck(cfg, more);
      path := Own(cfg, false, start, before, was);
      was := Abs(S.RespUnlock(more), []);
      DropLock(cfg, S.RespUnlock(more));
      path := Own(cfg, false, start, path, was);
    }

    /** Why handle_response returns with the connection open: nothing to send, or
        the socket is full, which it says by EAGAIN or by a short send. */
    ghost predicate ResponseRests(cfg: Config, sock: Socket)
      reads this`sendbuf, this`sendQueue, sock`log
    {
      if sendbuf.None? then sendQueue == []
      else
        && sock.log != []
        && var last := sock.log[|sock.log| - 1];
           last == S.IoSendAgain || (last.IoSend? && last.n < Min(sendbuf.value.left + last.n, cfg.maxIoSize))
    }

    /** After a finish: the pool has all that was in it and on its way out, in that
        order, and the buffer behind recvbuf somewhere between. */
    ghost predicate GivenBack(was: seq<nat>)
      reads this`recvbuf, this`sendQueue, this`emptyBuffers
    {
      sendQueue == [] && exists i :: 0 <= i <= |was| && emptyBuffers == was[..i] + Ids(recvbuf) + was[i..]
    }

    /** handle_response. It follows the protocol from RespTop to its return, with
        the results that the socket gave and no others; the bytes that the socket
        took are the next bytes of the responses, and the debt goes down by
        exactly as many, unless the connection is finished. It goes on until it
        has to stop, and finishes the connection exactly when send fails. */
    method HandleResponse(cfg: Config, more: bool, sock: Socket, ghost start: S.Session, ghost before: seq<S.Act>)
      returns (ghost path: seq<S.Act>)
      requires !closed && !lock && Sized() && cfg.maxIoSize > 0
      requires After(cfg, false, start, before) == Some(Abs(S.RespTop(more), [])) && Calls(before) == sock.log
      modifies this, sock
      ensures After(cfg, more && closed, start, path) == Some(Abs(S.AfterResponse(more), []))
      ensures sock.pending == old(sock.pending) && hist.rx == old(hist.rx)
      ensures exists d :: hist.tx == old(hist.tx) + d && sock.out == old(sock.out) + d &&
                          (!closed ==> Owed() + |d| == old(Owed()))
      ensures !closed ==> !lock && Sized()
      ensures Calls(path) == sock.log && Taken(path) == Taken(before) && old(sock.log) <= sock.log
      ensures Keeps(old(Held()))
      ensures Outer(path) == Outer(before) && recvbuf == old(recvbuf) && computeInbox == old(computeInbox)
      ensures !closed ==> emptyBuffers + Outgoing() == old(emptyBuffers + Outgoing())
      ensures closed ==> GivenBack(old(emptyBuffers + Outgoing()))
      ensures !closed ==> ResponseRests(cfg, sock) && (sendbuf.Some? ==> old(sock.log) < sock.log)
      ensures closed ==> LastIs(sock.log, S.IoSendFail) && old(sock.log) < sock.log
    {
      hide After, S.Next, S.IoNext, S.AfterResponse, Sized, Owed, Abs, Calls, Taken, Outer, ResponseRests, LastIs;
      path := before;
      var go := true;
      ghost var d: Bytes := [];
      while go
        invariant go ==> !closed && After(cfg, false, start, path) == Some(Abs(S.RespTop(more), []))
        invariant !closed ==> !lock && Sized() && Owed() + |d| == old(Owed())
        invariant sock.pending == old(sock.pending) && hist.rx == old(hist.rx)
        invariant hist.tx == old(hist.tx) + d && sock.out == old(sock.out) + d
        invariant Calls(path) == sock.log && Taken(path) == Taken(before) && old(sock.log) <= sock.log
        invariant Outer(path) == Outer(before) && recvbuf == old(recvbuf) && computeInbox == old(computeInbox)
        invariant !closed ==> emptyBuffers + Outgoing() == old(emptyBuffers + Outgoing())
        invariant closed ==> GivenBack(old(emptyBuffers + Outgoing()))
        invariant !go ==> After(cfg, more && closed, start, path) == Some(Abs(S.AfterResponse(more), []))
        invariant !go && !closed ==> ResponseRests(cfg, sock) && (sendbuf.Some? ==> old(sock.log) < sock.log)
        invariant !go && closed ==> LastIs(sock.log, S.IoSendFail) && old(sock.log) < sock.log
        decreases go, Owed()
      {
        ghost var e: Bytes;
        go, path, e := ResponseTurn(cfg, more, sock, start, path);
        d := d + e;
      }
      if closed {
        Back(AllIds(computeInbox), Ids(recvbuf), old(emptyBuffers), old(Outgoing()), emptyBuffers);
      } else {
        Along(AllIds(computeInbox) + Ids(recvbuf), old(emptyBuffers), old(Outgoing()), emptyBuffers, Outgoing());
      }
    }

    /** One turn of the loop; `go` says that there is another, and `e` is what
        the socket took. */
    method ResponseTurn(cfg: Config, more: bool, sock: Socket, ghost start: S.Session, ghost before: seq<S.Act>)
      returns (go: bool, ghost path: seq<S.Act>, ghost e: Bytes)
      requires !closed && !lock && Sized() && cfg.maxIoSize > 0
      requires After(cfg, false, start, before) == Some(Abs(S.RespTop(more), [])) && Calls(before) == sock.log
      modifies this, sock
      ensures go ==> !closed && After(cfg, false, start, path) == Some(Abs(S.RespTop(more), []))
      ensures !go ==> After(cfg, more && closed, start, path) == Some(Abs(S.AfterResponse(more), []))
      ensures sock.pending == old(sock.pending) && hist.rx == old(hist.rx)
      ensures hist.tx == old(hist.tx) + e && sock.out == old(sock.out) + e
      ensures !closed ==> !lock && Sized() && Owed() + |e| == old(Owed()) && (go ==> e != [])
      ensures Calls(path) == sock.log && Taken(path) == Taken(before) && old(sock.log) <= sock.log
      ensures Outer(path) == Outer(before) && recvbuf == old(recvbuf) && computeInbox == old(computeInbox)
      ensures !closed ==> emptyBuffers + Outgoing() == old(emptyBuffers + Outgoing())
      ensures closed ==> GivenBack(old(emptyBuffers + Outgoing()))
      ensures !go && !closed ==> ResponseRests(cfg, sock) && (sendbuf.Some? ==> old(sock.log) < sock.log)
      ensures !go && closed ==> LastIs(sock.log, S.IoSendFail) && old(sock.log) < sock.log
    {
      hide After, S.Next, S.IoNext, S.AfterResponse, S.IoSize, Sized, Owed, Abs, Calls, Taken, Outer, Wrap64,
           Ids, AllIds, I.Ones;
      go, e := false, [];
      ghost var was := Abs(S.RespTop(more), []);
      var ready := ResponseTop(cfg, more);
      path := Own(cfg, false, start, before, was);
      if !ready {
        return;
      }
      go, path, e := SendTurn(cfg, more, sock, start, path);
    }

    /** The turn goes on with a response attached: one send, and what follows. */
    method SendTurn(cfg: Config, more: bool, sock: Socket, ghost start: S.Session, ghost before: seq<S.Act>)
      returns (go: bool, ghost path: seq<S.Act>, ghost e: Bytes)
      requires !closed && !lock && sendbuf.Some? && Sized() && cfg.maxIoSize > 0
      requires After(cfg, false, start, before) == Some(Abs(S.RespSend(more), [])) && Calls(before) == sock.log
      modifies this, sock
      ensures go ==> !closed && After(cfg, false, start, path) == Some(Abs(S.RespTop(more), []))
      ensures !go ==> After(cfg, more && closed, start, path) == Some(Abs(S.AfterResponse(more), []))
      ensures sock.pending == old(sock.pending) && hist.rx == old(hist.rx)
      ensures hist.tx == old(hist.tx) + e && sock.out == old(sock.out) + e
      ensures !closed ==> !lock && Sized() && Owed() + |e| == old(Owed()) && (go ==> e != [])
      ensures Calls(path) == sock.log && Taken(path) == Taken(before) && old(sock.log) < sock.log
      ensures Outer(path) == Outer(before) && recvbuf == old(recvbuf) && computeInbox == old(computeInbox)
      ensures !closed ==> emptyBuffers + Outgoing() == old(emptyBuffers + Outgoing())
      ensures closed ==> GivenBack(old(emptyBuffers + Outgoing()))
      ensures !go && !closed ==> sendbuf.Some? && ResponseRests(cfg, sock)
      ensures closed ==> !go && LastIs(sock.log, S.IoSendFail)
    {
      hide IsCall, GotBy, S.InHandler, After, S.Next, S.IoNext, S.AfterResponse, S.IoSize, Sized, Owed, Abs,
           Calls, Taken, Outer, Wrap64, Ids, AllIds, I.Ones, GivenBack, Outgoing;
      ghost var was := Abs(S.RespSend(more), []);
      var n, again, full, done, d := SendOnce(cfg, more, sock);
      path := Extend(cfg, false, start, before, was, SendAct(n, again));
      go, e := full, d;
      if n < 0 && !again {
        path := FinishResponse(cfg, more, start, path);
      } else {
        path := AnsweredWhole(cfg, more, SentPc(n, again, full, done, more), done, start, path);
      }
    }

    /** The buffer of a response that is sent goes back. */
    method AnsweredWhole(ghost cfg: Config, ghost more: bool, ghost pc: S.IoPc, done: Option<S.Item>,
                         ghost start: S.Session, ghost before: seq<S.Act>)
      returns (ghost path: seq<S.Act>)
      requires !lock
      requires After(cfg, false, start, before) == Some(Abs(if done.Some? then S.RespPut(more) else pc, InHand(done)))
      modifies this`emptyBuffers, this`lock, this`epoll, this`kernel
      ensures NoCalls(before, path) && !lock
      ensures emptyBuffers + Outgoing() == old(emptyBuffers) + (Ids(done) + Outgoing())
      ensures After(cfg, false, start, path) == Some(Abs(if done.Some? then S.RespTop(more) else pc, []))
    {
      hide Calls, Taken, Outer, After, S.Next, S.IoNext, Abs, Outgoing;
      path := before;
      if done.Some? {
        path := Answered(cfg, more, done.value, start, path);
      }
      Between(old(emptyBuffers), Ids(done), Outgoing());
    }

    /** send has failed. */
    method FinishResponse(ghost cfg: Config, more: bool, ghost start: S.Session, ghost before: seq<S.Act>)
      returns (ghost path: seq<S.Act>)
      requires !lock && After(cfg, false, start, before) == Some(Abs(S.FinTry(more), []))
      modifies this
      ensures After(cfg, more, start, path) == Some(Abs(S.AfterResponse(more), [])) && NoCalls(before, path)
      ensures closed && hist == old(hist) && recvbuf == old(recvbuf) && computeInbox == old(computeInbox)
      ensures GivenBack(old(emptyBuffers + Outgoing()))
    {
      hide After, S.Next, S.IoNext, S.AfterResponse, Abs, Calls, Taken, Outer, Wrap64, Ids, AllIds, I.Ones;
      path := Finish(cfg, more, start, before);
      PutIn(old(emptyBuffers), Ids(sendbuf), Ids(recvbuf), AllIds(old(sendQueue)));
    }

    // -------------------------------------------------------------- the dispatch

    method Event(ghost cfg: Config, err: bool, out: bool, inp: bool)
      requires kernel.Some?
      ensures Steps(cfg, S.IoIdle, [], S.IoEvent(err, out, inp),
                    if err then S.FinTry(false) else if out then S.RespTop(inp) else S.AfterResponse(inp), [])
    {}

    /** A registered connection is being served, and its responses are whole. */
    lemma Registered(cfg: Config)
      requires ValidConfig(cfg) && kernel.Some?
      requires I.Inv(cfg, Abs(S.IoIdle, [])) && H.Faithful(cfg, Abs(S.IoIdle, []))
      ensures !closed && Sized()
    {
      forall i | 0 <= i < |sendQueue| ensures |sendQueue[i].res| == RESPONSE_SIZE {
        H.ReplySize(cfg, sendQueue[i]);
      }
      if sendbuf.Some? {
        H.ReplySize(cfg, sendbuf.value);
      }
    }

    /** One event of __io_worker: responses go before requests. `sock.log` is that
        of the event, and the path's results are those; the event is its one act that no handler
        takes. From a state that
        the protocol's invariants describe, the thread comes back to its wait in
        such a state, having moved bytes only from the socket's stream into the
        requests and from the responses to the socket. `astray` says that
        handle_response has finished the connection and the event has EPOLLIN as
        well; the code then runs handle_request on what is no longer its
        connection, which the second hypothesis of the protocol rules out, and
        this method stops. */
    method Dispatch(cfg: Config, err: bool, out: bool, inp: bool, sock: Socket)
      returns (ghost path: seq<S.Act>, astray: bool)
      requires ValidConfig(cfg) && kernel.Some? && !lock
      requires I.Inv(cfg, Abs(S.IoIdle, [])) && H.Faithful(cfg, Abs(S.IoIdle, []))
      requires sock.log == []
      modifies this, sock
      ensures Outer(path) == [S.IoEvent(err, out, inp)]
      ensures Calls(path) == sock.log && (err || (!out && !inp) ==> sock.log == [])
      ensures err ==> closed
      ensures Keeps(old(Held()))
      ensures !err && inp && !closed ==> RequestRests(cfg, sock)
      ensures !err && out && !inp && !closed ==> ResponseRests(cfg, sock)
      ensures !err && closed ==> LastIs(sock.log, if inp && !astray then S.IoRecvFail else S.IoSendFail)
      ensures astray ==> !err && out && inp && closed && sock.pending == old(sock.pending)
      ensures astray ==> After(cfg, true, old(Abs(S.IoIdle, [])), path) == Some(Abs(S.ReqTop, []))
      ensures !astray ==> After(cfg, false, old(Abs(S.IoIdle, [])), path) == Some(Abs(S.IoIdle, []))
      ensures !astray ==> I.Inv(cfg, Abs(S.IoIdle, [])) && H.Faithful(cfg, Abs(S.IoIdle, []))
      ensures hist.rx + sock.pending == old(hist.rx) + old(sock.pending)
      ensures exists d :: hist.tx == old(hist.tx) + d && sock.out == old(sock.out) + d
    {
      hide Calls, Taken, Outer, S.Next, S.IoNext, Abs, Owed, Sized, I.Inv, H.Faithful, Held;
      ghost var start := Abs(S.IoIdle, []);
      ghost var d: Bytes := [];
      Registered(cfg);
      Event(cfg, err, out, inp);
      path := Extend(cfg, false, start, Standing(cfg, start), start, S.IoEvent(err, out, inp));
      if err {
        path := FinishEvent(cfg, start, path);
      } else {
        if out {
          path := HandleResponse(cfg, inp, sock, start, path);
          d :| hist.tx == old(hist.tx) + d && sock.out == old(sock.out) + d;
        }
        if inp {
          if closed {
            return path, true;
          }
          path := HandleRequest(cfg, sock, start, path);
        }
      }
      assert hist.tx == old(hist.tx) + d && sock.out == old(sock.out) + d;
      AfterKeeps(cfg, start, path, Abs(S.IoIdle, []));
      astray := false;
    }

    /** EPOLLERR. */
    method FinishEvent(ghost cfg: Config, ghost start: S.Session, ghost before: seq<S.Act>)
      returns (ghost path: seq<S.Act>)
      requires !lock && After(cfg, false, start, before) == Some(Abs(S.FinTry(false), []))
      modifies this
      ensures After(cfg, false, start, path) == Some(Abs(S.IoIdle, [])) && NoCalls(before, path)
      ensures closed && hist == old(hist) && Keeps(old(Held()))
    {
      hide After, S.Next, S.IoNext, Abs, Calls, Taken, Outer, Wrap64, Ids, AllIds, I.Ones;
      path := Finish(cfg, false, start, before);
      Behind(old(Incoming()), old(emptyBuffers), Ids(sendbuf), Ids(recvbuf), AllIds(old(sendQueue)));
      Up(old(Incoming() + emptyBuffers), Ids(sendbuf), Ids(recvbuf), AllIds(old(sendQueue)), AllIds(computeInbox),
         emptyBuffers);
    }

    // -------------------------------------------------------------- the fall-through

    /** handle_request on a connection that handle_response has just finished and
        left to the submitter, in the same event; the descriptor is closed, so
        recv fails and the connection is finished again. */
    method FallThrough(cfg: Config) returns (twice: bool)
      requires closed && !lock && sendQueue == []
      modifies this
      ensures sendbuf == old(sendbuf) && received == old(received) && sent == old(sent)
      ensures twice <==> old(recvbuf).Some? ||
                         (Sub64(Wrap64(received), Wrap64(sent)) <= cfg.readahead && old(emptyBuffers) != [])
      ensures !twice ==> emptyBuffers == old(emptyBuffers)
      ensures twice && old(recvbuf).Some? ==> emptyBuffers == old(emptyBuffers) + Ids(sendbuf) + Ids(old(recvbuf))
      ensures twice && old(recvbuf).None? ==>
                emptyBuffers == old(emptyBuffers)[1..] + Ids(sendbuf) + [old(emptyBuffers)[0]]
    {
      hide After, S.Next, S.IoNext, S.AfterResponse, Abs;
      if recvbuf.None? {
        if Sub64(Wrap64(received), Wrap64(sent)) > cfg.readahead {
          return false;
        }
        if emptyBuffers == [] {
          return false;
        }
        recvbuf := Some(S.Item(emptyBuffers[0], [], [], REQUEST_SIZE));
        emptyBuffers := emptyBuffers[1..];
      }
      ghost var start := Abs(S.FinTry(false), []);
      ghost var path := Finish(cfg, false, start, Standing(cfg, start));
      twice := true;
    }

    /** What the fall-through does to the pool. With buffers of the connection in
        flight, it always comes to a second finish, unless recvbuf is NULL and
        there is no head room; and then the buffer behind `sendbuf`, and the one
        behind `recvbuf`, are in the pool once more than they were given. */
    method FinishThenRequest(cfg: Config) returns (twice: bool)
      requires !closed && !lock && sendbuf.Some?
      modifies this
      ensures twice <==> Wrap64(sent) != Wrap64(received) &&
                         (old(recvbuf).Some? || Sub64(Wrap64(received), Wrap64(sent)) <= cfg.readahead)
      ensures sent == old(sent) + |old(sendQueue)| && received == old(received)
      ensures multiset(emptyBuffers) ==
              multiset(old(emptyBuffers) + old(Ids(sendbuf) + Ids(recvbuf) + AllIds(sendQueue))) +
              multiset(if twice then old(Ids(sendbuf) + Ids(recvbuf)) else [])
    {
      hide Wrap64, Sub64, AllIds;
      JustFinish(cfg);
      twice := false;
      if !lock {
        twice := FallsThrough(cfg);
      }
    }

    method JustFinish(cfg: Config)
      requires !lock
      modifies this
      ensures closed && sendQueue == [] && sent == old(sent) + |old(sendQueue)|
      ensures lock <==> Wrap64(sent) == Wrap64(received)
      ensures emptyBuffers == old(emptyBuffers) + old(Ids(sendbuf) + Ids(recvbuf) + AllIds(sendQueue))
      ensures sendbuf == old(sendbuf) && recvbuf == old(recvbuf) && received == old(received)
    {
      hide After, S.Next, S.IoNext, S.AfterResponse, Abs, Wrap64, Ids, AllIds, I.Ones;
      ghost var start := Abs(S.FinTry(true), []);
      ghost var path := Finish(cfg, true, start, Standing(cfg, start));
    }

    /** The pool after a fall-through, as a multiset; it is not empty before. */
    method FallsThrough(cfg: Config) returns (twice: bool)
      requires closed && !lock && sendQueue == [] && emptyBuffers != []
      modifies this
      ensures twice <==> old(recvbuf).Some? || Sub64(Wrap64(received), Wrap64(sent)) <= cfg.readahead
      ensures sent == old(sent) && received == old(received)
      ensures multiset(emptyBuffers) ==
              multiset(old(emptyBuffers)) + multiset(if twice then old(Ids(sendbuf) + Ids(recvbuf)) else [])
    {
      hide Wrap64, Sub64;
      ghost var pool := emptyBuffers;
      twice := FallThrough(cfg);
      if twice && old(recvbuf).None? {
        Rotated(pool, Ids(sendbuf));
      }
    }
  }

  /** What the top of handle_response does. */
  lemma ResponseNext(v: S.Session)
    ensures v.io.RespTop? && v.conn.sendbuf.Some? ==> S.IoNext(v) == Some(v.(io := S.RespSend(v.io.more)))
    ensures v.io.RespTop? && v.conn.sendbuf.None? && v.sendq == [] ==>
              S.IoNext(v) == Some(v.(io := S.AfterResponse(v.io.more)))
    ensures v.io.RespTop? && v.conn.sendbuf.None? && v.sendq != [] ==>
              S.IoNext(v) == Some(v.(sendq := v.sendq[1..], send := [v.sendq[0].(left := RESPONSE_SIZE)],
                                     conn := v.conn.(sendbuf := Some(v.sendq[0].id)), io := S.RespSend(v.io.more)))
  {
  }

  /** What lock and unlock do. */
  lemma LockNext(v: S.Session)
    ensures (v.io.ReqLock? || v.io.RespLock?) && !v.conn.lock ==>
              S.IoNext(v) == Some(v.(conn := v.conn.(lock := true),
                                     io := if v.io.ReqLock? then S.ReqCount else S.RespCheck(v.io.more)))
    ensures v.io.ReqUnlock? || v.io.RespUnlock? ==>
              S.IoNext(v) == Some(v.(conn := v.conn.(lock := false),
                                     io := if v.io.ReqUnlock? then S.ReqTop else S.RespTop(v.io.more)))
  {
  }

  lemma CountNext(v: S.Session)
    requires v.io == S.ReqCount && v.recv != []
    ensures S.IoNext(v) ==
            Some(v.(io := S.ReqPut, recv := [], iohand := v.recv,
                    conn := v.conn.(received := v.conn.received + 1, recvbuf := None,
                                    hist := v.conn.hist.(delivered := v.conn.hist.delivered + [v.recv[0].req]))))
  {
  }

  lemma Behind(incoming: seq<nat>, pool: seq<nat>, sent: seq<nat>, recv: seq<nat>, queue: seq<nat>)
    ensures incoming + (pool + sent + recv + queue) == incoming + pool + sent + recv + queue
  {
  }

  lemma PutIn(pool: seq<nat>, sent: seq<nat>, recv: seq<nat>, queue: seq<nat>)
    ensures var was := pool + (sent + queue);
            var i := |pool| + |sent|;
            i <= |was| && pool + sent + recv + queue == was[..i] + recv + was[i..]
  {
  }

  lemma Up(was: seq<nat>, sent: seq<nat>, recv: seq<nat>, queue: seq<nat>, inbox: seq<nat>, pool: seq<nat>)
    requires inbox + recv + pool == was + sent + recv + queue
    ensures multiset(inbox + pool) == multiset(was + (sent + queue))
  {
    Without(inbox, recv, pool);
    Without(was + sent, recv, queue);
    assert was + sent + queue == was + (sent + queue);
    Cancel(multiset(inbox + pool), multiset(was + sent + queue), multiset(recv));
  }

  lemma Cancel(a: multiset<nat>, b: multiset<nat>, c: multiset<nat>)
    requires a + c == b + c
    ensures a == b
  {
    forall x ensures a[x] == b[x] {
      assert (a + c)[x] == (b + c)[x];
    }
  }

  /** What stands between counts by itself. */
  lemma Without(a: seq<nat>, b: seq<nat>, c: seq<nat>)
    ensures multiset(a + b + c) == multiset(a + c) + multiset(b)
  {
    Cat(a + b, c);
    Cat(a, b);
    Cat(a, c);
  }

  lemma Back(inbox: seq<nat>, recv: seq<nat>, was: seq<nat>, out: seq<nat>, pool: seq<nat>)
    requires exists i :: 0 <= i <= |was + out| && pool == (was + out)[..i] + recv + (was + out)[i..]
    ensures multiset(inbox + pool) == multiset(inbox + recv + was + out)
  {
    var i :| 0 <= i <= |was + out| && pool == (was + out)[..i] + recv + (was + out)[i..];
    Without((was + out)[..i], recv, (was + out)[i..]);
    assert (was + out)[..i] + (was + out)[i..] == was + out;
    Without(inbox, recv, was + out);
    assert inbox + recv + (was + out) == inbox + recv + was + out;
    Cat(inbox, pool);
    Cat(inbox, was + out);
  }

  lemma Cat(a: seq<nat>, b: seq<nat>)
    ensures multiset(a + b) == multiset(a) + multiset(b)
  {
  }

  lemma Along(incoming: seq<nat>, pool: seq<nat>, out: seq<nat>, pool': seq<nat>, out': seq<nat>)
    requires pool' + out' == pool + out
    ensures incoming + pool' + out' == incoming + pool + out
  {
    assert incoming + pool' + out' == incoming + (pool' + out');
    assert incoming + pool + out == incoming + (pool + out);
  }

  lemma Between(incoming: seq<nat>, recv: seq<nat>, pool: seq<nat>)
    ensures incoming + recv + pool == incoming + (recv + pool)
  {
  }

  /** A buffer that is handed over comes next. */
  lemma Handed(inbox: seq<S.Item>, it: S.Item)
    ensures AllIds(inbox + [it]) + Ids(None) == AllIds(inbox) + Ids(Some(it))
  {
  }

  lemma Split(queue: seq<S.Item>, q: Option<S.Item>, rest: seq<S.Item>)
    requires queue == (if q.Some? then [q.value] else []) + rest
    ensures AllIds(queue) == Ids(q) + AllIds(rest)
    ensures forall e: seq<nat> :: e + Ids(q) + AllIds(rest) == e + AllIds(queue)
    ensures AllIds([]) == []
  {
    assert AllIds(queue) == Ids(q) + AllIds(rest);
    forall e: seq<nat> ensures e + Ids(q) + AllIds(rest) == e + AllIds(queue) {
      assert e + Ids(q) + AllIds(rest) == e + (Ids(q) + AllIds(rest));
    }
  }

  lemma DrainNext(v: S.Session)
    requires v.io.FinDrain?
    ensures S.IoNext(v) ==
            Some(if v.sendq == [] then v.(io := S.FinDecide(v.io.more))
                 else v.(sendq := v.sendq[1..], iohand := [v.sendq[0]], io := S.FinPut(v.io.more),
                         conn := v.conn.(sent := v.conn.sent + 1)))
  {
  }

  lemma LeaveNext(v: S.Session)
    requires v.io.FinRelease? || v.io.FinUnlock?
    ensures S.IoNext(v) ==
            Some(if v.io.FinRelease? then v.(nfree := v.nfree + 1, io := S.AfterResponse(v.io.more))
                 else v.(conn := v.conn.(lock := false), io := S.AfterResponse(v.io.more)))
  {
  }

  lemma RecheckNext(v: S.Session)
    requires v.io.RespCheck?
    ensures S.IoNext(v) ==
            Some(v.(io := S.RespUnlock(v.io.more),
                    conn := if Wrap64(v.conn.processed) == Wrap64(v.conn.sent)
                            then S.SetEpoll(v.conn, v.conn.epoll.(wr := false)) else v.conn))
  {
  }

  lemma TopNext(cfg: Config, v: S.Session)
    requires v.io == S.ReqTop
    ensures v.conn.recvbuf.Some? ==> S.RequestTop(cfg, v, None) == Some(v.(io := S.ReqRecv))
    ensures v.conn.recvbuf.None? ==> S.RequestTop(cfg, v, None) == Some(v.(io := S.IoIdle))
  {
  }

  lemma TopTakes(cfg: Config, v: S.Session, b: nat)
    requires v.io == S.ReqTop && v.conn.recvbuf.None? && !S.TooFarAhead(cfg, v.conn)
    ensures S.RequestTop(cfg, v, Some(b)) ==
            Some(v.(recv := [S.Item(b, [], [], REQUEST_SIZE)], conn := v.conn.(recvbuf := Some(b)), io := S.ReqRecv))
  {
  }

  lemma StillHas(pc: S.IoPc, more: bool)
    requires pc.RespSend? || pc.RespTop? || pc == S.AfterResponse(more)
    ensures !I.SendGone(pc) && !I.RecvGone(pc)
  {
  }

  lemma SliceSent(it: S.Item, size: nat, n: nat)
    requires n <= size <= it.left <= |it.res|
    ensures it.res[|it.res| - it.left..|it.res| - it.left + size][..n] == S.SentSlice(it, n)
  {
  }

  lemma SendNext(cfg: Config, v: S.Session, n: nat)
    requires v.io.RespSend? && v.send != [] && n <= S.IoSize(cfg, v.send[0])
    ensures var it := v.send[0].(left := v.send[0].left - n);
            var h := v.conn.hist.(tx := v.conn.hist.tx + S.SentSlice(v.send[0], n));
            S.SendBytes(cfg, v, n) ==
            Some(if n < S.IoSize(cfg, v.send[0]) then
                   v.(send := [it], conn := v.conn.(hist := h), io := S.AfterResponse(v.io.more))
                 else if it.left > 0 then v.(send := [it], conn := v.conn.(hist := h), io := S.RespTop(v.io.more))
                 else v.(send := [], iohand := [it], io := S.RespPut(v.io.more),
                         conn := v.conn.(sent := v.conn.sent + 1, sendbuf := None,
                                         hist := h.(answered := h.answered + [it]))))
  {
    hide S.SentSlice;
  }

  lemma SendsLast(cfg: Config, v: S.Session, n: nat)
    requires v.io.RespSend? && v.send != [] && n == v.send[0].left == S.IoSize(cfg, v.send[0])
    ensures var it := v.send[0].(left := 0);
            var h := v.conn.hist.(tx := v.conn.hist.tx + S.SentSlice(v.send[0], n),
                                  answered := v.conn.hist.answered + [it]);
            S.SendBytes(cfg, v, n) ==
            Some(v.(send := [], iohand := [it], io := S.RespPut(v.io.more),
                    conn := v.conn.(sent := v.conn.sent + 1, sendbuf := None, hist := h)))
  {
    hide S.SentSlice;
  }

  lemma RecvNext(cfg: Config, v: S.Session, bytes: Bytes)
    requires v.io == S.ReqRecv && v.recv != [] && 0 < |bytes| <= S.IoSize(cfg, v.recv[0])
    ensures var it := S.ReceivedInto(v.recv[0], bytes);
            S.RecvBytes(cfg, v, bytes) ==
            Some(v.(recv := [it], conn := v.conn.(hist := v.conn.hist.(rx := v.conn.hist.rx + bytes)),
                    io := if it.left == 0 then S.ReqLock else S.ReqTop))
  {
  }

  lemma SocketActs(cfg: Config, v: S.Session)
    ensures forall n :: S.Next(cfg, v, S.IoSend(n)) == S.SendBytes(cfg, v, n)
    ensures forall bytes :: S.Next(cfg, v, S.IoRecv(bytes)) == S.RecvBytes(cfg, v, bytes)
    ensures forall got :: S.Next(cfg, v, S.IoReqTop(got)) == S.RequestTop(cfg, v, got)
  {
  }

  ghost function Standing(cfg: Config, v: S.Session): (path: seq<S.Act>)
    ensures After(cfg, false, v, path) == Some(v) && Calls(path) == [] && Taken(path) == [] && Outer(path) == []
  {
    []
  }

  /** Extend by a step of the IO thread's own. */
  ghost method Own(cfg: Config, lax: bool, v: S.Session, acts: seq<S.Act>, u: S.Session) returns (path: seq<S.Act>)
    requires After(cfg, lax, v, acts) == Some(u) && (lax || S.Good(u, S.IoStep))
    ensures After(cfg, lax, v, path) == S.IoNext(u) && NoCalls(acts, path)
  {
    hide S.IoNext, S.Good;
    path := Extend(cfg, lax, v, acts, u, S.IoStep);
  }

  ghost method Extend(cfg: Config, lax: bool, v: S.Session, acts: seq<S.Act>, u: S.Session, a: S.Act)
    returns (path: seq<S.Act>)
    requires After(cfg, lax, v, acts) == Some(u) && (lax || S.Good(u, a))
    ensures After(cfg, lax, v, path) == S.Next(cfg, u, a)
    ensures Calls(path) == Calls(acts) + (if IsCall(a) then [a] else []) && Taken(path) == Taken(acts) + GotBy(a)
    ensures Outer(path) == Outer(acts) + (if S.InHandler(a) then [] else [a])
  {
    AfterStep(cfg, lax, v, acts, u, a);
    path := acts + [a];
    assert path[..|path| - 1] == acts;
  }
}
