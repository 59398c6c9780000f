/** The compute and submitter threads (src/server/compute.c,
    src/server/io/submit.c), one turn of each worker's loop, proved to take the
    connection through steps of SessionProtocol like the handlers of IoWorker.
    The inboxes hold the buffers of one connection here; module ServerMachine
    has the shared ones.
 */
module StageWorkers {
  import opened Rpc
  import opened Epoll
  import S = SessionProtocol
  import I = SessionInvariant
  import W = IoWorker

  // ---------------------------------------------------------------- compute_request

  /** A monotonic clock, by the number of the reading, in nanoseconds: it may
      repeat a reading, but it does not stop for ever. */
  ghost predicate Advancing(clock: nat -> nat) {
    && (forall i: nat, j: nat :: i <= j ==> clock(i) <= clock(j))
    && (forall bound: nat :: Reaches(clock, bound))
  }

  ghost predicate Reaches(clock: nat -> nat, bound: nat) { exists i: nat :: clock(i) >= bound }

  /** compute_request. It digests at least once, goes on until the first reading
      that is nsec after the start, and answers with the request's own id. */
  method ComputeRequest(cfg: Config, clock: nat -> nat, nsec: nat, req: Bytes) returns (res: Bytes, readings: nat)
    requires Advancing(clock) && |req| >= ID_SIZE
    ensures res == Respond(cfg, req)
    ensures readings > 0 && clock(readings) >= clock(0) + nsec
    ensures forall i :: 0 < i < readings ==> clock(i) < clock(0) + nsec
  {
    var start := clock(0);
    readings := 0;
    var sha: Bytes;
    assert Reaches(clock, start + nsec);
    ghost var late: nat :| clock(late) >= start + nsec;
    while true
      invariant clock(readings) >= start
      invariant readings <= late || readings == 0
      invariant forall i :: 0 < i <= readings ==> clock(i) < start + nsec
      decreases late + 1 - readings
    {
      sha := cfg.sha1(req[ID_SIZE..]);
      readings := readings + 1;
      if clock(readings) - start >= nsec {
        break;
      }
    }
    res := req[..ID_SIZE] + sha;
  }

  // ---------------------------------------------------------------- the stages

  class Stages {
    var received: nat
    var processed: nat
    var sent: nat
    var closed: bool
    var lock: bool
    var epoll: Interest
    var kernel: Registration
    var sendQueue: seq<S.Item>
    var computeInbox: seq<S.Item>
    var submitInbox: seq<S.Item>
    var emptyBuffers: seq<nat>
    var freeCount: nat

    /** The IO thread and its buffers, which these threads do not touch, and
        the history but for the recycled mark. */
    ghost var rest: S.Session
    ghost var recycled: bool

    ghost function Abs(comp: S.CompPc, chand: seq<S.Item>, sub: S.SubPc, shand: seq<S.Item>): (v: S.Session)
      reads this
    {
      var k := rest.conn;
      var h := k.hist;
      S.Session(
        S.Conn(k.ioidx, k.computeidx, k.submitidx, received, processed, sent, closed, lock, epoll, kernel,
               k.recvbuf, k.sendbuf, S.History(h.rx, h.tx, h.delivered, h.answered, recycled)),
        rest.recv, rest.send, sendQueue, computeInbox, chand, submitInbox, shand, rest.iohand,
        rest.io, comp, sub, freeCount, rest.accepting)
    }

    /** With the other of the two threads between its turns. */
    ghost function Computing(pc: S.CompPc, hand: seq<S.Item>): S.Session
      reads this
    {
      Abs(pc, hand, S.SubIdle, [])
    }

    ghost function Submitting(pc: S.SubPc, hand: seq<S.Item>): S.Session
      reads this
    {
      Abs(S.CompIdle, [], pc, hand)
    }

    twostate predicate Steps(cfg: Config, pc: S.SubPc, hand: seq<S.Item>, a: S.Act, pc': S.SubPc, hand': seq<S.Item>)
      reads this
    {
      S.Next(cfg, old(Submitting(pc, hand)), a) == Some(Submitting(pc', hand'))
    }

    // -------------------------------------------------------------- compute_worker

    /** One turn of compute_worker: nothing on an empty inbox; otherwise the
        first buffer goes, answered, to the end of the submitter's inbox. */
    method ComputeOne(cfg: Config, clock: nat -> nat, nsec: nat) returns (ghost path: seq<S.Act>)
      requires Advancing(clock) && forall i :: 0 <= i < |computeInbox| ==> |computeInbox[i].req| == REQUEST_SIZE
      modifies this`computeInbox, this`submitInbox
      ensures W.After(cfg, false, old(Computing(S.CompIdle, [])), path) == Some(Computing(S.CompIdle, []))
      ensures old(computeInbox) == [] ==> submitInbox == old(submitInbox) && computeInbox == []
      ensures old(computeInbox) != [] ==>
                var it := old(computeInbox)[0];
                computeInbox == old(computeInbox)[1..] &&
                submitInbox == old(submitInbox) + [it.(res := Respond(cfg, it.req))]
    {
      hide W.After, W.Calls, W.Taken, W.Outer, S.Next, Abs, Respond;
      ghost var start := Computing(S.CompIdle, []);
      path := W.Standing(cfg, start);
      if computeInbox == [] {
        return;
      }
      var it := TakeRequest(cfg);
      assert it == old(computeInbox)[0];
      path := W.Extend(cfg, false, start, path, start, S.CompTake);
      path := ComputeIt(cfg, clock, nsec, it, start, path);
    }

    method TakeRequest(ghost cfg: Config) returns (it: S.Item)
      requires computeInbox != []
      modifies this`computeInbox
      ensures [it] + computeInbox == old(computeInbox)
      ensures S.Next(cfg, old(Computing(S.CompIdle, [])), S.CompTake) == Some(Computing(S.CompWork, [it]))
    {
      it := computeInbox[0];
      computeInbox := computeInbox[1..];
    }

    /** The response is computed in place, and passed on. */
    method ComputeIt(cfg: Config, clock: nat -> nat, nsec: nat, it: S.Item, ghost start: S.Session,
                     ghost before: seq<S.Act>)
      returns (ghost path: seq<S.Act>)
      requires Advancing(clock) && |it.req| >= ID_SIZE
      requires W.After(cfg, false, start, before) == Some(Computing(S.CompWork, [it]))
      modifies this`submitInbox
      ensures W.After(cfg, false, start, path) == Some(Computing(S.CompIdle, []))
      ensures submitInbox == old(submitInbox) + [it.(res := Respond(cfg, it.req))]
    {
      hide W.After, W.Calls, W.Taken, W.Outer, S.Next, Abs, Respond, Advancing;
      ghost var was := Computing(S.CompWork, [it]);
      var res, n := ComputeRequest(cfg, clock, nsec, it.req);
      ComputeNext(cfg, it);
      path := W.Extend(cfg, false, start, before, was, S.CompStep);
      was := Computing(S.CompPut, [it.(res := res)]);
      PutSubmit(cfg, it.(res := res));
      path := W.Extend(cfg, false, start, path, was, S.CompStep);
    }

    lemma ComputeNext(cfg: Config, it: S.Item)
      ensures S.Next(cfg, Computing(S.CompWork, [it]), S.CompStep) ==
              Some(Computing(S.CompPut, [it.(res := Respond(cfg, it.req))]))
    {
      hide Respond;
    }

    method PutSubmit(ghost cfg: Config, it: S.Item)
      modifies this`submitInbox
      ensures submitInbox == old(submitInbox) + [it]
      ensures S.Next(cfg, old(Computing(S.CompPut, [it])), S.CompStep) == Some(Computing(S.CompIdle, []))
    {
      submitInbox := submitInbox + [it];
    }

    // -------------------------------------------------------------- the submitter

    method TakeInbox(ghost cfg: Config) returns (it: S.Item)
      requires submitInbox != []
      modifies this`submitInbox
      ensures [it] + submitInbox == old(submitInbox)
      ensures Steps(cfg, S.SubIdle, [], S.SubTake, S.SubTry, [it])
    {
      it := submitInbox[0];
      submitInbox := submitInbox[1..];
    }

    method TryLock(ghost cfg: Config, ghost it: S.Item) returns (got: bool)
      modifies this`lock
      ensures lock && (got <==> !old(lock))
      ensures Steps(cfg, S.SubTry, [it], S.SubStep, if got then S.SubCount else S.SubRecycle, [it])
    {
      got := !lock;
      lock := true;
    }

    method Recycle(ghost cfg: Config, it: S.Item)
      modifies this`submitInbox, this`recycled
      ensures submitInbox == old(submitInbox) + [it] && recycled
      ensures Steps(cfg, S.SubRecycle, [it], S.SubStep, S.SubIdle, [])
    {
      submitInbox := submitInbox + [it];
      recycled := true;
    }

    method Count(ghost cfg: Config, ghost it: S.Item)
      modifies this`processed
      ensures processed == old(processed) + 1
      ensures Steps(cfg, S.SubCount, [it], S.SubStep, if closed then S.SubDispose else S.SubQueue, [it])
    {
      processed := processed + 1;
    }

    method PutEmpty(ghost cfg: Config, it: S.Item)
      modifies this`emptyBuffers
      ensures emptyBuffers == old(emptyBuffers) + [it.id]
      ensures Steps(cfg, S.SubDispose, [it], S.SubStep, S.SubDropLock, [])
    {
      emptyBuffers := emptyBuffers + [it.id];
    }

    method Unlock(ghost cfg: Config)
      modifies this`lock
      ensures !lock
      ensures Steps(cfg, S.SubDropLock, [], S.SubStep, S.SubCheck, [])
      ensures Steps(cfg, S.SubUnlock, [], S.SubStep, S.SubIdle, [])
    {
      lock := false;
    }

    method LastOne(ghost cfg: Config) returns (last: bool)
      ensures last <==> Wrap64(processed) == Wrap64(received)
      ensures S.Next(cfg, Submitting(S.SubCheck, []), S.SubStep) ==
              Some(Submitting(if last then S.SubRelease else S.SubIdle, []))
    {
      last := Wrap64(processed) == Wrap64(received);
    }

    method Release(ghost cfg: Config)
      modifies this`freeCount
      ensures freeCount == old(freeCount) + 1
      ensures Steps(cfg, S.SubRelease, [], S.SubStep, S.SubIdle, [])
    {
      freeCount := freeCount + 1;
    }

    method Queue(ghost cfg: Config, it: S.Item)
      modifies this`sendQueue
      ensures sendQueue == old(sendQueue) + [it]
      ensures Steps(cfg, S.SubQueue, [it], S.SubStep, S.SubArm, [])
    {
      sendQueue := sendQueue + [it];
    }

    method Arm(ghost cfg: Config)
      modifies this`epoll, this`kernel
      ensures epoll == old(epoll).(wr := true) && kernel == KernelAfter(old(epoll), old(kernel), epoll)
      ensures Steps(cfg, S.SubArm, [], S.SubStep, S.SubUnlock, [])
    {
      kernel := KernelAfter(epoll, kernel, epoll.(wr := true));
      epoll := epoll.(wr := true);
    }

    /** A buffer of a closed connection: it goes back to the pool, and the last
        one in flight releases the connection, after the lock is dropped. */
    method Dispose(ghost cfg: Config, it: S.Item, ghost start: S.Session, ghost before: seq<S.Act>)
      returns (ghost path: seq<S.Act>)
      requires W.After(cfg, false, start, before) == Some(Submitting(S.SubDispose, [it]))
      modifies this`emptyBuffers, this`lock, this`freeCount
      ensures W.After(cfg, false, start, path) == Some(Submitting(S.SubIdle, []))
      ensures emptyBuffers == old(emptyBuffers) + [it.id] && !lock
      ensures freeCount == old(freeCount) + I.Ones(Wrap64(processed) == Wrap64(received))
    {
      hide W.After, W.Calls, W.Taken, W.Outer, S.Next, Wrap64, Abs;
      ghost var was := Submitting(S.SubDispose, [it]);
      PutEmpty(cfg, it);
      path := W.Extend(cfg, false, start, before, was, S.SubStep);
      was := Submitting(S.SubDropLock, []);
      Unlock(cfg);
      path := W.Extend(cfg, false, start, path, was, S.SubStep);
      was := Submitting(S.SubCheck, []);
      var last := LastOne(cfg);
      path := W.Extend(cfg, false, start, path, was, S.SubStep);
      if last {
        was := Submitting(S.SubRelease, []);
        Release(cfg);
        path := W.Extend(cfg, false, start, path, was, S.SubStep);
      }
    }

    /** A response for an open connection: it is queued and EPOLLOUT is asked
        for, under the lock. */
    method Submit(ghost cfg: Config, it: S.Item, ghost start: S.Session, ghost before: seq<S.Act>)
      returns (ghost path: seq<S.Act>)
      requires W.After(cfg, false, start, before) == Some(Submitting(S.SubQueue, [it]))
      modifies this`sendQueue, this`epoll, this`kernel, this`lock
      ensures W.After(cfg, false, start, path) == Some(Submitting(S.SubIdle, []))
      ensures sendQueue == old(sendQueue) + [it] && !lock
      ensures epoll == old(epoll).(wr := true) && kernel == KernelAfter(old(epoll), old(kernel), epoll)
    {
      hide W.After, W.Calls, W.Taken, W.Outer, S.Next, Abs, KernelAfter;
      ghost var was := Submitting(S.SubQueue, [it]);
      Queue(cfg, it);
      path := W.Extend(cfg, false, start, before, was, S.SubStep);
      was := Submitting(S.SubArm, []);
      Arm(cfg);
      path := W.Extend(cfg, false, start, path, was, S.SubStep);
      was := Submitting(S.SubUnlock, []);
      Unlock(cfg);
      path := W.Extend(cfg, false, start, path, was, S.SubStep);
    }

    /** The lock is had: the buffer is counted, and queued or disposed of. */
    method Handle(ghost cfg: Config, it: S.Item, ghost start: S.Session, ghost before: seq<S.Act>)
      returns (ghost path: seq<S.Act>)
      requires W.After(cfg, false, start, before) == Some(Submitting(S.SubCount, [it]))
      modifies this`processed, this`sendQueue, this`epoll, this`kernel, this`lock, this`emptyBuffers, this`freeCount
      ensures W.After(cfg, false, start, path) == Some(Submitting(S.SubIdle, []))
      ensures !lock && processed == old(processed) + 1
      ensures !closed ==> sendQueue == old(sendQueue) + [it] && epoll == old(epoll).(wr := true) &&
                          emptyBuffers == old(emptyBuffers) && freeCount == old(freeCount)
      ensures closed ==> sendQueue == old(sendQueue) && emptyBuffers == old(emptyBuffers) + [it.id] &&
                         epoll == old(epoll) && kernel == old(kernel) &&
                         freeCount == old(freeCount) + I.Ones(Wrap64(processed) == Wrap64(received))
    {
      hide W.After, W.Calls, W.Taken, W.Outer, S.Next, Abs, Wrap64, KernelAfter, I.Ones;
      ghost var was := Submitting(S.SubCount, [it]);
      Count(cfg, it);
      path := W.Extend(cfg, false, start, before, was, S.SubStep);
      if closed {
        path := Dispose(cfg, it, start, path);
      } else {
        path := Submit(cfg, it, start, path);
      }
    }

    /** trylock, and the buffer back to the inbox when that fails. */
    method TryOrRecycle(ghost cfg: Config, it: S.Item, ghost start: S.Session, ghost before: seq<S.Act>)
      returns (got: bool, ghost path: seq<S.Act>)
      requires W.After(cfg, false, start, before) == Some(Submitting(S.SubTry, [it]))
      modifies this`lock, this`submitInbox, this`recycled
      ensures lock && (got <==> !old(lock))
      ensures W.After(cfg, false, start, path) ==
              Some(if got then Submitting(S.SubCount, [it]) else Submitting(S.SubIdle, []))
      ensures submitInbox == if got then old(submitInbox) else old(submitInbox) + [it]
    {
      hide W.After, W.Calls, W.Taken, W.Outer, S.Next, Abs;
      ghost var was := Submitting(S.SubTry, [it]);
      got := TryLock(cfg, it);
      path := W.Extend(cfg, false, start, before, was, S.SubStep);
      if !got {
        was := Submitting(S.SubRecycle, [it]);
        Recycle(cfg, it);
        path := W.Extend(cfg, false, start, path, was, S.SubStep);
      }
    }

    /** One turn of __submitter_worker. A held lock sends the buffer to the back
        of the inbox; otherwise it is counted, and queued or disposed of. */
    method SubmitOne(ghost cfg: Config) returns (ghost path: seq<S.Act>)
      modifies this
      ensures W.After(cfg, false, old(Submitting(S.SubIdle, [])), path) == Some(Submitting(S.SubIdle, []))
      ensures received == old(received) && sent == old(sent) && closed == old(closed) && rest == old(rest)
      ensures computeInbox == old(computeInbox)
      ensures old(submitInbox) == [] ==> unchanged(this)
      ensures old(submitInbox) != [] && old(lock) ==>
                submitInbox == old(submitInbox)[1..] + [old(submitInbox)[0]] && lock &&
                unchanged(this`processed, this`sendQueue, this`epoll, this`kernel, this`emptyBuffers, this`freeCount)
      ensures old(submitInbox) != [] && !old(lock) ==>
                submitInbox == old(submitInbox)[1..] && !lock && processed == old(processed) + 1
      ensures old(submitInbox) != [] && !old(lock) && !closed ==>
                sendQueue == old(sendQueue) + [old(submitInbox)[0]] && epoll == old(epoll).(wr := true) &&
                emptyBuffers == old(emptyBuffers) && freeCount == old(freeCount)
      ensures old(submitInbox) != [] && !old(lock) && closed ==>
                sendQueue == old(sendQueue) && emptyBuffers == old(emptyBuffers) + [old(submitInbox)[0].id] &&
                epoll == old(epoll) && kernel == old(kernel) &&
                freeCount == old(freeCount) + I.Ones(Wrap64(processed) == Wrap64(received))
    {
      hide W.After, W.Calls, W.Taken, W.Outer, S.Next, Abs, Wrap64, I.Ones;
      ghost var start := Submitting(S.SubIdle, []);
      path := W.Standing(cfg, start);
      if submitInbox == [] {
        return;
      }
      var it := TakeInbox(cfg);
      path := W.Extend(cfg, false, start, path, start, S.SubTake);
      var got;
      got, path := TryOrRecycle(cfg, it, start, path);
      if got {
        path := Handle(cfg, it, start, path);
      }
    }
  }
}
