/** The interest mask of a connection and the kernel's side of it
    (src/server/io/io.h). A mask keeps the two bits the server ever uses.
 */
module Epoll {
  import opened Rpc

  datatype Interest = Interest(rd: bool, wr: bool)

  const NO_INTEREST := Interest(false, false)
  const EPOLLIN := Interest(true, false)

  datatype Op = Add | Mod | Del

  /** What the kernel holds for a descriptor: nothing, or a mask. */
  type Registration = Option<Interest>

  /** epoll_ctl: ADD fails with EEXIST on a registered descriptor, MOD and DEL
      fail with ENOENT on an unregistered one. None is failure. */
  function Ctl(k: Registration, op: Op, mask: Interest): Option<Registration> {
    match op
    case Add => if k.Some? then None else Some(Some(mask))
    case Mod => if k.None? then None else Some(Some(mask))
    case Del => if k.None? then None else Some(None)
  }

  /** The operation epoll_set_conn_state issues; None when it issues none. */
  function OpFor(was: Interest, mask: Interest): Option<Op> {
    if mask == was then None
    else if mask == NO_INTEREST then Some(Del)
    else if was == NO_INTEREST then Some(Add)
    else Some(Mod)
  }

  /** The cached mask describes the kernel's registration. */
  predicate Mirrors(cached: Interest, k: Registration) {
    k == if cached == NO_INTEREST then None else Some(cached)
  }

  /** The kernel after epoll_set_conn_state; a failed call changes nothing. */
  function KernelAfter(was: Interest, k: Registration, mask: Interest): Registration {
    match OpFor(was, mask)
    case None => k
    case Some(op) =>
      match Ctl(k, op, mask)
      case None => k
      case Some(k') => k'
  }

  /** The part of a connection that epoll_set_conn_state reads and writes. */
  class EpollState {
    var cached: Interest
    var kernel: Registration

    constructor ()
      ensures cached == NO_INTEREST && kernel == None
    {
      cached := NO_INTEREST;
      kernel := None;
    }

    /** epoll_set_conn_state. When the cached mask mirrors the kernel, whatever
        the new mask is, the call never fails and the mirror is kept; when it
        does not, a change of mask fails exactly if the chosen operation does
        not fit the kernel's registration. */
    method SetConnState(mask: Interest) returns (ok: bool)
      modifies this
      ensures cached == mask
      ensures kernel == KernelAfter(old(cached), old(kernel), mask)
      ensures old(Mirrors(cached, kernel)) ==> ok && Mirrors(cached, kernel)
      ensures !ok <==> mask != old(cached) && (old(kernel).Some? <==> old(cached) == NO_INTEREST)
    {
      var op: Op;
      var previous := cached;
      if mask == previous {
        return true;
      }
      if mask == NO_INTEREST {
        op := Del;
      } else if previous == NO_INTEREST {
        op := Add;
      } else {
        op := Mod;
      }
      cached := mask;
      var result := Ctl(kernel, op, mask);
      if result.Some? {
        kernel := result.value;
      }
      ok := result.Some?;
    }
  }
}
