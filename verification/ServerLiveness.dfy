/** No response is stuck on the server: with any number of connections on shared
    threads and queues, every path of one connection's session is a path of the
    server, with steps of the others between. So a served connection can always
    be answered, unless a finish stands in the way for good.
 */
module ServerLiveness {
  import opened Rpc
  import opened ServerMachine
  import opened ServerView
  import opened ServerInvariant
  import opened ServerTheorems
  import opened ServerEnabled
  import S = SessionProtocol
  import I = SessionInvariant
  import H = SessionHistory
  import L = SessionLiveness

  // ---------------------------------------------------------------- continuations

  predicate Honest(s: Server, m: Move) { m.c in s.conns && L.Honest(View(s, m.c), m.a) }

  /** The server after a sequence of honest moves, when each can be made. */
  function Path(cfg: Config, s: Server, ms: seq<Move>): Option<Server> {
    if ms == [] then Some(s)
    else
      match Path(cfg, s, ms[..|ms| - 1])
      case None => None
      case Some(u) =>
        var m := ms[|ms| - 1];
        if Honest(u, m) && GoodMove(u, m) then Next(cfg, u, m) else None
  }

  lemma {:induction false} PathStep(cfg: Config, s: Server, ms: seq<Move>, u: Server, m: Move)
    requires Path(cfg, s, ms) == Some(u) && Honest(u, m) && GoodMove(u, m)
    ensures Path(cfg, s, ms + [m]) == Next(cfg, u, m)
  {
    assert (ms + [m])[..|ms + [m]| - 1] == ms;
  }

  ghost predicate Led(cfg: Config, s0: Server, s: Server) {
    (exists ms :: Path(cfg, s0, ms) == Some(s)) && Inv(cfg, s) && s.conns.Keys == s0.conns.Keys
  }

  /** The thread that an act of connection c belongs to. */
  function Thread(s: Server, c: ConnId, a: S.Act): Tid
    requires c in s.conns
  {
    if a.CompTake? || a.CompStep? then s.conns[c].computeidx
    else if a.SubTake? || a.SubStep? then s.conns[c].submitidx
    else s.conns[c].ioidx
  }

  /** An act of the session whose thread is there for it. */
  lemma {:induction false} Take(cfg: Config, s0: Server, s: Server, c: ConnId, a: S.Act) returns (s': Server)
    requires ValidConfig(cfg) && Led(cfg, s0, s) && c in s.conns
    requires S.Next(cfg, View(s, c), a).Some? && L.Honest(View(s, c), a) && S.Good(View(s, c), a)
    requires Serves(cfg, s, Thread(s, c, a), c, a)
    ensures Next(cfg, s, Move(Thread(s, c, a), c, a)) == Some(s') && Led(cfg, s0, s')
    ensures View(s', c) == S.Next(cfg, View(s, c), a).value
    ensures forall d :: d in s.conns && d != c ==> View(s', d) == View(s, d)
  {
    hide Inv, Next, View, S.Next, S.Good, Path, GoodMove, Serves, L.Honest;
    var m := Move(Thread(s, c, a), c, a);
    EnabledExactly(cfg, s, m);
    s' := Next(cfg, s, m).value;
    GoodBack(cfg, s, c, a);
    var ms :| Path(cfg, s0, ms) == Some(s);
    PathStep(cfg, s0, ms, s, m);
    StepInv(cfg, s, s', m);
    assert Path(cfg, s0, ms + [m]) == Some(s');
  }

  lemma GoodBack(cfg: Config, s: Server, c: ConnId, a: S.Act)
    requires Inv(cfg, s) && c in s.conns && S.Good(View(s, c), a) && S.Next(cfg, View(s, c), a).Some?
    ensures GoodMove(s, Move(Thread(s, c, a), c, a))
  {
    hide Inv, Q, S.SendBytes, S.RecvBytes, S.RequestTop, S.CompNext, S.SubNext, Wrap64, S.SetEpoll;
  }

  // ---------------------------------------------------------------- the shared queues

  /** What a submitter's step leaves of its inbox, and of the buffers. */
  lemma SubInbox(s: Server, t: Tid, c: ConnId)
    requires c in s.conns && SubNext(s, t, c).Some?
    ensures At(s, SubmitInbox(t)) <= At(SubNext(s, t, c).value, SubmitInbox(t))
  {
    hide Wrap64, S.SetEpoll, Shift;
    var pc := Sub(s, t).pc;
    if pc.SubRecycle? || pc.SubDispose? || pc.SubQueue? {
      ShiftInbox(s, t, SubmitInbox(t));
      ShiftInbox(s, t, Pool);
      ShiftInbox(s, t, SendQueue(c));
    }
  }

  lemma ShiftInbox(s: Server, t: Tid, q: Place)
    ensures q != SubmitHand(t) && At(s, SubmitHand(t)) != [] ==>
              At(s, SubmitInbox(t)) <= At(Shift(s, SubmitHand(t), q), SubmitInbox(t))
  {
  }

  lemma SubBufs(s: Server, t: Tid, c: ConnId)
    requires c in s.conns && SubNext(s, t, c).Some?
    ensures SubNext(s, t, c).value.bufs == s.bufs
  {
    hide Wrap64, S.SetEpoll;
  }

  lemma CompInbox(cfg: Config, s: Server, t: Tid, c: ConnId)
    requires c in s.conns && CompNext(cfg, s, t, c).Some?
    ensures At(CompNext(cfg, s, t, c).value, ComputeInbox(t)) == At(s, ComputeInbox(t))
  {
    hide Respond;
  }

  /** Buffer b of connection c is at index i of inbox p. */
  ghost predicate Waits(s: Server, p: Place, i: nat, b: Buf, c: ConnId) {
    i < |At(s, p)| && At(s, p)[i] == b && b in s.bufs && s.bufs[b].conn == c
  }

  lemma {:induction false} Found(s: Server, p: Place, c: ConnId) returns (i: nat, b: Buf)
    requires Q(s, p, c) != []
    ensures Waits(s, p, i, b, c)
  {
    i := FoundIn(s.bufs, At(s, p), c);
    b := At(s, p)[i];
  }

  lemma {:induction false} FoundIn(bufs: map<Buf, Buffer>, q: seq<Buf>, c: ConnId) returns (i: nat)
    requires Proj(bufs, q, c) != []
    ensures i < |q| && q[i] in bufs && bufs[q[i]].conn == c
  {
    if Own(bufs, q[|q| - 1], c) != [] {
      i := |q| - 1;
    } else {
      i := FoundIn(bufs, q[..|q| - 1], c);
    }
  }

  // ---------------------------------------------------------------- the submitter gets to a connection

  /** What the moves of the others leave of connection c and of a bystander. */
  ghost predicate Aside(s: Server, s': Server, c: ConnId, p: ConnId)
    requires c in s.conns && c in s'.conns && p in s.conns && p in s'.conns
  {
    View(s', c) == View(s, c) && s'.io == s.io && L.Beside(View(s, p), View(s', p))
  }

  /** A step of another connection's, in a compute thread or a submitter. */
  lemma {:induction false} Other(cfg: Config, s0: Server, s: Server, d: ConnId, a: S.Act, c: ConnId, p: ConnId)
    returns (s': Server)
    requires ValidConfig(cfg) && Led(cfg, s0, s) && {c, d, p} <= s.conns.Keys && d != c && L.Stage(a)
    requires S.Next(cfg, View(s, d), a).Some? && Serves(cfg, s, Thread(s, d, a), d, a)
    ensures Next(cfg, s, Move(Thread(s, d, a), d, a)) == Some(s') && Led(cfg, s0, s') && Aside(s, s', c, p)
    ensures View(s', d) == S.Next(cfg, View(s, d), a).value
  {
    hide Inv, Next, View, S.Next, Path, Serves, L.Beside, L.Honest;
    SessionOf(cfg, s, d);
    L.StageKeeps(cfg, View(s, d), a);
    assert S.Good(View(s, d), a);
    s' := Take(cfg, s0, s, d, a);
    StageIo(cfg, s, s', Move(Thread(s, d, a), d, a));
    if p != d { Untouched(View(s, p)); }
  }

  lemma SessionOf(cfg: Config, s: Server, c: ConnId)
    requires Inv(cfg, s) && c in s.conns
    ensures I.Inv(cfg, View(s, c)) && H.Faithful(cfg, View(s, c)) && View(s, c).conn == s.conns[c]
  {
    hide Struct, Q;
  }

  lemma Untouched(v: S.Session)
    ensures L.Beside(v, v)
  {
  }

  lemma StageIo(cfg: Config, s: Server, s': Server, m: Move)
    requires Inv(cfg, s) && m.c in s.conns && L.Stage(m.a) && Next(cfg, s, m) == Some(s')
    ensures s'.io == s.io
  {
    hide Inv, Next;
    Frames(cfg, s, s', m);
  }

  /** The submitter of c, at its wait, comes to the buffer of c that is at index i of
      its inbox: the others before it are put through, or recycled. */
  lemma {:induction false} FetchSubmit(cfg: Config, s0: Server, s: Server, c: ConnId, p: ConnId, i: nat, b: Buf)
    returns (s': Server)
    requires ValidConfig(cfg) && Led(cfg, s0, s) && c in s.conns && p in s.conns
    requires View(s, c).sub == S.SubIdle && Waits(s, SubmitInbox(s.conns[c].submitidx), i, b, c)
    ensures Led(cfg, s0, s') && Aside(s, s', c, p) && Serves(cfg, s', s.conns[c].submitidx, c, S.SubTake)
    decreases i, L.SubRank(Sub(s, s.conns[c].submitidx).pc)
  {
    hide Inv, Next, Path, L.Beside, L.SubRank, S.Next;
    var t := s.conns[c].submitidx;
    if Sub(s, t).pc != S.SubIdle {
      var s1 := StepOn(cfg, s0, s, c, p, i, b);
      s' := FetchSubmit(cfg, s0, s1, c, p, i, b);
      BesideBoth(View(s, p), View(s1, p), View(s', p));
    } else if BufferOf(s, At(s, SubmitInbox(t))[0]).conn == c {
      s' := s;
      Untouched(View(s, p));
    } else {
      var s1 := PutThrough(cfg, s0, s, c, p, i, b);
      s' := FetchSubmit(cfg, s0, s1, c, p, i - 1, b);
      BesideBoth(View(s, p), View(s1, p), View(s', p));
    }
  }

  lemma BesideBoth(u: S.Session, v: S.Session, w: S.Session)
    requires L.Beside(u, v) && L.Beside(v, w)
    ensures L.Beside(u, w)
  {
  }

  /** The submitter goes on with what it has in hand, for another connection. */
  lemma {:induction false} StepOn(cfg: Config, s0: Server, s: Server, c: ConnId, p: ConnId, i: nat, b: Buf)
    returns (s': Server)
    requires ValidConfig(cfg) && Led(cfg, s0, s) && c in s.conns && p in s.conns
    requires View(s, c).sub == S.SubIdle && Waits(s, SubmitInbox(s.conns[c].submitidx), i, b, c)
    requires Sub(s, s.conns[c].submitidx).pc != S.SubIdle
    ensures Led(cfg, s0, s') && Aside(s, s', c, p) && s'.conns[c] == s.conns[c]
    ensures Waits(s', SubmitInbox(s.conns[c].submitidx), i, b, c)
    ensures L.SubRank(Sub(s', s.conns[c].submitidx).pc) < L.SubRank(Sub(s, s.conns[c].submitidx).pc)
  {
    hide Inv, Next, Path, L.Beside, L.SubRank, S.Next, View, Serves;
    var t := s.conns[c].submitidx;
    var d := Sub(s, t).conn;
    SubmitterOf(cfg, s, t, c);
    SessionOf(cfg, s, d);
    SessionOf(cfg, s, c);
    L.SubAlways(cfg, View(s, d));
    s' := Other(cfg, s0, s, d, S.SubStep, c, p);
    SessionOf(cfg, s', c);
    SubStepped(cfg, s, s', t, d);
  }

  lemma SubmitterOf(cfg: Config, s: Server, t: Tid, c: ConnId)
    requires Inv(cfg, s) && c in s.conns && s.conns[c].submitidx == t
    requires View(s, c).sub == S.SubIdle && Sub(s, t).pc != S.SubIdle
    ensures var d := Sub(s, t).conn;
            d in s.conns && d != c && s.conns[d].submitidx == t && View(s, d).sub == Sub(s, t).pc
    ensures Serves(cfg, s, t, Sub(s, t).conn, S.SubStep)
  {
    hide Conserved, Placed, Sessions, Q;
  }

  lemma SubStepped(cfg: Config, s: Server, s': Server, t: Tid, d: ConnId)
    requires Inv(cfg, s) && Inv(cfg, s') && d in s.conns && d in s'.conns
    requires Next(cfg, s, Move(t, d, S.SubStep)) == Some(s') && s.conns[d].submitidx == t
    ensures Sub(s', t).pc == View(s', d).sub && s'.bufs == s.bufs
    ensures At(s, SubmitInbox(t)) <= At(s', SubmitInbox(t))
  {
    hide Inv, Q, Handler, CompNext, SubNext;
    Frames(cfg, s, s', Move(t, d, S.SubStep));
    SubInbox(s, t, d);
    SubBufs(s, t, d);
  }

  /** It takes the first buffer, another connection's. */
  lemma {:induction false} PutThrough(cfg: Config, s0: Server, s: Server, c: ConnId, p: ConnId, i: nat, b: Buf)
    returns (s': Server)
    requires ValidConfig(cfg) && Led(cfg, s0, s) && c in s.conns && p in s.conns
    requires View(s, c).sub == S.SubIdle && Waits(s, SubmitInbox(s.conns[c].submitidx), i, b, c)
    requires Sub(s, s.conns[c].submitidx).pc == S.SubIdle
    requires BufferOf(s, At(s, SubmitInbox(s.conns[c].submitidx))[0]).conn != c
    ensures i > 0 && Led(cfg, s0, s') && Aside(s, s', c, p) && s'.conns[c] == s.conns[c]
    ensures Waits(s', SubmitInbox(s.conns[c].submitidx), i - 1, b, c)
  {
    hide Inv, Next, Path, L.Beside, L.SubRank, S.Next, View, Serves;
    var t := s.conns[c].submitidx;
    var d := BufferOf(s, At(s, SubmitInbox(t))[0]).conn;
    FirstSubmit(cfg, s, t);
    SessionOf(cfg, s, c);
    EnabledExactly(cfg, s, Move(t, d, S.SubTake));
    s' := Other(cfg, s0, s, d, S.SubTake, c, p);
    SessionOf(cfg, s', c);
    SubTaken(cfg, s, s', t, d);
  }

  lemma FirstSubmit(cfg: Config, s: Server, t: Tid)
    requires Inv(cfg, s) && At(s, SubmitInbox(t)) != [] && Sub(s, t).pc == S.SubIdle
    ensures var d := BufferOf(s, At(s, SubmitInbox(t))[0]).conn;
            d in s.conns && s.conns[d].submitidx == t && Next(cfg, s, Move(t, d, S.SubTake)).Some?
  {
    hide Conserved, Assigned, Sessions, Handler, CompNext, SubNext;
    assert Home(s, SubmitInbox(t), At(s, SubmitInbox(t))[0]);
  }

  lemma SubTaken(cfg: Config, s: Server, s': Server, t: Tid, d: ConnId)
    requires Next(cfg, s, Move(t, d, S.SubTake)) == Some(s')
    ensures s'.bufs == s.bufs && At(s, SubmitInbox(t)) != [] && At(s', SubmitInbox(t)) == At(s, SubmitInbox(t))[1..]
  {
    hide Handler, CompNext, SubNext;
  }

  // ---------------------------------------------------------------- the compute thread gets to it

  function CompRank(pc: S.CompPc): nat {
    match pc
    case CompIdle => 0
    case CompPut => 1
    case CompWork => 2
  }

  lemma {:induction false} FetchCompute(cfg: Config, s0: Server, s: Server, c: ConnId, p: ConnId) returns (s': Server)
    requires ValidConfig(cfg) && Led(cfg, s0, s) && c in s.conns && p in s.conns
    requires View(s, c).comp == S.CompIdle && View(s, c).cin != []
    ensures Led(cfg, s0, s') && Aside(s, s', c, p) && Serves(cfg, s', s.conns[c].computeidx, c, S.CompTake)
    decreases |At(s, ComputeInbox(s.conns[c].computeidx))|, CompRank(Comp(s, s.conns[c].computeidx).pc)
  {
    hide Inv, Next, Path, L.Beside, CompRank, S.Next;
    var t := s.conns[c].computeidx;
    if Comp(s, t).pc != S.CompIdle {
      var s1 := ComputeOn(cfg, s0, s, c, p);
      s' := FetchCompute(cfg, s0, s1, c, p);
      BesideBoth(View(s, p), View(s1, p), View(s', p));
    } else {
      NotEmpty(s, c);
      if BufferOf(s, At(s, ComputeInbox(t))[0]).conn == c {
        s' := s;
        Untouched(View(s, p));
      } else {
        var s1 := ComputeFirst(cfg, s0, s, c, p);
        s' := FetchCompute(cfg, s0, s1, c, p);
        BesideBoth(View(s, p), View(s1, p), View(s', p));
      }
    }
  }

  lemma NotEmpty(s: Server, c: ConnId)
    requires c in s.conns && View(s, c).cin != []
    ensures At(s, ComputeInbox(s.conns[c].computeidx)) != []
  {
  }

  lemma {:induction false} ComputeOn(cfg: Config, s0: Server, s: Server, c: ConnId, p: ConnId) returns (s': Server)
    requires ValidConfig(cfg) && Led(cfg, s0, s) && c in s.conns && p in s.conns
    requires View(s, c).comp == S.CompIdle && Comp(s, s.conns[c].computeidx).pc != S.CompIdle
    ensures Led(cfg, s0, s') && Aside(s, s', c, p) && s'.conns[c] == s.conns[c]
    ensures var t := s.conns[c].computeidx;
            At(s', ComputeInbox(t)) == At(s, ComputeInbox(t)) && CompRank(Comp(s', t).pc) < CompRank(Comp(s, t).pc)
  {
    hide Inv, Next, Path, L.Beside, S.Next, View, Serves;
    var t := s.conns[c].computeidx;
    var d := Comp(s, t).conn;
    ComputerOf(cfg, s, t, c);
    SessionOf(cfg, s, d);
    SessionOf(cfg, s, c);
    L.CompAlways(cfg, View(s, d));
    s' := Other(cfg, s0, s, d, S.CompStep, c, p);
    SessionOf(cfg, s', c);
    CompStepped(cfg, s, s', t, d);
  }

  lemma ComputerOf(cfg: Config, s: Server, t: Tid, c: ConnId)
    requires Inv(cfg, s) && c in s.conns && s.conns[c].computeidx == t
    requires View(s, c).comp == S.CompIdle && Comp(s, t).pc != S.CompIdle
    ensures var d := Comp(s, t).conn;
            d in s.conns && d != c && s.conns[d].computeidx == t && View(s, d).comp == Comp(s, t).pc
    ensures Serves(cfg, s, t, Comp(s, t).conn, S.CompStep)
  {
    hide Conserved, Placed, Sessions, Q;
  }

  lemma CompStepped(cfg: Config, s: Server, s': Server, t: Tid, d: ConnId)
    requires Inv(cfg, s) && Inv(cfg, s') && d in s.conns && d in s'.conns
    requires Next(cfg, s, Move(t, d, S.CompStep)) == Some(s') && s.conns[d].computeidx == t
    ensures Comp(s', t).pc == View(s', d).comp && At(s', ComputeInbox(t)) == At(s, ComputeInbox(t))
  {
    hide Inv, Q, Handler, CompNext, SubNext;
    Frames(cfg, s, s', Move(t, d, S.CompStep));
    CompInbox(cfg, s, t, d);
  }

  lemma {:induction false} ComputeFirst(cfg: Config, s0: Server, s: Server, c: ConnId, p: ConnId) returns (s': Server)
    requires ValidConfig(cfg) && Led(cfg, s0, s) && c in s.conns && p in s.conns
    requires Comp(s, s.conns[c].computeidx).pc == S.CompIdle && At(s, ComputeInbox(s.conns[c].computeidx)) != []
    requires BufferOf(s, At(s, ComputeInbox(s.conns[c].computeidx))[0]).conn != c
    ensures Led(cfg, s0, s') && Aside(s, s', c, p) && s'.conns[c] == s.conns[c]
    ensures var t := s.conns[c].computeidx; |At(s', ComputeInbox(t))| < |At(s, ComputeInbox(t))|
  {
    hide Inv, Next, Path, L.Beside, S.Next, View, Serves;
    var t := s.conns[c].computeidx;
    var d := BufferOf(s, At(s, ComputeInbox(t))[0]).conn;
    FirstCompute(cfg, s, t);
    SessionOf(cfg, s, c);
    EnabledExactly(cfg, s, Move(t, d, S.CompTake));
    s' := Other(cfg, s0, s, d, S.CompTake, c, p);
    SessionOf(cfg, s', c);
    CompTaken(cfg, s, s', t, d);
  }

  lemma FirstCompute(cfg: Config, s: Server, t: Tid)
    requires Inv(cfg, s) && At(s, ComputeInbox(t)) != [] && Comp(s, t).pc == S.CompIdle
    ensures var d := BufferOf(s, At(s, ComputeInbox(t))[0]).conn;
            d in s.conns && s.conns[d].computeidx == t && Next(cfg, s, Move(t, d, S.CompTake)).Some?
  {
    hide Conserved, Assigned, Sessions, Handler, CompNext, SubNext;
    assert Home(s, ComputeInbox(t), At(s, ComputeInbox(t))[0]);
  }

  lemma CompTaken(cfg: Config, s: Server, s': Server, t: Tid, d: ConnId)
    requires Next(cfg, s, Move(t, d, S.CompTake)) == Some(s')
    ensures At(s, ComputeInbox(t)) != [] && At(s', ComputeInbox(t)) == At(s, ComputeInbox(t))[1..]
  {
    hide Handler, CompNext, SubNext;
  }

  // ---------------------------------------------------------------- a path of the session, on the server

  /** The IO thread of c is at its wait, or works for c. */
  predicate Mine(s: Server, c: ConnId)
    requires c in s.conns
  {
    var th := Io(s, s.conns[c].ioidx);
    th.pc == S.IoIdle || th.conn == c
  }

  /** One act: the shared queues are worked off until its buffer is first. */
  lemma {:induction false} LiftOne(cfg: Config, s0: Server, s: Server, c: ConnId, a: S.Act, p: ConnId)
    returns (s': Server)
    requires ValidConfig(cfg) && Led(cfg, s0, s) && c in s.conns && p in s.conns && Mine(s, c)
    requires S.Next(cfg, View(s, c), a).Some? && L.Honest(View(s, c), a) && S.Good(View(s, c), a)
    requires a.IoReqTop? ==> a.got.None?
    ensures Led(cfg, s0, s') && View(s', c) == S.Next(cfg, View(s, c), a).value && Mine(s', c)
    ensures s'.conns[c].ioidx == s.conns[c].ioidx
    ensures p != c ==> L.Beside(View(s, p), View(s', p))
  {
    hide Inv, Next, Path, L.Beside, S.Next, View, Serves, L.Honest, S.Good, Mine;
    var s1 := s;
    Untouched(View(s, p));
    if a.CompTake? {
      TakesCompute(cfg, View(s, c));
      s1 := FetchCompute(cfg, s0, s, c, p);
    } else if a.SubTake? {
      TakesSubmit(cfg, View(s, c));
      var i, b := InInbox(s, c);
      s1 := FetchSubmit(cfg, s0, s, c, p, i, b);
    } else {
      ReadyServes(cfg, s, c, a);
    }
    SessionOf(cfg, s, c);
    SessionOf(cfg, s1, c);
    s' := Take(cfg, s0, s1, c, a);
    L.Accepts(View(s, c), a);
    StillMine(cfg, s, s1, s', c, a);
    Untouched(View(s', p));
  }

  lemma TakesCompute(cfg: Config, v: S.Session)
    requires S.Next(cfg, v, S.CompTake).Some?
    ensures v.comp == S.CompIdle && v.cin != []
  {
  }

  lemma TakesSubmit(cfg: Config, v: S.Session)
    requires S.Next(cfg, v, S.SubTake).Some?
    ensures v.sub == S.SubIdle && v.sin != []
  {
  }

  lemma InInbox(s: Server, c: ConnId) returns (i: nat, b: Buf)
    requires c in s.conns && View(s, c).sin != []
    ensures Waits(s, SubmitInbox(s.conns[c].submitidx), i, b, c)
  {
    i, b := Found(s, SubmitInbox(s.conns[c].submitidx), c);
  }

  lemma ReadyServes(cfg: Config, s: Server, c: ConnId, a: S.Act)
    requires c in s.conns && Mine(s, c) && L.Honest(View(s, c), a) && S.Next(cfg, View(s, c), a).Some?
    requires !a.CompTake? && !a.SubTake? && (a.IoReqTop? ==> a.got.None?)
    ensures Serves(cfg, s, Thread(s, c, a), c, a)
  {
    hide Q, S.SendBytes, S.RecvBytes, S.RequestTop, S.IoNext, S.CompNext, S.SubNext;
  }

  lemma StillMine(cfg: Config, s: Server, s1: Server, s': Server, c: ConnId, a: S.Act)
    requires Inv(cfg, s1) && c in s.conns && c in s1.conns && Mine(s, c) && s1.io == s.io && s1.conns[c] == s.conns[c]
    requires Next(cfg, s1, Move(Thread(s1, c, a), c, a)) == Some(s') && !a.AcceptTake? && !a.AcceptServe?
    ensures c in s'.conns && Mine(s', c) && s'.conns[c].ioidx == s.conns[c].ioidx
  {
    hide Inv, Next;
    Frames(cfg, s1, s', Move(Thread(s1, c, a), c, a));
  }

  /** Every honest path of a session that takes no buffer is a path of the server,
      with steps of other connections between. */
  lemma {:induction false} Lift(cfg: Config, s0: Server, s: Server, c: ConnId, acts: seq<S.Act>) returns (s': Server)
    requires ValidConfig(cfg) && Led(cfg, s0, s) && c in s.conns && Mine(s, c)
    requires L.Path(cfg, View(s, c), acts).Some? && L.Frugal(acts)
    ensures Led(cfg, s0, s') && Mine(s', c) && View(s', c) == L.Path(cfg, View(s, c), acts).value
  {
    hide Led, View, S.Next, L.Honest, S.Good, Mine, L.Frugal;
    if acts == [] {
      s' := s;
    } else {
      var a := acts[|acts| - 1];
      L.LastIsSpare(acts);
      var s1 := Lift(cfg, s0, s, c, acts[..|acts| - 1]);
      LedConns(cfg, s0, s);
      LedConns(cfg, s0, s1);
      s' := LiftOne(cfg, s0, s1, c, a, c);
      LedConns(cfg, s0, s');
    }
  }

  lemma LedConns(cfg: Config, s0: Server, s: Server)
    requires Led(cfg, s0, s)
    ensures s.conns.Keys == s0.conns.Keys && Inv(cfg, s)
  {
    hide Inv, Path;
  }

  // ---------------------------------------------------------------- the IO thread comes back from another connection

  lemma {:induction false} FreesIo(cfg: Config, s0: Server, s: Server, t: Tid, c: ConnId) returns (s': Server)
    requires ValidConfig(cfg) && Led(cfg, s0, s) && c in s.conns && s.conns[c].ioidx == t
    requires Io(s, t).pc != S.IoIdle && Io(s, t).conn in s.conns && Io(s, t).conn != c
    requires !L.Committed(View(s, Io(s, t).conn))
    ensures Led(cfg, s0, s') && Io(s', t).pc == S.IoIdle && L.Beside(View(s, c), View(s', c))
    ensures s'.conns[c].ioidx == t
    decreases L.ReturnRank(View(s, Io(s, t).conn))
  {
    hide Inv, Path, L.Beside, S.Next, View, L.Honest, S.Good, L.Committed, L.ReturnRank, L.Return;
    var d := Io(s, t).conn;
    WorksFor(cfg, s, t);
    SessionOf(cfg, s, d);
    L.ReturnMoves(cfg, View(s, d));
    s' := LiftOne(cfg, s0, s, d, L.Return(View(s, d)), c);
    SameIndex(cfg, s, s', c);
    if Io(s', t).pc != S.IoIdle {
      var s1 := s';
      s' := FreesIo(cfg, s0, s1, t, c);
      BesideBoth(View(s, c), View(s1, c), View(s', c));
    }
  }

  lemma SameIndex(cfg: Config, s: Server, s': Server, c: ConnId)
    requires c in s.conns && c in s'.conns && L.Beside(View(s, c), View(s', c))
    ensures s'.conns[c].ioidx == s.conns[c].ioidx
  {
    hide Q;
  }

  lemma WorksFor(cfg: Config, s: Server, t: Tid)
    requires Inv(cfg, s) && Io(s, t).pc != S.IoIdle
    ensures var d := Io(s, t).conn; d in s.conns && s.conns[d].ioidx == t && View(s, d).io == Io(s, t).pc && Mine(s, d)
  {
    hide Conserved, Placed, Sessions, Q;
  }

  // ---------------------------------------------------------------- no response is stuck

  /** Something is pending, and a finish stands in the way for good: c's own, or
      that of another connection in the IO thread of c, in an event that goes on. */
  predicate Stuck(s: Server, c: ConnId)
    requires c in s.conns
  {
    var v, th := View(s, c), Io(s, s.conns[c].ioidx);
    && v.conn.sent != v.conn.received
    && (if th.conn == c then L.Doomed(v)
        else th.pc != S.IoIdle && th.conn in s.conns && L.Committed(View(s, th.conn)))
  }

  ghost predicate CanAnswer(cfg: Config, s: Server, c: ConnId)
    requires c in s.conns
  {
    exists ms ::
      && Path(cfg, s, ms).Some? && c in Path(cfg, s, ms).value.conns
      && L.AllAnswered(View(s, c), View(Path(cfg, s, ms).value, c))
  }

  /** From every reachable state of the server, with any number of connections and
      threads: the threads can go on by honest moves to a state in which a served
      connection has all its requests answered, if and only if no finish stands in
      the way for good. */
  lemma {:induction false} NoneStuck(cfg: Config, s: Server, c: ConnId)
    requires ValidConfig(cfg) && Reachable(cfg, s) && c in s.conns && I.Serving(View(s, c))
    ensures CanAnswer(cfg, s, c) <==> !Stuck(s, c)
  {
    hide Reachable, Inv, CanAnswer, Stuck, View;
    ReachableKeeps(cfg, s);
    if Stuck(s, c) {
      NeverAnswers(cfg, s, c);
    } else {
      Answers(cfg, s, c);
    }
  }

  lemma {:induction false} Answers(cfg: Config, s: Server, c: ConnId)
    requires ValidConfig(cfg) && Inv(cfg, s) && c in s.conns && I.Serving(View(s, c)) && !Stuck(s, c)
    ensures CanAnswer(cfg, s, c)
  {
    hide Inv, View, Path, L.AllAnswered, L.Doomed, L.Committed, L.Beside, I.Serving, L.Frugal, Stuck, CanAnswer;
    assert Path(cfg, s, []) == Some(s) by { NoMoves(cfg, s); }
    SessionOf(cfg, s, c);
    var t := s.conns[c].ioidx;
    if View(s, c).conn.sent == View(s, c).conn.received {
      L.AnsweredNow(cfg, View(s, c));
      AlreadyDone(cfg, s, c);
    } else {
      Unstuck(s, c);
      var s1 := s;
      Untouched(View(s, c));
      if Io(s, t).pc != S.IoIdle && Io(s, t).conn != c {
        WorksFor(cfg, s, t);
        s1 := FreesIo(cfg, s, s, t, c);
        NotDoomed(s1, c);
      }
      Lifted(cfg, s, s1, c);
    }
  }

  lemma AlreadyDone(cfg: Config, s: Server, c: ConnId)
    requires Path(cfg, s, []) == Some(s) && c in s.conns && L.AllAnswered(View(s, c), View(s, c))
    ensures CanAnswer(cfg, s, c)
  {
    hide Path, View, L.AllAnswered;
  }

  lemma Unstuck(s: Server, c: ConnId)
    requires c in s.conns && !Stuck(s, c) && View(s, c).conn.sent != View(s, c).conn.received
    ensures var th := Io(s, s.conns[c].ioidx);
            && (th.conn == c || th.pc == S.IoIdle ==> !L.Doomed(View(s, c)))
            && (th.conn != c && th.pc != S.IoIdle && th.conn in s.conns ==> !L.Committed(View(s, th.conn)))
  {
    hide Q, L.Committed;
  }

  lemma NotDoomed(s: Server, c: ConnId)
    requires c in s.conns && Io(s, s.conns[c].ioidx).pc == S.IoIdle
    ensures !L.Doomed(View(s, c))
  {
    hide Q;
  }

  lemma NoMoves(cfg: Config, s: Server)
    ensures Path(cfg, s, []) == Some(s)
  {
  }

  lemma {:induction false} Lifted(cfg: Config, s: Server, s1: Server, c: ConnId)
    requires ValidConfig(cfg) && Led(cfg, s, s1) && c in s.conns && c in s1.conns && I.Serving(View(s, c))
    requires Mine(s1, c) && L.Beside(View(s, c), View(s1, c)) && !L.Doomed(View(s1, c))
    ensures CanAnswer(cfg, s, c)
  {
    hide Inv, View, Path, L.AllAnswered, L.Doomed, I.Serving, L.Frugal, Mine;
    SessionOf(cfg, s1, c);
    var acts := L.AnswersFrom(cfg, View(s1, c));
    var s2 := Lift(cfg, s, s1, c, acts);
    var ms :| Path(cfg, s, ms) == Some(s2);
    L.AnsweredAfter(View(s, c), View(s1, c), View(s2, c));
  }

  /** A path of the server is, for each connection, a path of its session. */
  lemma {:induction false} Project(cfg: Config, s: Server, ms: seq<Move>, c: ConnId) returns (acts: seq<S.Act>)
    requires ValidConfig(cfg) && Inv(cfg, s) && c in s.conns && Path(cfg, s, ms).Some?
    ensures var s' := Path(cfg, s, ms).value;
            && Inv(cfg, s') && s'.conns.Keys == s.conns.Keys
            && L.Path(cfg, View(s, c), acts) == Some(View(s', c))
  {
    hide Inv, Next, View, S.Next, S.Good, GoodMove, L.Honest, Struct;
    if ms == [] {
      acts := [];
    } else {
      var m := ms[|ms| - 1];
      var u := Path(cfg, s, ms[..|ms| - 1]).value;
      acts := Project(cfg, s, ms[..|ms| - 1], c);
      StepInv(cfg, u, Path(cfg, s, ms).value, m);
      if m.c == c {
        L.PathStep(cfg, View(s, c), acts, View(u, c), m.a);
        acts := acts + [m.a];
      }
    }
  }

  lemma {:induction false} NeverAnswers(cfg: Config, s: Server, c: ConnId)
    requires ValidConfig(cfg) && Inv(cfg, s) && c in s.conns && I.Serving(View(s, c)) && Stuck(s, c)
    ensures !CanAnswer(cfg, s, c)
  {
    hide Inv, View, Path, L.Doomed, L.Committed, I.Serving, L.Path;
    if CanAnswer(cfg, s, c) {
      var ms :| Path(cfg, s, ms).Some? && c in Path(cfg, s, ms).value.conns &&
                L.AllAnswered(View(s, c), View(Path(cfg, s, ms).value, c));
      var d := Io(s, s.conns[c].ioidx).conn;
      if d == c {
        var acts := Project(cfg, s, ms, c);
        SessionOf(cfg, s, c);
        L.DoomedEnds(cfg, View(s, c), acts);
      } else {
        WaitsForEver(cfg, s, ms, c);
      }
    }
  }

  /** While the thread is bound to the other connection, nothing of c is sent. */
  ghost predicate Barred(s: Server, t: Tid, c: ConnId, d: ConnId, sent: nat, received: nat) {
    && c in s.conns && d in s.conns && c != d && s.conns[c].ioidx == t && s.conns[d].ioidx == t
    && Io(s, t).pc != S.IoIdle && Io(s, t).conn == d && L.Committed(View(s, d))
    && View(s, c).conn.sent == sent && View(s, c).conn.received == received
  }

  lemma {:induction false} WaitsForEver(cfg: Config, s: Server, ms: seq<Move>, c: ConnId)
    requires ValidConfig(cfg) && Inv(cfg, s) && c in s.conns && Path(cfg, s, ms).Some?
    requires var t := s.conns[c].ioidx; var d := Io(s, t).conn;
             Io(s, t).pc != S.IoIdle && d in s.conns && d != c && L.Committed(View(s, d))
    ensures var k := View(s, c).conn;
            Inv(cfg, Path(cfg, s, ms).value) &&
            Barred(Path(cfg, s, ms).value, s.conns[c].ioidx, c, Io(s, s.conns[c].ioidx).conn, k.sent, k.received)
  {
    hide Inv, Next, View, GoodMove, Honest, L.Committed;
    var t, k := s.conns[c].ioidx, View(s, c).conn;
    if ms == [] {
      WorksFor(cfg, s, t);
    } else {
      WaitsForEver(cfg, s, ms[..|ms| - 1], c);
      var u := Path(cfg, s, ms[..|ms| - 1]).value;
      StepInv(cfg, u, Path(cfg, s, ms).value, ms[|ms| - 1]) by { HonestIsServed(u, ms[|ms| - 1]); }
      StillBarred(cfg, u, Path(cfg, s, ms).value, ms[|ms| - 1], t, c, Io(s, t).conn, k.sent, k.received);
    }
  }

  lemma HonestIsServed(s: Server, m: Move)
    requires Honest(s, m)
    ensures m.c in s.conns && !m.a.AcceptTake? && !m.a.AcceptServe? && L.Honest(View(s, m.c), m.a)
  {
    hide Q;
  }

  lemma StillBarred(cfg: Config, s: Server, s': Server, m: Move, t: Tid, c: ConnId, d: ConnId, sent: nat,
                    received: nat)
    requires ValidConfig(cfg) && Inv(cfg, s) && Honest(s, m) && GoodMove(s, m) && Next(cfg, s, m) == Some(s')
    requires Barred(s, t, c, d, sent, received)
    ensures Barred(s', t, c, d, sent, received)
  {
    hide Inv, Next, View, GoodMove, Honest, L.Committed, L.Honest, S.Next, S.Good, Struct, Serves;
    HonestIsServed(s, m);
    StepInv(cfg, s, s', m);
    Frames(cfg, s, s', m);
    WorksFor(cfg, s, t);
    SessionOf(cfg, s, d);
    SessionOf(cfg, s, c);
    if m.c == d {
      L.CommittedStays(cfg, View(s, d), m.a);
    } else {
      OnlyStages(cfg, s, m, t);
      if m.c == c { L.StageKeeps(cfg, View(s, c), m.a); }
    }
    SessionOf(cfg, s', c);
    SessionOf(cfg, s', d);
    CommittedBusy(s', t, d);
  }

  lemma CommittedBusy(s: Server, t: Tid, d: ConnId)
    requires d in s.conns && s.conns[d].ioidx == t && L.Committed(View(s, d))
    ensures Io(s, t).conn == d && Io(s, t).pc != S.IoIdle
  {
    hide Q;
  }

  /** The busy IO thread of one connection takes no act of another. */
  lemma OnlyStages(cfg: Config, s: Server, m: Move, t: Tid)
    requires Inv(cfg, s) && m.c in s.conns && Next(cfg, s, m).Some? && !m.a.AcceptTake? && !m.a.AcceptServe?
    requires Io(s, t).pc != S.IoIdle && Io(s, t).conn != m.c
    ensures L.Stage(m.a) || m.t != t
    ensures s.conns[m.c].ioidx == t ==> L.Stage(m.a)
  {
    hide Conserved, Placed, Sessions, IoNext, SubNext, CompNext, RecvBytes, SendBytes, RequestTop;
    BusyOnly(cfg, s, m.t, m.c);
  }
}
