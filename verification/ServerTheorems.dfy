/** What holds of the whole server in every state that any interleaving of any
    number of accept, IO, compute and submitter threads can reach.
 */
module ServerTheorems {
  import opened Rpc
  import opened ServerMachine
  import opened ServerView
  import opened ServerInvariant
  import opened ServerSimulation
  import S = SessionProtocol
  import I = SessionInvariant
  import H = SessionHistory
  import T = SessionTheorems

  /** The two hypotheses, on the server: a connection is put in service with
      sendbuf NULL, and no handler runs on a connection it has finished. */
  predicate GoodMove(s: Server, m: Move) {
    && (m.a.AcceptServe? && m.c in s.conns ==> s.conns[m.c].sendbuf == None)
    && (m.a.IoStep? && (Io(s, m.t).pc.FinUnlock? || Io(s, m.t).pc.FinRelease?) ==> !Io(s, m.t).pc.more)
  }

  ghost predicate Run(cfg: Config, ss: seq<Server>, ms: seq<Move>) {
    && |ss| == |ms| + 1
    && Initial(ss[0])
    && forall i :: 0 <= i < |ms| ==> GoodMove(ss[i], ms[i]) && Next(cfg, ss[i], ms[i]) == Some(ss[i + 1])
  }

  ghost predicate Reachable(cfg: Config, s: Server) {
    exists ss, ms :: Run(cfg, ss, ms) && s == ss[|ms|]
  }

  // ---------------------------------------------------------------- the invariant

  lemma InitView(s: Server, c: ConnId)
    requires Initial(s) && c in s.conns
    ensures T.Initial(View(s, c))
  {
    hide Q;
    NothingOut(s, c);
    FreeOnce(s, c);
  }

  lemma FreeOnce(s: Server, c: ConnId)
    requires Initial(s) && c in s.conns
    ensures multiset(s.free)[c] == 1
  {
    var i :| 0 <= i < |s.free| && s.free[i] == c;
    CountOne(s.free, i);
  }

  lemma NothingOut(s: Server, c: ConnId)
    requires Initial(s)
    ensures forall p :: p != Pool ==> Q(s, p, c) == []
  {
  }

  lemma {:induction false} CountOne(q: seq<ConnId>, i: nat)
    requires i < |q| && forall j, k :: 0 <= j < k < |q| ==> q[j] != q[k]
    ensures multiset(q)[q[i]] == 1
  {
    var l := |q| - 1;
    assert q == q[..l] + [q[l]];
    assert multiset(q) == multiset(q[..l]) + multiset([q[l]]);
    if i < l {
      CountOne(q[..l], i);
      assert q[..l][i] == q[i];
    } else {
      assert q[l] !in q[..l];
    }
  }

  lemma InitInv(cfg: Config, s: Server)
    requires Initial(s)
    ensures Inv(cfg, s)
  {
    assert Conserved(s) by { InitConserved(s); }
    forall c | c in s.conns ensures I.Inv(cfg, View(s, c)) && H.Faithful(cfg, View(s, c)) {
      InitView(s, c);
      I.InitInv(cfg, View(s, c));
    }
  }

  lemma InitConserved(s: Server)
    requires Initial(s)
    ensures Conserved(s)
  {
    NoAliasMeans(s);
  }

  lemma GoodShows(cfg: Config, s: Server, m: Move)
    requires Assigned(s) && m.c in s.conns && GoodMove(s, m) && Next(cfg, s, m).Some?
    ensures S.Good(View(s, m.c), m.a)
  {
    hide Q, Wrap64;
  }

  lemma {:induction false} StepInv(cfg: Config, s: Server, s': Server, m: Move)
    requires ValidConfig(cfg) && Inv(cfg, s) && GoodMove(s, m) && Next(cfg, s, m) == Some(s')
    ensures Inv(cfg, s') && s'.bufs.Keys == s.bufs.Keys && s'.conns.Keys == s.conns.Keys
    ensures m.c in s.conns && S.Good(View(s, m.c), m.a) && Sim(cfg, s, s', m.c, m.a)
  {
    hide Conserved, Placed, Assigned, View, Next, I.Inv, H.Faithful, S.Next, S.Good;
    StepSim(cfg, s, s', m);
    var c := m.c;
    GoodShows(cfg, s, m);
    I.StepInv(cfg, View(s, c), m.a);
    H.StepFaithful(cfg, View(s, c), m.a);
    forall d | d in s'.conns ensures I.Inv(cfg, View(s', d)) && H.Faithful(cfg, View(s', d)) {
    }
  }

  lemma {:induction false} RunKeeps(cfg: Config, ss: seq<Server>, ms: seq<Move>, n: nat)
    requires ValidConfig(cfg) && Run(cfg, ss, ms) && n <= |ms|
    ensures Inv(cfg, ss[n]) && ss[n].bufs.Keys == ss[0].bufs.Keys && ss[n].conns.Keys == ss[0].conns.Keys
  {
    hide Inv, Next, GoodMove, Initial, Sim, S.Good;
    if n == 0 {
      InitInv(cfg, ss[0]);
    } else {
      RunKeeps(cfg, ss, ms, n - 1);
      assert GoodMove(ss[n - 1], ms[n - 1]) && Next(cfg, ss[n - 1], ms[n - 1]) == Some(ss[n]);
      StepInv(cfg, ss[n - 1], ss[n], ms[n - 1]);
    }
  }

  lemma ReachableKeeps(cfg: Config, s: Server)
    requires ValidConfig(cfg) && Reachable(cfg, s)
    ensures Inv(cfg, s)
  {
    hide Inv, Next, GoodMove, Initial;
    var ss, ms :| Run(cfg, ss, ms) && s == ss[|ms|];
    RunKeeps(cfg, ss, ms, |ms|);
  }

  // ---------------------------------------------------------------- every connection is a session

  /** What connection c goes through in a run of the server is a run of its own
      protocol. So every theorem of SessionTheorems holds of it. */
  lemma {:induction false} ProjectRun(cfg: Config, ss: seq<Server>, ms: seq<Move>, c: ConnId, n: nat)
    returns (vs: seq<S.Session>, acts: seq<S.Act>)
    requires ValidConfig(cfg) && Run(cfg, ss, ms) && c in ss[0].conns && n <= |ms|
    ensures c in ss[n].conns && T.Run(cfg, vs, acts) && T.Initial(vs[0]) && vs[|acts|] == View(ss[n], c)
  {
    hide View, S.Next, S.Good, Next, Inv, Initial, T.Initial, Struct;
    if n == 0 {
      InitView(ss[0], c);
      return [View(ss[0], c)], [];
    }
    vs, acts := ProjectRun(cfg, ss, ms, c, n - 1);
    RunKeeps(cfg, ss, ms, n - 1);
    StepInv(cfg, ss[n - 1], ss[n], ms[n - 1]);
    if ms[n - 1].c == c {
      ExtendRun(cfg, vs, acts, ms[n - 1].a, View(ss[n], c));
      vs, acts := vs + [View(ss[n], c)], acts + [ms[n - 1].a];
    }
  }

  lemma ExtendRun(cfg: Config, vs: seq<S.Session>, acts: seq<S.Act>, a: S.Act, w: S.Session)
    requires T.Run(cfg, vs, acts) && S.Good(vs[|acts|], a) && S.Next(cfg, vs[|acts|], a) == Some(w)
    ensures T.Run(cfg, vs + [w], acts + [a])
  {
    hide S.Next, S.Good;
  }

  lemma {:induction false} EveryConnection(cfg: Config, s: Server, c: ConnId)
    requires ValidConfig(cfg) && Reachable(cfg, s) && c in s.conns
    ensures T.Reachable(cfg, View(s, c))
  {
    hide Next, GoodMove, Initial, S.Next, S.Good, View, Inv, T.Initial;
    var ss, ms :| Run(cfg, ss, ms) && s == ss[|ms|];
    RunKeeps(cfg, ss, ms, |ms|);
    var vs, acts := ProjectRun(cfg, ss, ms, c, |ms|);
  }

  // ---------------------------------------------------------------- conservation

  /** Each preallocated buffer is in exactly one place, once: the pool, a live
      recvbuf or sendbuf, an inbox, a send queue or one thread's hand. */
  lemma {:induction false} BufferConservation(cfg: Config, ss: seq<Server>, ms: seq<Move>, b: Buf)
    requires ValidConfig(cfg) && Run(cfg, ss, ms)
    ensures var s := ss[|ms|];
            && (b in At(ss[0], Pool) <==> exists p :: b in At(s, p))
            && (forall p, q, i, j :: 0 <= i < |At(s, p)| && 0 <= j < |At(s, q)| && At(s, p)[i] == b == At(s, q)[j] ==>
                  p == q && i == j)
  {
    RunKeeps(cfg, ss, ms, |ms|);
    var s := ss[|ms|];
    NoAliasMeans(s);
    assert b in s.bufs ==> Located(s, b);
  }

  /** While a connection is served, its two buffer fields point at the buffers
      their slots hold; no slot of a free connection holds any. */
  lemma {:induction false} LiveSlots(cfg: Config, s: Server, c: ConnId)
    requires ValidConfig(cfg) && Reachable(cfg, s) && c in s.conns && I.Serving(View(s, c))
    ensures At(s, RecvSlot(c)) == if s.conns[c].recvbuf.Some? then [s.conns[c].recvbuf.value] else []
    ensures At(s, SendSlot(c)) == if s.conns[c].sendbuf.Some? then [s.conns[c].sendbuf.value] else []
  {
    ReachableKeeps(cfg, s);
    LiveSlotsInv(cfg, s, c);
  }

  lemma LiveSlotsInv(cfg: Config, s: Server, c: ConnId)
    requires Inv(cfg, s) && c in s.conns && I.Serving(View(s, c))
    ensures At(s, RecvSlot(c)) == if s.conns[c].recvbuf.Some? then [s.conns[c].recvbuf.value] else []
    ensures At(s, SendSlot(c)) == if s.conns[c].sendbuf.Some? then [s.conns[c].sendbuf.value] else []
  {
    hide Conserved, Proj, Q, I.Inv, H.Faithful, Placed;
    assert I.Inv(cfg, View(s, c));
    Single(View(s, c), cfg);
    SlotOwned(s, c, SendSlot(c));
    SlotOwned(s, c, RecvSlot(c));
    assert I.Serving(View(s, c));
  }

  // ---------------------------------------------------------------- teardown

  /** Nothing outside the pool points at a connection on the free list or in
      the accept thread's hand, no thread works for it, and it is there once;
      so accept may reset its lock. */
  lemma {:induction false} SafeTeardown(cfg: Config, s: Server, c: ConnId)
    requires ValidConfig(cfg) && Reachable(cfg, s) && c in s.conns
    requires c in s.free || s.accepting == Some(c)
    ensures forall p, b :: p != Pool && b in At(s, p) ==> b in s.bufs && s.bufs[b].conn != c
    ensures forall t :: (Io(s, t).pc != S.IoIdle ==> Io(s, t).conn != c) &&
                        (Comp(s, t).pc != S.CompIdle ==> Comp(s, t).conn != c) &&
                        (Sub(s, t).pc != S.SubIdle ==> Sub(s, t).conn != c)
    ensures multiset(s.free)[c] + (if s.accepting == Some(c) then 1 else 0) == 1
  {
    EveryConnection(cfg, s, c);
    T.SafeTeardown(cfg, View(s, c));
    ReachableKeeps(cfg, s);
    QuietMeans(s, c);
  }

  // ---------------------------------------------------------------- the pool

  /** All the items of a session. */
  function Load(v: S.Session): seq<S.Item> {
    v.recv + v.send + v.sendq + v.cin + v.chand + v.sin + v.shand + v.iohand
  }

  /** A connection never has more than readahead + 1 buffers; and one buffer
      less when handle_request is about to ask for one. */
  lemma LoadBound(cfg: Config, v: S.Session)
    requires ValidConfig(cfg) && I.Inv(cfg, v)
    ensures |Load(v)| <= cfg.readahead + 1
    ensures v.io == S.ReqTop && v.conn.recvbuf.None? && !S.TooFarAhead(cfg, v.conn) ==> |Load(v)| <= cfg.readahead
  {
    if I.InService(v) {
      I.HeadRoom(cfg, v);
      hide Wrap64, Sub64, S.TooFarAhead, I.Wakeups;
      LoadCount(v);
    }
  }

  lemma LoadCount(v: S.Session)
    requires I.Shape(v)
    ensures |Load(v)| == |v.recv| + |v.send| + |v.sendq| + I.Upstream(v)
                         + I.Ones(v.sub.SubDispose? || v.sub.SubQueue?) + I.Ones(v.io.RespPut? || v.io.FinPut?)
  {
  }

  /** The buffers outside the pool that point at c. */
  ghost function Owned(s: Server, c: ConnId): set<Buf> {
    set b | b in s.bufs && b !in At(s, Pool) && s.bufs[b].conn == c
  }

  ghost function OwnedByAny(s: Server, cs: set<ConnId>): set<Buf> {
    set b | b in s.bufs && b !in At(s, Pool) && s.bufs[b].conn in cs
  }

  function Ids(items: seq<S.Item>): set<nat> { set i | 0 <= i < |items| :: items[i].id }

  lemma {:induction false} IdsBound(items: seq<S.Item>)
    ensures |Ids(items)| <= |items|
  {
    if items == [] {
      assert Ids(items) == {};
    } else {
      var l := |items| - 1;
      IdsBound(items[..l]);
      assert Ids(items) == Ids(items[..l]) + {items[l].id};
    }
  }

  lemma OwnedListed(s: Server, c: ConnId, b: Buf)
    requires Struct(s) && c in s.conns && b in Owned(s, c)
    ensures b in Ids(Load(View(s, c)))
  {
    hide NoAlias, Home, View, Load, Proj, Ids;
    assert Located(s, b);
    var p :| b in At(s, p);
    assert Home(s, p, b);
    ProjHas(s.bufs, At(s, p), c, b);
    StageListed(s, c, p, ItemOf(b, s.bufs[b]));
  }

  lemma StageListed(s: Server, c: ConnId, p: Place, it: S.Item)
    requires c in s.conns && it in Q(s, p, c) && it.id in s.bufs && s.bufs[it.id].conn == c
    requires p != Pool && Home(s, p, it.id)
    ensures it.id in Ids(Load(View(s, c)))
  {
    hide Q, Load, Ids;
    ListedOne(View(s, c), it);
  }

  lemma ListedOne(v: S.Session, it: S.Item)
    ensures (it in v.recv || it in v.send || it in v.sendq || it in v.cin || it in v.chand || it in v.sin ||
             it in v.shand || it in v.iohand) ==> it.id in Ids(Load(v))
  {
    if it in Load(v) {
      var i :| 0 <= i < |Load(v)| && Load(v)[i] == it;
      assert it.id in Ids(Load(v));
    }
  }

  lemma OwnedBound(cfg: Config, s: Server, c: ConnId)
    requires ValidConfig(cfg) && Inv(cfg, s) && c in s.conns
    ensures |Owned(s, c)| <= |Load(View(s, c))| <= cfg.readahead + 1
  {
    hide View, Load, Struct, Sessions, Owned;
    forall b | b in Owned(s, c) ensures b in Ids(Load(View(s, c))) { OwnedListed(s, c, b); }
    SubsetSize(Owned(s, c), Ids(Load(View(s, c))));
    IdsBound(Load(View(s, c)));
    SessionInv(cfg, s, c);
    LoadBound(cfg, View(s, c));
  }

  lemma SessionInv(cfg: Config, s: Server, c: ConnId)
    requires Sessions(cfg, s) && c in s.conns
    ensures I.Inv(cfg, View(s, c))
  {
  }

  lemma {:induction false} SubsetSize(a: set<nat>, b: set<nat>)
    requires a <= b
    ensures |a| <= |b|
  {
    if a != {} {
      var x :| x in a;
      SubsetSize(a - {x}, b - {x});
    }
  }

  lemma {:induction false} OwnedByAnyBound(cfg: Config, s: Server, cs: set<ConnId>)
    requires ValidConfig(cfg) && Inv(cfg, s) && cs <= s.conns.Keys
    ensures |OwnedByAny(s, cs)| <= |cs| * (cfg.readahead + 1)
  {
    hide View, Load, Struct, Sessions;
    if cs == {} {
      assert OwnedByAny(s, cs) == {};
    } else {
      var c :| c in cs;
      OwnedByAnyBound(cfg, s, cs - {c});
      OwnedBound(cfg, s, c);
      assert OwnedByAny(s, cs) == OwnedByAny(s, cs - {c}) + Owned(s, c);
      assert |cs| * (cfg.readahead + 1) == (|cs| - 1) * (cfg.readahead + 1) + (cfg.readahead + 1);
    }
  }

  /** With readahead + 1 buffers for every session, the pool has a buffer
      whenever handle_request asks it for one. */
  lemma {:induction false} PoolNeverEmpty(cfg: Config, s: Server, t: Tid, c: ConnId)
    requires ValidConfig(cfg) && Reachable(cfg, s) && c in s.conns
    requires |s.bufs| >= |s.conns| * (cfg.readahead + 1)
    requires Io(s, t) == IoThread(c, S.ReqTop) && s.conns[c].recvbuf.None? && !S.TooFarAhead(cfg, s.conns[c])
    ensures At(s, Pool) != []
  {
    ReachableKeeps(cfg, s);
    PoolLeft(cfg, s, t, c);
  }

  lemma EmptyPool(s: Server, c: ConnId)
    requires Struct(s) && c in s.conns && At(s, Pool) == []
    ensures |s.bufs| <= |OwnedByAny(s, s.conns.Keys - {c})| + |Owned(s, c)|
  {
    hide NoAlias, Assigned;
    var u := OwnedByAny(s, s.conns.Keys - {c}) + Owned(s, c);
    forall b | b in s.bufs ensures b in u {
      assert Located(s, b);
      var p :| b in At(s, p);
      assert Home(s, p, b);
    }
    SubsetSize(s.bufs.Keys, u);
  }

  lemma AskingLoad(cfg: Config, s: Server, t: Tid, c: ConnId)
    requires ValidConfig(cfg) && Inv(cfg, s) && c in s.conns
    requires Io(s, t) == IoThread(c, S.ReqTop) && s.conns[c].recvbuf.None? && !S.TooFarAhead(cfg, s.conns[c])
    ensures |Owned(s, c)| <= cfg.readahead
  {
    hide Load, Conserved, Placed, Sessions, Q, S.TooFarAhead, Owned;
    SessionInv(cfg, s, c);
    LoadBound(cfg, View(s, c));
    OwnedBound(cfg, s, c);
  }

  lemma PoolLeft(cfg: Config, s: Server, t: Tid, c: ConnId)
    requires ValidConfig(cfg) && Inv(cfg, s) && c in s.conns
    requires |s.bufs| >= |s.conns| * (cfg.readahead + 1)
    requires Io(s, t) == IoThread(c, S.ReqTop) && s.conns[c].recvbuf.None? && !S.TooFarAhead(cfg, s.conns[c])
    ensures At(s, Pool) != []
  {
    hide Struct, Sessions, Owned, S.TooFarAhead;
    AskingLoad(cfg, s, t, c);
    OneLess(cfg, s, c);
  }

  /** A connection with one buffer less than its share leaves one in the pool. */
  lemma OneLess(cfg: Config, s: Server, c: ConnId)
    requires ValidConfig(cfg) && Inv(cfg, s) && c in s.conns && |Owned(s, c)| <= cfg.readahead
    requires |s.bufs| >= |s.conns| * (cfg.readahead + 1)
    ensures At(s, Pool) != []
  {
    hide Conserved, Placed, Assigned, Sessions, OwnedByAny, Owned;
    var others := s.conns.Keys - {c};
    OwnedByAnyBound(cfg, s, others);
    Fewer(s.conns, c, cfg.readahead + 1);
    if At(s, Pool) == [] {
      EmptyPool(s, c);
    }
  }

  lemma Fewer(conns: map<ConnId, S.Conn>, c: ConnId, share: nat)
    requires c in conns
    ensures |conns| * share == |conns.Keys - {c}| * share + share
  {
    assert conns.Keys == (conns.Keys - {c}) + {c};
    assert |conns| == |conns.Keys| == |conns.Keys - {c}| + 1;
  }

}
