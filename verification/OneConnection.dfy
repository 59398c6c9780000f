/** A server with one connection and one thread of each kind can take every step
    that the connection's session can take at once, if the pool gives what it is
    asked for. So a run of the session is a run of the server, and what can go wrong
    goes wrong there.
 */
module OneConnection {
  import opened Rpc
  import opened ServerMachine
  import opened ServerView
  import opened ServerInvariant
  import opened ServerSimulation
  import opened ServerTheorems
  import opened ServerEnabled
  import S = SessionProtocol

  /** Everything is numbered zero. */
  predicate One(s: Server) {
    && s.conns.Keys == {0}
    && s.conns[0].ioidx == 0 && s.conns[0].computeidx == 0 && s.conns[0].submitidx == 0
    && (s.accepting.Some? ==> s.accepting == Some(0))
  }

  // ---------------------------------------------------------------- what the session can do, the server can

  lemma Busy(cfg: Config, s: Server)
    requires Inv(cfg, s) && One(s)
    ensures View(s, 0).io == Io(s, 0).pc && (Io(s, 0).pc != S.IoIdle ==> Io(s, 0).conn == 0)
    ensures View(s, 0).comp == Comp(s, 0).pc && (Comp(s, 0).pc != S.CompIdle ==> Comp(s, 0).conn == 0)
    ensures View(s, 0).sub == Sub(s, 0).pc && (Sub(s, 0).pc != S.SubIdle ==> Sub(s, 0).conn == 0)
  {
    hide Q, Conserved, Placed, Sessions;
  }

  lemma Owned(s: Server, p: Place)
    requires Placed(s) && One(s) && p != Pool && At(s, p) != []
    ensures At(s, p)[0] in s.bufs && s.bufs[At(s, p)[0]].conn == 0
  {
    assert Home(s, p, At(s, p)[0]);
  }

  /** An act that needs a buffer from the pool. */
  predicate Asks(cfg: Config, v: S.Session, a: S.Act) {
    a.IoReqTop? && v.conn.recvbuf.None? && !S.TooFarAhead(cfg, v.conn)
  }

  lemma Enabled(cfg: Config, s: Server, a: S.Act)
    requires Inv(cfg, s) && One(s) && S.Next(cfg, View(s, 0), a).Some?
    requires Asks(cfg, View(s, 0), a) ==> At(s, Pool) != [] && a.got == Some(At(s, Pool)[0])
    ensures Next(cfg, s, Move(0, 0, a)).Some?
  {
    hide Inv, S.Next, Next, View, Serves, Asks;
    AllServed(cfg, s, a);
    EnabledExactly(cfg, s, Move(0, 0, a));
  }

  lemma AllServed(cfg: Config, s: Server, a: S.Act)
    requires Inv(cfg, s) && One(s) && S.Next(cfg, View(s, 0), a).Some?
    requires Asks(cfg, View(s, 0), a) ==> At(s, Pool) != [] && a.got == Some(At(s, Pool)[0])
    ensures Serves(cfg, s, 0, 0, a)
  {
    hide Conserved, Placed, Assigned, Q, Sessions, S.SendBytes, S.RecvBytes, S.IoNext, S.CompNext, S.SubNext,
         S.TooFarAhead;
    Busy(cfg, s);
    match a
    case AcceptTake => assert 0 in multiset(s.free); assert s.free[0] in s.conns;
    case CompTake =>
      if At(s, ComputeInbox(0)) == [] { EmptyShows(s, ComputeInbox(0), 0); } else { Owned(s, ComputeInbox(0)); }
    case SubTake =>
      if At(s, SubmitInbox(0)) == [] { EmptyShows(s, SubmitInbox(0), 0); } else { Owned(s, SubmitInbox(0)); }
    case _ =>
  }

  // ---------------------------------------------------------------- sessions that a server reaches

  /** Every sendbuf is NULL, as if the allocator had zeroed it. */
  predicate Clean(s: Server) { forall c :: c in s.conns ==> s.conns[c].sendbuf.None? }

  /** Reachable from such a start. */
  ghost predicate Started(cfg: Config, s: Server) {
    exists ss, ms :: Run(cfg, ss, ms) && Clean(ss[0]) && s == ss[|ms|]
  }

  lemma StartedReachable(cfg: Config, s: Server)
    requires Started(cfg, s)
    ensures Reachable(cfg, s)
  {
    hide Next, GoodMove, Initial, Clean;
    var ss, ms :| Run(cfg, ss, ms) && Clean(ss[0]) && s == ss[|ms|];
  }

  /** Some run of a server with one connection, and readahead + 1 buffers for it,
      leads to a state that the connection sees as v. */
  ghost predicate Realized(cfg: Config, v: S.Session) {
    exists s :: RealizedBy(cfg, s, v)
  }

  ghost predicate RealizedBy(cfg: Config, s: Server, v: S.Session) {
    Started(cfg, s) && One(s) && |s.bufs| >= cfg.readahead + 1 && View(s, 0) == v
  }

  lemma {:induction false} StartedStep(cfg: Config, s: Server, m: Move)
    requires Started(cfg, s) && GoodMove(s, m) && Next(cfg, s, m).Some?
    ensures Started(cfg, Next(cfg, s, m).value)
  {
    hide Next, GoodMove, Initial, Clean;
    var ss, ms :| Run(cfg, ss, ms) && Clean(ss[0]) && s == ss[|ms|];
    var s' := Next(cfg, s, m).value;
    var ss', ms' := ss + [s'], ms + [m];
    forall i | 0 <= i < |ms'| ensures GoodMove(ss'[i], ms'[i]) && Next(cfg, ss'[i], ms'[i]) == Some(ss'[i + 1]) {
      if i < |ms| {
        assert GoodMove(ss[i], ms[i]) && Next(cfg, ss[i], ms[i]) == Some(ss[i + 1]);
      }
    }
    assert Run(cfg, ss', ms') && ss'[0] == ss[0] && ss'[|ms'|] == s';
  }

  /** A step of the session, taken by the server. */
  lemma {:induction false} Taken(cfg: Config, s: Server, v: S.Session, a: S.Act)
    requires ValidConfig(cfg) && RealizedBy(cfg, s, v) && S.Good(v, a) && S.Next(cfg, v, a).Some?
    requires a.AcceptServe? ==> a == S.AcceptServe(0, 0, 0)
    requires Asks(cfg, v, a) ==> At(s, Pool) != [] && a.got == Some(At(s, Pool)[0])
    ensures Realized(cfg, S.Next(cfg, v, a).value)
  {
    hide Inv, Reachable, Started, View, Next, S.Next, S.Good;
    StartedReachable(cfg, s);
    ReachableKeeps(cfg, s);
    Enabled(cfg, s, a);
    var m := Move(0, 0, a);
    var s' := Next(cfg, s, m).value;
    GoodBack(cfg, s, a);
    StepInv(cfg, s, s', m);
    StartedStep(cfg, s, m);
    StillOne(cfg, s, s', a);
    SameCount(s, s');
    assert RealizedBy(cfg, s', View(s', 0));
  }

  lemma SameCount(s: Server, s': Server)
    requires s'.bufs.Keys == s.bufs.Keys
    ensures |s'.bufs| == |s.bufs|
  {
    assert |s'.bufs| == |s'.bufs.Keys| && |s.bufs| == |s.bufs.Keys|;
  }

  lemma GoodBack(cfg: Config, s: Server, a: S.Act)
    requires Inv(cfg, s) && One(s) && S.Good(View(s, 0), a)
    ensures GoodMove(s, Move(0, 0, a))
  {
    hide Inv, Q;
    Busy(cfg, s);
  }

  lemma StillOne(cfg: Config, s: Server, s': Server, a: S.Act)
    requires Inv(cfg, s) && One(s) && s'.conns.Keys == s.conns.Keys && Next(cfg, s, Move(0, 0, a)) == Some(s')
    requires a.AcceptServe? ==> a == S.AcceptServe(0, 0, 0)
    ensures One(s')
  {
    hide Inv, Handler, SubNext, CompNext;
    Frames(cfg, s, s', Move(0, 0, a));
  }

  // ---------------------------------------------------------------- a macro step

  /** One step that needs no buffer of the pool. */
  lemma {:induction false} Go(cfg: Config, v: S.Session, a: S.Act) returns (w: S.Session)
    requires ValidConfig(cfg) && Realized(cfg, v) && S.Good(v, a) && S.Next(cfg, v, a).Some? && !Asks(cfg, v, a)
    requires a.AcceptServe? ==> a == S.AcceptServe(0, 0, 0)
    ensures w == S.Next(cfg, v, a).value && Realized(cfg, w)
  {
    hide RealizedBy, S.Next, S.Good;
    var s :| RealizedBy(cfg, s, v);
    w := S.Next(cfg, v, a).value;
    Taken(cfg, s, v, a);
  }

  /** handle_request asks the pool for a buffer, and there is one. */
  lemma {:induction false} Ask(cfg: Config, v: S.Session) returns (w: S.Session, id: nat)
    requires ValidConfig(cfg) && Realized(cfg, v) && v.io == S.ReqTop
    requires v.conn.recvbuf.None? && !S.TooFarAhead(cfg, v.conn)
    ensures Realized(cfg, w)
    ensures w == v.(io := S.ReqRecv, recv := [S.Item(id, [], [], REQUEST_SIZE)], conn := v.conn.(recvbuf := Some(id)))
  {
    hide Reachable, Started, View, S.TooFarAhead;
    var s :| RealizedBy(cfg, s, v);
    StartedReachable(cfg, s);
    AsksForMore(cfg, s);
    id := At(s, Pool)[0];
    var a := S.IoReqTop(Some(id));
    w := S.Next(cfg, v, a).value;
    Taken(cfg, s, v, a);
  }

  lemma AsksForMore(cfg: Config, s: Server)
    requires ValidConfig(cfg) && Reachable(cfg, s) && One(s) && |s.bufs| >= cfg.readahead + 1
    requires View(s, 0).io == S.ReqTop && View(s, 0).conn.recvbuf.None? && !S.TooFarAhead(cfg, View(s, 0).conn)
    ensures At(s, Pool) != []
  {
    hide Reachable, S.TooFarAhead, Inv, Q;
    ReachableKeeps(cfg, s);
    Busy(cfg, s);
    assert |s.conns| == |s.conns.Keys| == 1;
    PoolNeverEmpty(cfg, s, 0, 0);
  }
}
