/** Many clients and the whole server. Each client is joined to the connection
    that accept gave it, until that connection is given to another; what such a
    pair goes through, while all the others go on, is a run of EndToEnd. So its
    theorems hold of every client at every moment.
 */
module Fleet {
  import opened Rpc
  import C = ClientProtocol
  import S = SessionProtocol
  import I = SessionInvariant
  import T = SessionTheorems
  import M = ServerMachine
  import V = ServerView
  import N = ServerInvariant
  import R = ServerTheorems
  import E = EndToEnd
  import Q = ServerEnabled

  /** The server, and for each connection the client it serves, or served last. */
  datatype System = System(server: M.Server, clients: map<M.ConnId, C.Client>)

  /** `next` is the client that has connected, when the move puts a connection in
      service. */
  datatype Act = ClientDoes(c: M.ConnId, a: C.Act) | ServerDoes(m: M.Move, next: C.Client)

  predicate Connecting(client: C.Client) { C.Initial(client, C.Data(client)) }

  predicate Allowed(f: System, act: Act) {
    match act
    case ClientDoes(c, a) =>
      c in f.clients && c in f.server.conns && (a.Recv? ==> f.clients[c].rx + a.bytes <= f.server.conns[c].hist.tx)
    case ServerDoes(m, next) =>
      && R.GoodMove(f.server, m) && m.c in f.server.conns
      && (m.a.AcceptServe? ==> Connecting(next))
      && (m.a.IoRecv? ==> m.c in f.clients && f.server.conns[m.c].hist.rx + m.a.bytes <= f.clients[m.c].tx)
  }

  function Next(cfg: Config, f: System, act: Act): Option<System> {
    if !Allowed(f, act) then None
    else
      match act
      case ClientDoes(c, a) =>
        (match C.Next(f.clients[c], a)
         case None => None
         case Some(client) => Some(System(f.server, f.clients[c := client])))
      case ServerDoes(m, next) =>
        (match M.Next(cfg, f.server, m)
         case None => None
         case Some(server) => Some(System(server, if m.a.AcceptServe? then f.clients[m.c := next] else f.clients)))
  }

  ghost predicate Run(cfg: Config, fs: seq<System>, acts: seq<Act>) {
    && |fs| == |acts| + 1
    && M.Initial(fs[0].server) && fs[0].clients == map[]
    && forall i :: 0 <= i < |acts| ==> Next(cfg, fs[i], acts[i]) == Some(fs[i + 1])
  }

  // ---------------------------------------------------------------- every pair

  /** A client and its connection. */
  function Pair(f: System, c: M.ConnId): E.System
    requires c in f.clients && c in f.server.conns
  {
    E.System(f.clients[c], V.View(f.server, c))
  }

  ghost predicate Joined(cfg: Config, f: System) {
    && R.Reachable(cfg, f.server)
    && forall c :: c in f.clients ==> c in f.server.conns && E.Reachable(cfg, Pair(f, c), C.Data(f.clients[c]))
  }

  lemma {:induction false} PairStep(cfg: Config, w: E.System, a: E.Act, w': E.System, data: Bytes)
    requires ValidConfig(cfg) && E.Reachable(cfg, w, data) && E.Next(cfg, w, a) == Some(w')
    ensures E.Reachable(cfg, w', data) && C.Data(w'.client) == data
  {
    hide E.Next, E.Reachable, E.Inv;
    E.StepReaches(cfg, w, a, w', data);
    E.ReachableInv(cfg, w', data);
    SameData(cfg, w', data);
  }

  lemma SameData(cfg: Config, w: E.System, data: Bytes)
    requires E.Inv(cfg, w, data)
    ensures C.Data(w.client) == data
  {
  }

  lemma {:induction false} ServerReaches(cfg: Config, s: M.Server, m: M.Move, s': M.Server)
    requires R.Reachable(cfg, s) && R.GoodMove(s, m) && M.Next(cfg, s, m) == Some(s')
    ensures R.Reachable(cfg, s')
  {
    hide M.Next, R.GoodMove, M.Initial;
    var ss, ms :| R.Run(cfg, ss, ms) && s == ss[|ms|];
    var ss', ms' := ss + [s'], ms + [m];
    forall i | 0 <= i < |ms'| ensures R.GoodMove(ss'[i], ms'[i]) && M.Next(cfg, ss'[i], ms'[i]) == Some(ss'[i + 1]) {
      if i < |ms| {
        assert R.GoodMove(ss[i], ms[i]) && M.Next(cfg, ss[i], ms[i]) == Some(ss[i + 1]);
      }
    }
    assert R.Run(cfg, ss', ms') && ss'[|ms'|] == s';
  }

  lemma ClientStep(cfg: Config, f: System, c: M.ConnId, a: C.Act, f': System)
    requires ValidConfig(cfg) && Joined(cfg, f) && Next(cfg, f, ClientDoes(c, a)) == Some(f')
    ensures Joined(cfg, f')
  {
    hide R.Reachable, E.Reachable, C.Next, V.Q;
    PairStep(cfg, Pair(f, c), E.ClientDoes(a), Pair(f', c), C.Data(f.clients[c]));
  }

  /** The connection enters service: a fresh pair. */
  lemma FreshPair(cfg: Config, s: M.Server, c: M.ConnId, client: C.Client)
    requires ValidConfig(cfg) && R.Reachable(cfg, s) && c in s.conns && Connecting(client)
    requires I.Serving(V.View(s, c)) && V.View(s, c).conn.hist == S.NO_HISTORY
    ensures E.Reachable(cfg, E.System(client, V.View(s, c)), C.Data(client))
  {
    hide R.Reachable, T.Reachable, V.View, C.Initial;
    R.EveryConnection(cfg, s, c);
    var w := E.System(client, V.View(s, c));
    assert E.Run(cfg, [w], []) && E.Initial(cfg, [w][0], C.Data(client));
  }

  lemma ServerStep(cfg: Config, f: System, m: M.Move, next: C.Client, f': System)
    requires ValidConfig(cfg) && Joined(cfg, f) && Next(cfg, f, ServerDoes(m, next)) == Some(f')
    ensures Joined(cfg, f')
  {
    hide R.Reachable, E.Reachable, M.Next, V.View, I.Inv, R.GoodMove, S.Next, S.Good, N.Struct, N.Sessions, Connecting;
    var (s, s') := (f.server, f'.server);
    R.ReachableKeeps(cfg, s);
    R.StepInv(cfg, s, s', m);
    ServerReaches(cfg, s, m, s');
    forall c | c in f'.clients
      ensures c in s'.conns && E.Reachable(cfg, Pair(f', c), C.Data(f'.clients[c]))
    {
      if c == m.c {
        if m.a.AcceptServe? {
          R.SessionInv(cfg, s, c);
          NewlyServed(cfg, V.View(s, c), m.a, V.View(s', c));
          FreshPair(cfg, s', c, next);
        } else {
          PairAllowed(cfg, f, m, next, V.View(s', c));
          PairStep(cfg, Pair(f, c), E.ServerDoes(m.a), Pair(f', c), C.Data(f.clients[c]));
        }
      }
    }
  }

  lemma NewlyServed(cfg: Config, v: S.Session, a: S.Act, w: S.Session)
    requires a.AcceptServe? && S.Next(cfg, v, a) == Some(w)
    requires I.Inv(cfg, v)
    ensures I.Serving(w) && w.conn.hist == S.NO_HISTORY
  {
  }

  lemma PairAllowed(cfg: Config, f: System, m: M.Move, next: C.Client, w: S.Session)
    requires Allowed(f, ServerDoes(m, next)) && m.c in f.clients && !m.a.AcceptServe?
    requires S.Good(V.View(f.server, m.c), m.a) && S.Next(cfg, V.View(f.server, m.c), m.a) == Some(w)
    ensures E.Next(cfg, Pair(f, m.c), E.ServerDoes(m.a)) == Some(E.System(f.clients[m.c], w))
  {
    hide S.Next, S.Good, V.Q, R.GoodMove;
  }

  lemma {:induction false} RunJoined(cfg: Config, fs: seq<System>, acts: seq<Act>, n: nat)
    requires ValidConfig(cfg) && Run(cfg, fs, acts) && n <= |acts|
    ensures Joined(cfg, fs[n])
  {
    hide Next, M.Initial, Joined;
    if n == 0 {
      StartJoined(cfg, fs[0]);
    } else {
      RunJoined(cfg, fs, acts, n - 1);
      assert Next(cfg, fs[n - 1], acts[n - 1]) == Some(fs[n]);
      match acts[n - 1]
      case ClientDoes(c, a) => ClientStep(cfg, fs[n - 1], c, a, fs[n]);
      case ServerDoes(m, next) => ServerStep(cfg, fs[n - 1], m, next, fs[n]);
    }
  }

  lemma StartJoined(cfg: Config, f: System)
    requires M.Initial(f.server) && f.clients == map[]
    ensures Joined(cfg, f)
  {
    hide M.Initial;
    assert R.Run(cfg, [f.server], []);
  }

  // ---------------------------------------------------------------- end to end

  /** In every run, every client's pair is in a state that EndToEnd reaches. */
  lemma {:induction false} EveryClient(cfg: Config, fs: seq<System>, acts: seq<Act>, c: M.ConnId)
    requires ValidConfig(cfg) && Run(cfg, fs, acts) && c in fs[|acts|].clients
    ensures c in fs[|acts|].server.conns
    ensures E.Reachable(cfg, Pair(fs[|acts|], c), C.Data(fs[|acts|].clients[c]))
  {
    hide Run, R.Reachable, E.Reachable;
    RunJoined(cfg, fs, acts, |acts|);
  }

  /** So for every client, whatever the others do: the requests delivered on its
      connection are its own first ones, in order, each with its number; and while
      it is served the six counters are in order. */
  lemma {:induction false} ChainForEach(cfg: Config, fs: seq<System>, acts: seq<Act>, c: M.ConnId, n: nat)
    requires ValidConfig(cfg) && Run(cfg, fs, acts) && c in fs[|acts|].clients
    ensures c in fs[|acts|].server.conns
    ensures var (client, v) := (fs[|acts|].clients[c], V.View(fs[|acts|].server, c));
            && (n < |v.conn.hist.delivered| ==>
                  n < client.sent && v.conn.hist.delivered[n] == C.Request(n, C.Data(client)))
            && (I.Serving(v) ==>
                  client.received <= v.conn.sent <= v.conn.processed <= v.conn.received <= client.sent <= client.total)
  {
    hide Next, M.Initial, R.Reachable, E.Reachable, V.View, C.Request;
    EveryClient(cfg, fs, acts, c);
    var f := fs[|acts|];
    var data := C.Data(f.clients[c]);
    if n < |V.View(f.server, c).conn.hist.delivered| { E.RequestsArrive(cfg, Pair(f, c), data, n); }
    if I.Serving(V.View(f.server, c)) { E.CounterChain(cfg, Pair(f, c), data); }
  }

  // ---------------------------------------------------------------- what the fleet can do

  /** A client can do exactly what it can do in its pair. */
  lemma ClientEnabled(cfg: Config, f: System, c: M.ConnId, a: C.Act)
    requires c in f.clients && c in f.server.conns
    ensures Next(cfg, f, ClientDoes(c, a)).Some? <==> E.Next(cfg, Pair(f, c), E.ClientDoes(a)).Some?
  {
    hide C.Next;
    assert V.View(f.server, c).conn == f.server.conns[c];
  }

  /** The server can do for a client exactly what it can do in the pair, when its
      thread is there for the connection. */
  lemma {:induction false} ServerEnabledFor(cfg: Config, f: System, m: M.Move, next: C.Client)
    requires N.Inv(cfg, f.server) && m.c in f.clients && m.c in f.server.conns && !m.a.AcceptServe?
    ensures Next(cfg, f, ServerDoes(m, next)).Some? <==>
            E.Next(cfg, Pair(f, m.c), E.ServerDoes(m.a)).Some? && Q.Serves(cfg, f.server, m.t, m.c, m.a)
  {
    hide N.Inv, M.Next, S.Next, S.Good, R.GoodMove, V.View, Q.Serves;
    Q.EnabledExactly(cfg, f.server, m);
    SameHistory(f.server, m.c);
    if M.Next(cfg, f.server, m).Some? {
      GoodBoth(cfg, f.server, m);
    }
  }

  lemma SameHistory(s: M.Server, c: M.ConnId)
    requires c in s.conns
    ensures V.View(s, c).conn == s.conns[c]
  {
  }

  lemma GoodBoth(cfg: Config, s: M.Server, m: M.Move)
    requires N.Inv(cfg, s) && m.c in s.conns && M.Next(cfg, s, m).Some? && !m.a.AcceptServe?
    ensures R.GoodMove(s, m) <==> S.Good(V.View(s, m.c), m.a)
  {
    hide V.Conserved, N.Placed, N.Sessions, V.Q, M.IoNext, M.SubNext, M.CompNext, M.RecvBytes, M.SendBytes,
         M.RequestTop;
    Q.BusyOnly(cfg, s, m.t, m.c);
  }
}
