/** Every step of the server is a step of one connection's protocol: it shows
    in that connection's view as SessionProtocol says, and in no other view.
    So everything proved of a connection alone holds of every connection of the
    server; and buffers are conserved along the way.
 */
module ServerInvariant {
  import opened Rpc
  import opened ServerMachine
  import opened ServerView
  import S = SessionProtocol
  import I = SessionInvariant
  import H = SessionHistory

  // ---------------------------------------------------------------- the invariant

  /** A buffer outside the pool is in a place of the connection it points at. */
  ghost predicate Home(s: Server, p: Place, b: Buf) {
    && b in s.bufs && s.bufs[b].conn in s.conns
    && var c := s.bufs[b].conn;
       match p
       case Pool => true
       case ComputeInbox(n) => n == s.conns[c].computeidx
       case ComputeHand(n) => n == s.conns[c].computeidx
       case SubmitInbox(n) => n == s.conns[c].submitidx
       case SubmitHand(n) => n == s.conns[c].submitidx
       case IoHand(n) => n == s.conns[c].ioidx
       case SendQueue(d) => d == c
       case RecvSlot(d) => d == c
       case SendSlot(d) => d == c
  }

  ghost predicate Placed(s: Server) {
    forall p, b :: p != Pool && b in At(s, p) ==> Home(s, p, b)
  }

  /** A busy thread works for a connection assigned to it. */
  ghost predicate Assigned(s: Server) {
    && (forall t :: Io(s, t).pc != S.IoIdle ==> Io(s, t).conn in s.conns && s.conns[Io(s, t).conn].ioidx == t)
    && (forall t :: Comp(s, t).pc != S.CompIdle ==>
          Comp(s, t).conn in s.conns && s.conns[Comp(s, t).conn].computeidx == t)
    && (forall t :: Sub(s, t).pc != S.SubIdle ==>
          Sub(s, t).conn in s.conns && s.conns[Sub(s, t).conn].submitidx == t)
  }

  ghost predicate Struct(s: Server) {
    && Conserved(s) && Placed(s) && Assigned(s)
    && forall c :: c in s.free ==> c in s.conns
  }

  ghost predicate Sessions(cfg: Config, s: Server) {
    forall c :: c in s.conns ==> I.Inv(cfg, View(s, c)) && H.Faithful(cfg, View(s, c))
  }

  ghost predicate Inv(cfg: Config, s: Server) {
    Struct(s) && Sessions(cfg, s)
  }

  /** The step from s to s' is the step `a` of connection c, and nobody else's. */
  ghost predicate Sim(cfg: Config, s: Server, s': Server, c: ConnId, a: S.Act)
    requires c in s.conns
  {
    && s'.conns.Keys == s.conns.Keys && s'.bufs.Keys == s.bufs.Keys
    && Struct(s')
    && S.Next(cfg, View(s, c), a) == Some(View(s', c))
    && forall d :: d in s.conns && d != c ==> View(s', d) == View(s, d)
  }

  // ---------------------------------------------------------------- frames

  /** Only connection c, and threads working for it or idle, have changed. */
  ghost predicate OnlyFor(s: Server, s': Server, c: ConnId)
    requires c in s.conns
  {
    && s'.conns.Keys == s.conns.Keys
    && s'.conns[c].ioidx == s.conns[c].ioidx
    && s'.conns[c].computeidx == s.conns[c].computeidx
    && s'.conns[c].submitidx == s.conns[c].submitidx
    && (forall d :: d in s.conns && d != c ==> s'.conns[d] == s.conns[d])
    && (forall t :: Io(s', t) == Io(s, t) || (t == s.conns[c].ioidx && Io(s', t).conn == c &&
                      (Io(s, t).conn == c || Io(s, t).pc == S.IoIdle)))
    && (forall t :: Comp(s', t) == Comp(s, t) || (t == s.conns[c].computeidx && Comp(s', t).conn == c &&
                      (Comp(s, t).conn == c || Comp(s, t).pc == S.CompIdle)))
    && (forall t :: Sub(s', t) == Sub(s, t) || (t == s.conns[c].submitidx && Sub(s', t).conn == c &&
                      (Sub(s, t).conn == c || Sub(s, t).pc == S.SubIdle)))
  }

  /** The free list and the accept thread, as far as d is concerned. */
  ghost predicate SameRoll(s: Server, s': Server, d: ConnId) {
    multiset(s'.free)[d] == multiset(s.free)[d] && (s'.accepting == Some(d) <==> s.accepting == Some(d))
  }

  lemma OthersKept(s: Server, s': Server, c: ConnId)
    requires c in s.conns && OnlyFor(s, s', c)
    requires forall d :: d in s.conns && d != c ==> SameRoll(s, s', d)
    requires forall r, d :: r != Pool && d != c ==> Q(s', r, d) == Q(s, r, d)
    ensures forall d :: d in s.conns && d != c ==> View(s', d) == View(s, d)
  {
  }

  lemma AssignedKept(s: Server, s': Server, c: ConnId)
    requires c in s.conns && OnlyFor(s, s', c) && Assigned(s)
    ensures Assigned(s')
  {
  }

  lemma SamePlaced(s: Server, s': Server, c: ConnId)
    requires c in s.conns && OnlyFor(s, s', c) && Placed(s) && SamePlaces(s, s') && s'.bufs.Keys == s.bufs.Keys
    requires forall b :: b in s.bufs ==> s'.bufs[b].conn == s.bufs[b].conn
    ensures Placed(s')
  {
  }

  lemma ShiftPlaced(s: Server, s': Server, p: Place, q: Place, c: ConnId)
    requires c in s.conns && OnlyFor(s, s', c) && Placed(s) && Conserved(s)
    requires Shifted(s, s', p, q) && Touched(s, s', At(s, p)[0], c)
    requires q == Pool || Home(s', q, At(s, p)[0])
    ensures Placed(s')
  {
    var x := At(s, p)[0];
    forall r, b | r != Pool && b in At(s', r) ensures Home(s', r, b) {
      if r == q && b == x {
      } else {
        assert b in At(s, r);
        assert Home(s, r, b);
        if b == x {
          StillThere(s, s', p, q, r);
        }
      }
    }
  }

  /** The shifted buffer is nowhere but at its new place. */
  lemma StillThere(s: Server, s': Server, p: Place, q: Place, r: Place)
    requires NoAlias(s) && Shifted(s, s', p, q) && r != q
    ensures At(s, p)[0] !in At(s', r)
  {
  }

  // ---------------------------------------------------------------- hands and slots

  /** A connection with a buffer in somebody's hand is in service, and that
      thread stands for it. */
  lemma HandShape(cfg: Config, v: S.Session)
    requires I.Inv(cfg, v)
    ensures |v.iohand| <= 1 && |v.chand| <= 1 && |v.shand| <= 1
    ensures v.iohand != [] ==> v.io != S.IoIdle
    ensures v.chand != [] ==> v.comp != S.CompIdle
    ensures v.shand != [] ==> v.sub != S.SubIdle
  {
  }

  /** A buffer in a thread's hand belongs to the connection the thread works
      for, and is alone there. */
  lemma IoHandOne(cfg: Config, s: Server, t: Tid, b: Buf)
    requires Placed(s) && Sessions(cfg, s) && b in At(s, IoHand(t))
    ensures b in s.bufs && s.bufs[b].conn in s.conns && s.bufs[b].conn == Io(s, t).conn
    ensures Io(s, t).pc != S.IoIdle && s.conns[s.bufs[b].conn].ioidx == t
    ensures |View(s, s.bufs[b].conn).iohand| == 1
  {
    assert Home(s, IoHand(t), b);
    var d := s.bufs[b].conn;
    ProjHas(s.bufs, At(s, IoHand(t)), d, b);
    HandShape(cfg, View(s, d));
  }

  lemma IoHandOwned(cfg: Config, s: Server, t: Tid)
    requires Placed(s) && Sessions(cfg, s) && At(s, IoHand(t)) != []
    ensures Io(s, t).conn in s.conns && Io(s, t).pc != S.IoIdle && s.conns[Io(s, t).conn].ioidx == t
    ensures |At(s, IoHand(t))| == 1
    ensures At(s, IoHand(t))[0] in s.bufs && s.bufs[At(s, IoHand(t))[0]].conn == Io(s, t).conn
  {
    forall b | b in At(s, IoHand(t))
      ensures b in s.bufs && s.bufs[b].conn == Io(s, t).conn
    {
      IoHandOne(cfg, s, t, b);
    }
    IoHandOne(cfg, s, t, At(s, IoHand(t))[0]);
    ProjAll(s.bufs, At(s, IoHand(t)), Io(s, t).conn);
  }

  lemma ComputeHandOne(cfg: Config, s: Server, t: Tid, b: Buf)
    requires Placed(s) && Sessions(cfg, s) && b in At(s, ComputeHand(t))
    ensures b in s.bufs && s.bufs[b].conn in s.conns && s.bufs[b].conn == Comp(s, t).conn
    ensures Comp(s, t).pc != S.CompIdle && s.conns[s.bufs[b].conn].computeidx == t
    ensures |View(s, s.bufs[b].conn).chand| == 1
  {
    assert Home(s, ComputeHand(t), b);
    var d := s.bufs[b].conn;
    ProjHas(s.bufs, At(s, ComputeHand(t)), d, b);
    HandShape(cfg, View(s, d));
  }

  lemma ComputeHandOwned(cfg: Config, s: Server, t: Tid)
    requires Placed(s) && Sessions(cfg, s) && At(s, ComputeHand(t)) != []
    ensures Comp(s, t).conn in s.conns && Comp(s, t).pc != S.CompIdle && s.conns[Comp(s, t).conn].computeidx == t
    ensures |At(s, ComputeHand(t))| == 1
    ensures At(s, ComputeHand(t))[0] in s.bufs && s.bufs[At(s, ComputeHand(t))[0]].conn == Comp(s, t).conn
  {
    forall b | b in At(s, ComputeHand(t))
      ensures b in s.bufs && s.bufs[b].conn == Comp(s, t).conn
    {
      ComputeHandOne(cfg, s, t, b);
    }
    ComputeHandOne(cfg, s, t, At(s, ComputeHand(t))[0]);
    ProjAll(s.bufs, At(s, ComputeHand(t)), Comp(s, t).conn);
  }

  lemma SubmitHandOne(cfg: Config, s: Server, t: Tid, b: Buf)
    requires Placed(s) && Sessions(cfg, s) && b in At(s, SubmitHand(t))
    ensures b in s.bufs && s.bufs[b].conn in s.conns && s.bufs[b].conn == Sub(s, t).conn
    ensures Sub(s, t).pc != S.SubIdle && s.conns[s.bufs[b].conn].submitidx == t
    ensures |View(s, s.bufs[b].conn).shand| == 1
  {
    assert Home(s, SubmitHand(t), b);
    var d := s.bufs[b].conn;
    ProjHas(s.bufs, At(s, SubmitHand(t)), d, b);
    HandShape(cfg, View(s, d));
  }

  lemma SubmitHandOwned(cfg: Config, s: Server, t: Tid)
    requires Placed(s) && Sessions(cfg, s) && At(s, SubmitHand(t)) != []
    ensures Sub(s, t).conn in s.conns && Sub(s, t).pc != S.SubIdle && s.conns[Sub(s, t).conn].submitidx == t
    ensures |At(s, SubmitHand(t))| == 1
    ensures At(s, SubmitHand(t))[0] in s.bufs && s.bufs[At(s, SubmitHand(t))[0]].conn == Sub(s, t).conn
  {
    forall b | b in At(s, SubmitHand(t))
      ensures b in s.bufs && s.bufs[b].conn == Sub(s, t).conn
    {
      SubmitHandOne(cfg, s, t, b);
    }
    SubmitHandOne(cfg, s, t, At(s, SubmitHand(t))[0]);
    ProjAll(s.bufs, At(s, SubmitHand(t)), Sub(s, t).conn);
  }

  /** While a buffer field owns a buffer, it points at it. */
  lemma SlotOwned(s: Server, c: ConnId, p: Place)
    requires Placed(s) && c in s.conns && p in {RecvSlot(c), SendSlot(c), SendQueue(c)}
    ensures |Q(s, p, c)| == |At(s, p)|
    ensures forall i :: 0 <= i < |At(s, p)| ==>
              At(s, p)[i] in s.bufs && s.bufs[At(s, p)[i]].conn == c &&
              Q(s, p, c)[i] == ItemOf(At(s, p)[i], s.bufs[At(s, p)[i]])
  {
    forall b | b in At(s, p) ensures b in s.bufs && s.bufs[b].conn == c {
      assert Home(s, p, b);
    }
    ProjAll(s.bufs, At(s, p), c);
  }

  // ---------------------------------------------------------------- three kinds of step

  /** A step that moves no buffer and writes none. */
  lemma PlainStep(s: Server, s': Server, c: ConnId)
    requires Struct(s) && c in s.conns && OnlyFor(s, s', c)
    requires s'.at == s.at && s'.bufs == s.bufs
    requires forall d :: d in s.conns && d != c ==> SameRoll(s, s', d)
    requires forall d :: d in s'.free ==> d in s.conns
    ensures Struct(s')
    ensures forall d :: d in s.conns && d != c ==> View(s', d) == View(s, d)
    ensures forall r, d :: Q(s', r, d) == Q(s, r, d)
  {
    hide NoAlias, Located, Home, Proj;
    SameConserved(s, s');
    SamePlaced(s, s', c);
    AssignedKept(s, s', c);
    OthersKept(s, s', c);
  }

  /** A step that writes the only buffer of a place of c. */
  lemma WriteStep(s: Server, s': Server, c: ConnId, p: Place)
    requires Struct(s) && c in s.conns && OnlyFor(s, s', c)
    requires s'.at == s.at && s'.free == s.free && s'.accepting == s.accepting
    requires |At(s, p)| == 1 && Touched(s, s', At(s, p)[0], c) && s.bufs[At(s, p)[0]].conn == c
    ensures Struct(s')
    ensures forall d :: d in s.conns && d != c ==> View(s', d) == View(s, d)
    ensures forall r, d :: d != c || r != p ==> Q(s', r, d) == Q(s, r, d)
    ensures Q(s', p, c) == [ItemOf(At(s, p)[0], s'.bufs[At(s, p)[0]])]
  {
    hide NoAlias, Located, Home, Proj;
    SameConserved(s, s');
    SamePlaced(s, s', c);
    AssignedKept(s, s', c);
    TouchShows(s, s', p, c);
    OthersKept(s, s', c);
  }

  /** A step that moves a buffer of c. */
  lemma ShiftStep(s: Server, s': Server, c: ConnId, p: Place, q: Place)
    requires Struct(s) && c in s.conns && OnlyFor(s, s', c)
    requires s'.free == s.free && s'.accepting == s.accepting
    requires Shifted(s, s', p, q) && Touched(s, s', At(s, p)[0], c)
    requires p == Pool || s.bufs[At(s, p)[0]].conn == c
    requires q == Pool || Home(s', q, At(s, p)[0])
    ensures Struct(s')
    ensures forall d :: d in s.conns && d != c ==> View(s', d) == View(s, d)
    ensures forall r :: r != Pool && r != p && r != q ==> Q(s', r, c) == Q(s, r, c)
    ensures p != Pool ==> Q(s, p, c) == [ItemOf(At(s, p)[0], s.bufs[At(s, p)[0]])] + Q(s', p, c)
    ensures q != Pool ==> Q(s', q, c) == Q(s, q, c) + [ItemOf(At(s, p)[0], s'.bufs[At(s, p)[0]])]
  {
    hide NoAlias, Located, Home, Proj;
    ShiftConserved(s, s', p, q);
    ShiftPlaced(s, s', p, q, c);
    AssignedKept(s, s', c);
    ShiftShows(s, s', p, q, c);
    OthersKept(s, s', c);
  }

  // ---------------------------------------------------------------- a shift, in the view

  /** The stage kept at place r, after the buffer `it` has moved from p to q. */
  function Turn(stage: seq<S.Item>, r: Place, p: Place, q: Place, it: S.Item): seq<S.Item> {
    if r == p then (if stage == [] then [] else stage[1..])
    else if r == q then (if stage == [] then [it] else stage + [it]) else stage
  }

  function ShiftView(v: S.Session, c: ConnId, p: Place, q: Place, it: S.Item): (w: S.Session)
    ensures w.io == v.io && w.comp == v.comp && w.sub == v.sub
  {
    var k := v.conn;
    v.(recv := Turn(v.recv, RecvSlot(c), p, q, it), send := Turn(v.send, SendSlot(c), p, q, it),
       sendq := Turn(v.sendq, SendQueue(c), p, q, it),
       cin := Turn(v.cin, ComputeInbox(k.computeidx), p, q, it),
       chand := Turn(v.chand, ComputeHand(k.computeidx), p, q, it),
       sin := Turn(v.sin, SubmitInbox(k.submitidx), p, q, it),
       shand := Turn(v.shand, SubmitHand(k.submitidx), p, q, it),
       iohand := Turn(v.iohand, IoHand(k.ioidx), p, q, it))
  }

  function Busy(v: S.Session, w: S.Session): S.Session {
    v.(conn := w.conn, io := w.io, comp := w.comp, sub := w.sub)
  }

  /** Buffer x of connection c goes from p to q, and becomes `it`. */
  ghost predicate Moves(s: Server, s': Server, c: ConnId, p: Place, q: Place, x: Buf, it: S.Item) {
    && c in s.conns && OnlyFor(s, s', c)
    && s'.free == s.free && s'.accepting == s.accepting
    && Shifted(s, s', p, q) && x == At(s, p)[0] && Touched(s, s', x, c) && it == ItemOf(x, s'.bufs[x])
    && (p == Pool || s.bufs[x].conn == c)
    && (q == Pool || Home(s', q, x))
  }

  lemma ShiftTurns(s: Server, s': Server, c: ConnId, p: Place, q: Place, x: Buf, it: S.Item)
    requires Struct(s) && Moves(s, s', c, p, q, x, it)
    ensures s'.conns.Keys == s.conns.Keys && s'.bufs.Keys == s.bufs.Keys && Struct(s')
    ensures forall d :: d in s.conns && d != c ==> View(s', d) == View(s, d)
    ensures p != Pool ==> x in s.bufs && Q(s, p, c) != [] && Q(s, p, c)[0] == ItemOf(x, s.bufs[x])
    ensures forall r :: r != Pool ==> Q(s', r, c) == Turn(Q(s, r, c), r, p, q, it)
  {
    hide Struct, Home, Q, View, ItemOf;
    ShiftStep(s, s', c, p, q);
  }

  lemma ShiftInView(s: Server, s': Server, c: ConnId, p: Place, q: Place, x: Buf, it: S.Item)
    requires Struct(s) && Moves(s, s', c, p, q, x, it)
    ensures s'.conns.Keys == s.conns.Keys && s'.bufs.Keys == s.bufs.Keys && Struct(s')
    ensures forall d :: d in s.conns && d != c ==> View(s', d) == View(s, d)
    ensures p != Pool ==> x in s.bufs && Q(s, p, c) != [] && Q(s, p, c)[0] == ItemOf(x, s.bufs[x])
    ensures View(s', c) == Busy(ShiftView(View(s, c), c, p, q, it), View(s', c))
  {
    hide Struct, Home, Q, Touched, Shifted, Turn, ItemOf, At;
    ShiftTurns(s, s', c, p, q, x, it);
    assert SameRoll(s, s', c);
  }

  function Put(stage: seq<S.Item>, r: Place, p: Place, it: S.Item): seq<S.Item> {
    if r == p then [it] else stage
  }

  function WriteView(v: S.Session, c: ConnId, p: Place, it: S.Item): (w: S.Session)
    ensures w.io == v.io && w.comp == v.comp && w.sub == v.sub
  {
    v.(recv := Put(v.recv, RecvSlot(c), p, it), send := Put(v.send, SendSlot(c), p, it),
       chand := Put(v.chand, ComputeHand(v.conn.computeidx), p, it))
  }

  /** Buffer x of connection c, alone in p, becomes `it`. */
  ghost predicate Writes(s: Server, s': Server, c: ConnId, p: Place, x: Buf, it: S.Item) {
    && c in s.conns && OnlyFor(s, s', c)
    && s'.at == s.at && s'.free == s.free && s'.accepting == s.accepting
    && At(s, p) == [x] && Touched(s, s', x, c) && it == ItemOf(x, s'.bufs[x]) && s.bufs[x].conn == c
    && (p == RecvSlot(c) || p == SendSlot(c) || p == ComputeHand(s.conns[c].computeidx))
  }

  lemma WriteInView(s: Server, s': Server, c: ConnId, p: Place, x: Buf, it: S.Item)
    requires Struct(s) && Writes(s, s', c, p, x, it)
    ensures s'.conns.Keys == s.conns.Keys && s'.bufs.Keys == s.bufs.Keys && Struct(s')
    ensures forall d :: d in s.conns && d != c ==> View(s', d) == View(s, d)
    ensures x in s.bufs && Q(s, p, c) == [ItemOf(x, s.bufs[x])]
    ensures View(s', c) == Busy(WriteView(View(s, c), c, p, it), View(s', c))
  {
    hide Struct, Home, Q, ItemOf, Proj;
    WriteStep(s, s', c, p);
    WriteOld(s, s', c, p, x);
    assert SameRoll(s, s', c);
  }

  lemma WriteOld(s: Server, s': Server, c: ConnId, p: Place, x: Buf)
    requires At(s, p) == [x] && x in s.bufs && s.bufs[x].conn == c
    ensures Q(s, p, c) == [ItemOf(x, s.bufs[x])]
  {
    ProjOne(s.bufs, x, c);
  }
}
