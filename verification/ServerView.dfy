/** The server seen by one connection. The view keeps, of every shared queue,
    the buffers that point at the connection, and of every thread, what it does
    for the connection. This file says how a move of one buffer shows in the
    views, and when buffers are conserved.
 */
module ServerView {
  import opened Rpc
  import opened ServerMachine
  import S = SessionProtocol

  /** The items of connection c among the buffers q, in order. */
  function Proj(bufs: map<Buf, Buffer>, q: seq<Buf>, c: ConnId): seq<S.Item> {
    if q == [] then []
    else
      Proj(bufs, q[..|q| - 1], c) + Own(bufs, q[|q| - 1], c)
  }

  function Own(bufs: map<Buf, Buffer>, b: Buf, c: ConnId): seq<S.Item> {
    if b in bufs && bufs[b].conn == c then [ItemOf(b, bufs[b])] else []
  }

  function Q(s: Server, p: Place, c: ConnId): seq<S.Item> { Proj(s.bufs, At(s, p), c) }

  function View(s: Server, c: ConnId): S.Session
    requires c in s.conns
  {
    var k := s.conns[c];
    S.Session(k,
      Q(s, RecvSlot(c), c), Q(s, SendSlot(c), c), Q(s, SendQueue(c), c),
      Q(s, ComputeInbox(k.computeidx), c), Q(s, ComputeHand(k.computeidx), c),
      Q(s, SubmitInbox(k.submitidx), c), Q(s, SubmitHand(k.submitidx), c), Q(s, IoHand(k.ioidx), c),
      if Io(s, k.ioidx).conn == c then Io(s, k.ioidx).pc else S.IoIdle,
      if Comp(s, k.computeidx).conn == c then Comp(s, k.computeidx).pc else S.CompIdle,
      if Sub(s, k.submitidx).conn == c then Sub(s, k.submitidx).pc else S.SubIdle,
      multiset(s.free)[c], s.accepting == Some(c))
  }

  // ---------------------------------------------------------------- projections

  lemma {:induction false} ProjAppend(bufs: map<Buf, Buffer>, q: seq<Buf>, r: seq<Buf>, c: ConnId)
    ensures Proj(bufs, q + r, c) == Proj(bufs, q, c) + Proj(bufs, r, c)
  {
    if r == [] {
      assert q + r == q;
    } else {
      var r' := r[..|r| - 1];
      ProjAppend(bufs, q, r', c);
      assert (q + r)[..|q + r| - 1] == q + r';
    }
  }

  lemma ProjOne(bufs: map<Buf, Buffer>, b: Buf, c: ConnId)
    ensures Proj(bufs, [b], c) == Own(bufs, b, c)
  {
  }

  lemma ProjSnoc(bufs: map<Buf, Buffer>, q: seq<Buf>, b: Buf, c: ConnId)
    ensures Proj(bufs, q + [b], c) == Proj(bufs, q, c) + Own(bufs, b, c)
  {
  }

  lemma ProjHead(bufs: map<Buf, Buffer>, q: seq<Buf>, c: ConnId)
    requires q != []
    ensures Proj(bufs, q, c) == Own(bufs, q[0], c) + Proj(bufs, q[1..], c)
  {
    assert q == [q[0]] + q[1..];
    ProjAppend(bufs, [q[0]], q[1..], c);
    ProjOne(bufs, q[0], c);
  }

  /** Buffers whose content and owner have not changed, or that belong to other
      connections before and after, project the same. */
  lemma {:induction false} ProjSame(bufs: map<Buf, Buffer>, bufs': map<Buf, Buffer>, q: seq<Buf>, c: ConnId)
    requires forall b :: b in q ==> Own(bufs, b, c) == Own(bufs', b, c)
    ensures Proj(bufs, q, c) == Proj(bufs', q, c)
  {
    if q != [] {
      ProjSame(bufs, bufs', q[..|q| - 1], c);
    }
  }

  /** When every buffer belongs to c, the projection is the whole place. */
  lemma {:induction false} ProjAll(bufs: map<Buf, Buffer>, q: seq<Buf>, c: ConnId)
    requires forall b :: b in q ==> b in bufs && bufs[b].conn == c
    ensures |Proj(bufs, q, c)| == |q|
    ensures forall i :: 0 <= i < |q| ==> Proj(bufs, q, c)[i] == ItemOf(q[i], bufs[q[i]])
  {
    if q != [] {
      ProjAll(bufs, q[..|q| - 1], c);
    }
  }

  lemma {:induction false} ProjNone(bufs: map<Buf, Buffer>, q: seq<Buf>, c: ConnId)
    requires forall b :: b in q ==> b in bufs && bufs[b].conn != c
    ensures Proj(bufs, q, c) == []
  {
    if q != [] {
      ProjNone(bufs, q[..|q| - 1], c);
    }
  }

  /** Every buffer of c in a place shows in the projection. */
  lemma {:induction false} ProjHas(bufs: map<Buf, Buffer>, q: seq<Buf>, c: ConnId, b: Buf)
    requires b in q && b in bufs && bufs[b].conn == c
    ensures ItemOf(b, bufs[b]) in Proj(bufs, q, c)
  {
    var q' := q[..|q| - 1];
    assert q == q' + [q[|q| - 1]];
    if b in q' {
      ProjHas(bufs, q', c, b);
    }
  }

  // ---------------------------------------------------------------- conservation

  ghost predicate IsAt(s: Server, p: Place, i: nat, b: Buf) {
    i < |At(s, p)| && At(s, p)[i] == b
  }

  /** A place and position of b, if it has one. */
  ghost function Spot(s: Server, b: Buf): (Place, nat) {
    if exists p, i :: IsAt(s, p, i, b) then (var p, i :| IsAt(s, p, i, b); (p, i)) else (Pool, 0)
  }

  /** No buffer is in two places, nor twice in one: its spot is the only one. */
  ghost predicate NoAlias(s: Server) {
    forall p, i :: 0 <= i < |At(s, p)| ==> Spot(s, At(s, p)[i]) == (p, i)
  }

  lemma NoAliasMeans(s: Server)
    ensures NoAlias(s) <==>
            forall p, q, i, j :: 0 <= i < |At(s, p)| && 0 <= j < |At(s, q)| && At(s, p)[i] == At(s, q)[j] ==>
              p == q && i == j
  {
    if forall p, q, i, j :: 0 <= i < |At(s, p)| && 0 <= j < |At(s, q)| && At(s, p)[i] == At(s, q)[j] ==>
         p == q && i == j
    {
      forall p, i | 0 <= i < |At(s, p)| ensures Spot(s, At(s, p)[i]) == (p, i) {
        assert IsAt(s, p, i, At(s, p)[i]);
        var (q, j) := Spot(s, At(s, p)[i]);
        assert IsAt(s, q, j, At(s, p)[i]);
      }
    }
  }

  ghost predicate Located(s: Server, b: Buf) {
    exists p :: b in At(s, p)
  }

  /** Each buffer is in exactly one place, once. */
  ghost predicate Conserved(s: Server) {
    && NoAlias(s)
    && (forall b :: b in s.bufs ==> Located(s, b))
    && (forall p, b :: b in At(s, p) ==> b in s.bufs)
  }

  ghost predicate SamePlaces(s: Server, s': Server) {
    forall p :: At(s', p) == At(s, p)
  }

  /** The first buffer of p has gone to the end of q. */
  ghost predicate Shifted(s: Server, s': Server, p: Place, q: Place) {
    && p != q && At(s, p) != []
    && At(s', p) == At(s, p)[1..]
    && At(s', q) == At(s, q) + [At(s, p)[0]]
    && forall r :: r != p && r != q ==> At(s', r) == At(s, r)
  }

  lemma SameConserved(s: Server, s': Server)
    requires Conserved(s) && SamePlaces(s, s') && s'.bufs.Keys == s.bufs.Keys
    ensures Conserved(s')
  {
    hide NoAlias, Located;
    SameNoAlias(s, s');
    forall b | b in s'.bufs ensures Located(s', b) { SameLocated(s, s', b); }
  }

  lemma SameNoAlias(s: Server, s': Server)
    requires NoAlias(s) && SamePlaces(s, s')
    ensures NoAlias(s')
  {
    hide NoAlias, SamePlaces;
    NoAliasMeans(s);
    NoAliasMeans(s');
    SamePlacesMeans(s, s');
  }

  lemma SamePlacesMeans(s: Server, s': Server)
    requires SamePlaces(s, s')
    ensures forall p :: At(s', p) == At(s, p)
  {
  }

  lemma SameLocated(s: Server, s': Server, b: Buf)
    requires Located(s, b) && SamePlaces(s, s')
    ensures Located(s', b)
  {
    var p :| b in At(s, p);
    assert b in At(s', p);
  }

  lemma ShiftConserved(s: Server, s': Server, p: Place, q: Place)
    requires Conserved(s) && Shifted(s, s', p, q) && s'.bufs.Keys == s.bufs.Keys
    ensures Conserved(s')
  {
    var x := At(s, p)[0];
    assert At(s, p) == [x] + At(s, p)[1..];
    forall b | b in s'.bufs ensures Located(s', b) {
      assert Located(s, b);
      var r :| b in At(s, r);
      if b == x {
        assert At(s', q)[|At(s, q)|] == x;
        assert b in At(s', q);
      } else {
        assert b in At(s', r);
      }
    }
    forall r, b | b in At(s', r) ensures b in s'.bufs {
      if r == q && b !in At(s, q) {
        assert b == x && x in At(s, p);
      } else {
        assert b in At(s, r);
      }
    }
    ShiftNoAlias(s, s', p, q);
  }

  lemma ShiftNoAlias(s: Server, s': Server, p: Place, q: Place)
    requires NoAlias(s) && Shifted(s, s', p, q)
    ensures NoAlias(s')
  {
    forall r, t, i, j |
      0 <= i < |At(s', r)| && 0 <= j < |At(s', t)| && At(s', r)[i] == At(s', t)[j]
      ensures r == t && i == j
    {
      var (r', i') := Origin(s, s', p, q, r, i);
      var (t', j') := Origin(s, s', p, q, t, j);
      assert At(s, r')[i'] == At(s, t')[j'];
    }
    NoAliasMeans(s');
  }

  /** Where the buffer now at index i of r was before the shift. */
  ghost function Origin(s: Server, s': Server, p: Place, q: Place, r: Place, i: nat): (o: (Place, nat))
    requires Shifted(s, s', p, q) && i < |At(s', r)|
    ensures o.1 < |At(s, o.0)| && At(s, o.0)[o.1] == At(s', r)[i]
    ensures r == q && i == |At(s, q)| <==> o == (p, 0)
    ensures o != (p, 0) ==> o == (r, if r == p then i + 1 else i)
  {
    if r == q && i == |At(s, q)| then (p, 0) else if r == p then (p, i + 1) else (r, i)
  }

  /** A buffer elsewhere is not the one that is shifted. */
  lemma OnlyThere(s: Server, p: Place, i: nat, r: Place, b: Buf)
    requires NoAlias(s) && i < |At(s, p)| && r != p && b in At(s, r)
    ensures b != At(s, p)[i]
  {
  }

  // ---------------------------------------------------------------- how a change shows

  /** The content of one buffer x may have changed; it is c's afterwards. */
  ghost predicate Touched(s: Server, s': Server, x: Buf, c: ConnId) {
    && s'.bufs.Keys == s.bufs.Keys && x in s.bufs
    && s'.bufs[x].conn == c
    && forall b :: b in s.bufs && b != x ==> s'.bufs[b] == s.bufs[b]
  }

  /** A shift of x, owned by c, shows in c's projections of the two places and
      in nothing else. The pool is nobody's place: what it holds may point
      anywhere. */
  lemma ShiftShows(s: Server, s': Server, p: Place, q: Place, c: ConnId)
    requires Conserved(s) && Shifted(s, s', p, q) && Touched(s, s', At(s, p)[0], c)
    requires p == Pool || s.bufs[At(s, p)[0]].conn == c
    ensures forall r, d :: r != Pool && (d != c || (r != p && r != q)) ==> Q(s', r, d) == Q(s, r, d)
    ensures p != Pool ==> Q(s, p, c) == [ItemOf(At(s, p)[0], s.bufs[At(s, p)[0]])] + Q(s', p, c)
    ensures q != Pool ==> Q(s', q, c) == Q(s, q, c) + [ItemOf(At(s, p)[0], s'.bufs[At(s, p)[0]])]
  {
    var x := At(s, p)[0];
    forall r, d | r != Pool && (d != c || (r != p && r != q))
      ensures Q(s', r, d) == Q(s, r, d)
    {
      ShiftHides(s, s', p, q, c, r, d);
    }
    if p != Pool {
      ProjHead(s.bufs, At(s, p), c);
      RestUntouched(s, s', p, c);
    }
    if q != Pool {
      ProjSnoc(s'.bufs, At(s, q), x, c);
      forall b | b in At(s, q) ensures b != x { OnlyThere(s, p, 0, q, b); }
      ProjSame(s.bufs, s'.bufs, At(s, q), c);
    }
  }

  lemma RestUntouched(s: Server, s': Server, p: Place, c: ConnId)
    requires Conserved(s) && At(s, p) != [] && At(s', p) == At(s, p)[1..] && Touched(s, s', At(s, p)[0], c)
    ensures Q(s', p, c) == Proj(s.bufs, At(s, p)[1..], c)
  {
    var rest := At(s, p)[1..];
    forall b | b in rest ensures b != At(s, p)[0] && b in s.bufs {
      var i :| 0 <= i < |rest| && rest[i] == b;
      assert At(s, p)[i + 1] == b;
    }
    ProjSame(s.bufs, s'.bufs, rest, c);
  }

  lemma ShiftHides(s: Server, s': Server, p: Place, q: Place, c: ConnId, r: Place, d: ConnId)
    requires Conserved(s) && Shifted(s, s', p, q) && Touched(s, s', At(s, p)[0], c)
    requires p == Pool || s.bufs[At(s, p)[0]].conn == c
    requires r != Pool && (d != c || (r != p && r != q))
    ensures Q(s', r, d) == Q(s, r, d)
  {
    var x := At(s, p)[0];
    if r == p {
      ProjHead(s.bufs, At(s, p), d);
      forall b | b in At(s, p)[1..] ensures Own(s.bufs, b, d) == Own(s'.bufs, b, d) {
        assert b in At(s, p);
      }
      ProjSame(s.bufs, s'.bufs, At(s, p)[1..], d);
    } else {
      forall b | b in At(s, r) ensures b != x && b in s.bufs { OnlyThere(s, p, 0, r, b); }
      ProjSame(s.bufs, s'.bufs, At(s, r), d);
      if r == q {
        ProjSnoc(s'.bufs, At(s, q), x, d);
      }
    }
  }

  /** A change of the content of x, in place p, shows only there. */
  lemma TouchShows(s: Server, s': Server, p: Place, c: ConnId)
    requires Conserved(s) && SamePlaces(s, s') && |At(s, p)| == 1 && Touched(s, s', At(s, p)[0], c)
    requires s.bufs[At(s, p)[0]].conn == c
    ensures forall r, d :: d != c || r != p ==> Q(s', r, d) == Q(s, r, d)
    ensures Q(s, p, c) == [ItemOf(At(s, p)[0], s.bufs[At(s, p)[0]])]
    ensures Q(s', p, c) == [ItemOf(At(s, p)[0], s'.bufs[At(s, p)[0]])]
  {
    var x := At(s, p)[0];
    assert At(s, p) == [x];
    ProjOne(s.bufs, x, c);
    ProjOne(s'.bufs, x, c);
    forall r, d | d != c || r != p
      ensures Q(s', r, d) == Q(s, r, d)
    {
      TouchHides(s, s', p, c, r, d);
    }
  }

  lemma TouchHides(s: Server, s': Server, p: Place, c: ConnId, r: Place, d: ConnId)
    requires Conserved(s) && SamePlaces(s, s') && |At(s, p)| == 1 && Touched(s, s', At(s, p)[0], c)
    requires s.bufs[At(s, p)[0]].conn == c
    requires d != c || r != p
    ensures Q(s', r, d) == Q(s, r, d)
  {
    forall b | b in At(s, r) ensures Own(s.bufs, b, d) == Own(s'.bufs, b, d) {
      if b == At(s, p)[0] && r != p { OnlyThere(s, p, 0, r, b); }
    }
    ProjSame(s.bufs, s'.bufs, At(s, r), d);
  }
}
