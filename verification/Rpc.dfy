/** The wire format of include/rpc.h, and the byte-stream vocabulary shared by
    the server and the client: messages of a fixed size laid end to end.
 */
module Rpc {

  type Byte = x: int | 0 <= x < 256
  type Bytes = seq<Byte>

  datatype Option<+T> = None | Some(value: T)

  const ID_SIZE: nat := 4
  const REQUEST_LENGTH: nat := 1020
  const SHA_DIGEST_LENGTH: nat := 20
  const REQUEST_SIZE: nat := ID_SIZE + REQUEST_LENGTH
  const RESPONSE_SIZE: nat := ID_SIZE + SHA_DIGEST_LENGTH

  const TWO_32: nat := 0x1_0000_0000
  const TWO_64: nat := 0x1_0000_0000_0000_0000

  /** The `load` part of the server's configuration. SHA1 is a parameter: all
      that is used of it is the length of a digest. */
  datatype Config = Config(readahead: nat, maxIoSize: nat, sha1: Bytes -> Bytes)

  ghost predicate ValidConfig(cfg: Config) {
    && cfg.readahead < TWO_32
    && 0 < cfg.maxIoSize < TWO_32
    && forall data: Bytes :: |cfg.sha1(data)| == SHA_DIGEST_LENGTH
  }

  /** What compute_request leaves in `res`, as bytes: the request's own id
      followed by the digest of its data. */
  function Respond(cfg: Config, req: Bytes): Bytes {
    if |req| < ID_SIZE then [] else req[..ID_SIZE] + cfg.sha1(req[ID_SIZE..])
  }

  function Min(a: nat, b: nat): nat { if a > b then b else a }

  /** The value an `unsigned long` holds after n increments from zero. */
  function Wrap64(n: nat): nat { n % TWO_64 }

  /** Subtraction of two `unsigned long` values. */
  function Sub64(a: nat, b: nat): nat
    requires a < TWO_64 && b < TWO_64
  {
    if a >= b then a - b else a + TWO_64 - b
  }

  /** A stored counter holds eight bytes. Two of them are equal exactly when the
      counts are, and their stored difference is the true one, as long as the
      counts stay within one wrap of each other. */
  lemma {:induction false} WrapFaithful(a: nat, b: nat)
    requires b <= a < b + 0x1_0000_0000_0000_0000
    ensures a < 0x1_0000_0000_0000_0000 ==> Wrap64(a) == a
    ensures Wrap64(a + 0x1_0000_0000_0000_0000) == Wrap64(a)
    ensures Wrap64(a) == Wrap64(b) <==> a == b
    ensures Sub64(Wrap64(a), Wrap64(b)) == a - b
  {
  }

  /** Messages laid end to end. */
  function Flat(msgs: seq<Bytes>): Bytes {
    if msgs == [] then [] else Flat(msgs[..|msgs| - 1]) + msgs[|msgs| - 1]
  }

  ghost predicate AllSized(msgs: seq<Bytes>, size: nat) {
    forall i :: 0 <= i < |msgs| ==> |msgs[i]| == size
  }

  lemma {:induction false} FlatSnoc(msgs: seq<Bytes>, m: Bytes)
    ensures Flat(msgs + [m]) == Flat(msgs) + m
  {
  }

  lemma {:induction false} FlatLength(msgs: seq<Bytes>, size: nat)
    requires AllSized(msgs, size)
    ensures |Flat(msgs)| == |msgs| * size
  {
    if msgs != [] {
      FlatLength(msgs[..|msgs| - 1], size);
      assert |msgs| * size == (|msgs| - 1) * size + size;
    }
  }

  /** The n-th message sits at offset n * size. */
  lemma {:induction false} FlatAt(msgs: seq<Bytes>, size: nat, n: nat)
    requires AllSized(msgs, size) && n < |msgs|
    ensures |Flat(msgs)| == |msgs| * size
    ensures 0 <= n * size && n * size + size <= |msgs| * size
    ensures Flat(msgs)[n * size..n * size + size] == msgs[n]
  {
    var k := |msgs| - 1;
    FlatLength(msgs, size);
    FlatLength(msgs[..k], size);
    assert |msgs| * size == k * size + size;
    if n < k {
      FlatAt(msgs[..k], size, n);
      assert Flat(msgs)[n * size..n * size + size] == Flat(msgs[..k])[n * size..n * size + size];
    }
  }

  /** The same slice, when a partial message follows. */
  lemma {:induction false} CutAt(msgs: seq<Bytes>, partial: Bytes, size: nat, n: nat)
    requires AllSized(msgs, size) && n < |msgs|
    ensures 0 <= n * size && n * size + size <= |Flat(msgs) + partial|
    ensures (Flat(msgs) + partial)[n * size..n * size + size] == msgs[n]
  {
    FlatAt(msgs, size, n);
    var lo := n * size;
    assert (Flat(msgs) + partial)[lo..lo + size] == Flat(msgs)[lo..lo + size];
  }

  lemma {:induction false} MoreMessagesMoreBytes(m: nat, n: nat, size: nat)
    requires m < n
    ensures m * size + size <= n * size
  {
    assert n * size == m * size + (n - m) * size;
    assert (n - m) * size == size + (n - m - 1) * size;
  }

  /** Cutting a stream every `size` bytes is the only way to read it: if one
      stream of whole messages plus a partial one is a prefix of another, then
      its messages are the first messages of the other. */
  lemma {:induction false} CutUnique(a: seq<Bytes>, partial: Bytes, b: seq<Bytes>, rest: Bytes, size: nat)
    requires AllSized(a, size) && AllSized(b, size)
    requires Flat(a) + partial <= Flat(b) + rest
    requires |rest| < size
    ensures |a| <= |b| && a == b[..|a|]
  {
    FlatLength(a, size);
    FlatLength(b, size);
    if |b| < |a| {
      MoreMessagesMoreBytes(|b|, |a|, size);
    }
    forall n | 0 <= n < |a|
      ensures a[n] == b[n]
    {
      CutSame(a, partial, b, rest, size, n);
    }
  }

  lemma {:induction false} CutSame(a: seq<Bytes>, partial: Bytes, b: seq<Bytes>, rest: Bytes, size: nat, n: nat)
    requires AllSized(a, size) && AllSized(b, size)
    requires n < |a| && n < |b|
    requires Flat(a) + partial <= Flat(b) + rest
    ensures a[n] == b[n]
  {
    CutAt(a, partial, size, n);
    CutAt(b, rest, size, n);
    SliceOfPrefix(Flat(a) + partial, Flat(b) + rest, n * size, n * size + size);
  }

  lemma {:induction false} SliceOfPrefix(x: Bytes, y: Bytes, lo: nat, hi: nat)
    requires x <= y && lo <= hi <= |x|
    ensures x[lo..hi] == y[lo..hi]
  {
  }
}
