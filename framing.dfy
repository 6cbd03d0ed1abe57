/**
 * Length-prefixed framing of the transport: a 4-byte big-endian length followed by the body.
 * A connection is modelled as the segments successive `recv` calls can return: each call
 * returns at most the requested number of bytes from the current segment, and an empty
 * result means the peer closed the connection.
 */
module Framing {
  import opened Wrappers

  newtype byte = x: int | 0 <= x < 256

  /** What a peer sends on one connection, as the receiver's `recv` calls see it. */
  type Segments = seq<seq<byte>>

  /** `recv` never returns an empty chunk while the connection is open. */
  predicate WellFormed(segs: Segments)
  {
    forall i :: 0 <= i < |segs| ==> segs[i] != []
  }

  /** All the bytes of a connection in order. */
  function Flatten(segs: Segments): seq<byte>
  {
    if segs == [] then [] else segs[0] + Flatten(segs[1..])
  }

  /** `conn.recv(k)`: the returned bytes and what stays unread. */
  function Recv(segs: Segments, k: nat): (r: (seq<byte>, Segments))
    requires WellFormed(segs) && k > 0
    ensures WellFormed(r.1)
    ensures |r.0| <= k
    ensures r.0 == [] <==> segs == []
  {
    if segs == [] then ([], [])
    else if |segs[0]| <= k then (segs[0], segs[1..])
    else (segs[0][..k], [segs[0][k..]] + segs[1..])
  }

  /** `recv` loses no byte and reorders none: what it returns followed by what stays unread is
      the whole connection; from a segment of at least `k` bytes it returns the first `k`. */
  lemma {:induction false} RecvSpec(segs: Segments, k: nat)
    requires WellFormed(segs) && k > 0
    ensures Recv(segs, k).0 + Flatten(Recv(segs, k).1) == Flatten(segs)
    ensures segs != [] && |segs[0]| >= k ==> Recv(segs, k).0 == segs[0][..k]
  {
    if segs != [] && |segs[0]| > k {
      var rest := [segs[0][k..]] + segs[1..];
      assert Flatten(rest) == segs[0][k..] + Flatten(segs[1..]);
      assert segs[0][..k] + segs[0][k..] == segs[0];
    }
  }

  function Min(a: int, b: int): int { if a <= b then a else b }

  /** Repeated `recv(min(4096, n - got))` until `n` bytes arrived or the peer closed. */
  function ReadUpTo(segs: Segments, n: nat): (r: (seq<byte>, Segments))
    requires WellFormed(segs)
    ensures WellFormed(r.1)
    decreases n
  {
    if n == 0 || segs == [] then ([], segs)
    else
      var (chunk, rest) := Recv(segs, Min(4096, n));
      var (more, rest') := ReadUpTo(rest, n - |chunk|);
      (chunk + more, rest')
  }

  /** The read loop returns the first `n` bytes of the connection, or all of them when the peer
      closes earlier, and leaves the others unread. */
  lemma {:induction false} ReadUpToSpec(segs: Segments, n: nat)
    requires WellFormed(segs)
    ensures var r := ReadUpTo(segs, n);
      && r.0 == Flatten(segs)[..Min(n, |Flatten(segs)|)]
      && r.0 + Flatten(r.1) == Flatten(segs)
    decreases n
  {
    if n > 0 && segs != [] {
      var (chunk, rest) := Recv(segs, Min(4096, n));
      RecvSpec(segs, Min(4096, n));
      ReadUpToSpec(rest, n - |chunk|);
      PrefixOfConcat(chunk, Flatten(rest), n);
      var more := ReadUpTo(rest, n - |chunk|);
      assert chunk + more.0 + Flatten(more.1) == chunk + (more.0 + Flatten(more.1));
    }
  }

  /** Taking at least `|a|` elements of `a + b` keeps all of `a`. */
  lemma PrefixOfConcat<T>(a: seq<T>, b: seq<T>, n: nat)
    requires |a| <= n
    ensures (a + b)[..Min(n, |a + b|)] == a + b[..Min(n - |a|, |b|)]
  {
  }

  /** The read loop of the receiver (`_receive_loop` and `_receive_response`): it grows the
      buffer one `recv` at a time and stops early when the peer closes. */
  method ReadBody(segs: Segments, n: nat) returns (got: seq<byte>, rest: Segments)
    requires WellFormed(segs)
    ensures (got, rest) == ReadUpTo(segs, n)
  {
    got, rest := [], segs;
    assert [] + ReadUpTo(segs, n).0 == ReadUpTo(segs, n).0;
    while |got| < n
      invariant WellFormed(rest) && |got| <= n
      invariant Joined(got, ReadUpTo(rest, n - |got|)) == ReadUpTo(segs, n)
    {
      var r := Recv(rest, Min(4096, n - |got|));
      if r.0 == [] {
        break;
      }
      ReadMore(got, rest, n);
      got, rest := got + r.0, r.1;
    }
    assert ReadUpTo(rest, n - |got|) == ([], rest);
    assert got + [] == got;
  }

  /** The bytes already read in front of the result of a further read. */
  function Joined(got: seq<byte>, r: (seq<byte>, Segments)): (seq<byte>, Segments)
  {
    (got + r.0, r.1)
  }

  /** One more `recv` that returned bytes keeps the read loop on course: what was read so far,
      followed by what the rest of the loop reads, is still the whole result. */
  lemma ReadMore(got: seq<byte>, rest: Segments, n: nat)
    requires WellFormed(rest) && |got| < n && rest != []
    ensures var r := Recv(rest, Min(4096, n - |got|));
      && |got + r.0| <= n
      && Joined(got + r.0, ReadUpTo(r.1, n - |got + r.0|)) == Joined(got, ReadUpTo(rest, n - |got|))
  {
    var r := Recv(rest, Min(4096, n - |got|));
    var more := ReadUpTo(r.1, n - |got| - |r.0|);
    assert ReadUpTo(rest, n - |got|) == (r.0 + more.0, more.1);
    assert got + (r.0 + more.0) == (got + r.0) + more.0;
  }

  /** `int.from_bytes(bs, 'big')` */
  function FromBigEndian(bs: seq<byte>): (n: nat)
  {
    if bs == [] then 0 else FromBigEndian(bs[..|bs| - 1]) * 256 + bs[|bs| - 1] as nat
  }

  /** The value of four big-endian bytes. */
  lemma FromBigEndian4(a: byte, b: byte, c: byte, d: byte)
    ensures FromBigEndian([a, b, c, d]) == ((a as nat * 256 + b as nat) * 256 + c as nat) * 256 + d as nat
    ensures FromBigEndian([a, b, c]) == (a as nat * 256 + b as nat) * 256 + c as nat
  {
    assert [a][..0] == [];
    assert FromBigEndian([a]) == a as nat;
    assert [a, b][..1] == [a];
    assert FromBigEndian([a, b]) == a as nat * 256 + b as nat;
    assert [a, b, c][..2] == [a, b];
    assert FromBigEndian([a, b, c]) == (a as nat * 256 + b as nat) * 256 + c as nat;
    assert [a, b, c, d][..3] == [a, b, c];
  }

  const FrameLimit: nat := 0x1_0000_0000

  /** `n.to_bytes(4, 'big')` for a length that fits. */
  function ToBigEndian4(n: nat): (bs: seq<byte>)
    requires n < FrameLimit
    ensures |bs| == 4 && FromBigEndian(bs) == n
  {
    var b0, b1, b2, b3 := n / 0x100_0000, (n / 0x1_0000) % 256, (n / 256) % 256, n % 256;
    var bs := [b0 as byte, b1 as byte, b2 as byte, b3 as byte];
    FromBigEndian4(b0 as byte, b1 as byte, b2 as byte, b3 as byte);
    assert n / 0x1_0000 == b0 * 256 + b1;
    assert n / 256 == (b0 * 256 + b1) * 256 + b2;
    bs
  }

  /** The bytes `send` writes for a body: the length prefix, then the body.
      A body of 2^32 bytes or more makes `to_bytes` raise OverflowError. */
  function EncodeFrame(body: seq<byte>): (r: Result<seq<byte>>)
    ensures r.Ok? <==> |body| < FrameLimit
    ensures r.Ok? ==> |r.value| == 4 + |body| && r.value[4..] == body
                      && FromBigEndian(r.value[..4]) == |body|
  {
    if |body| < FrameLimit then
      var p := ToBigEndian4(|body|);
      assert (p + body)[..4] == p;
      Ok(p + body)
    else Raise(OverflowError)
  }

  /** What the receiver makes of one connection. */
  datatype Frame =
    | NoPrefix                      // the first recv returned nothing
    | Short(announced: nat, got: nat) // the peer closed before the announced length arrived
    | Body(bytes: seq<byte>)

  /** The frame reading of `_receive_loop` (and of `_receive_response`): one `recv(4)` for the
      prefix, then the read loop for the announced length. */
  function DecodeFrame(segs: Segments): (f: Frame)
    requires WellFormed(segs)
    ensures f.NoPrefix? <==> segs == []
    ensures f.Body? ==> |f.bytes| == FromBigEndian(Recv(segs, 4).0)
                        && |f.bytes| <= |Flatten(Recv(segs, 4).1)|
                        && f.bytes == Flatten(Recv(segs, 4).1)[..|f.bytes|]
    ensures f.Short? ==> f.got < f.announced
  {
    var (prefix, rest) := Recv(segs, 4);
    if prefix == [] then NoPrefix
    else
      var len := FromBigEndian(prefix);
      var (body, _) := ReadUpTo(rest, len);
      ReadUpToSpec(rest, len);
      if |body| != len then Short(len, |body|) else Body(body)
  }

  /** When the first segment holds the whole prefix, the frame is the announced number of bytes
      after the prefix, or Short when the peer sent fewer. */
  lemma DecodeFrameWholePrefix(segs: Segments)
    requires WellFormed(segs) && segs != [] && |segs[0]| >= 4
    ensures var f, len := Flatten(segs), FromBigEndian(Flatten(segs)[..4]);
            DecodeFrame(segs) == if |f| - 4 >= len then Body(f[4..4 + len]) else Short(len, |f| - 4)
  {
    var f := Flatten(segs);
    var r := Recv(segs, 4);
    var prefix, rest := r.0, r.1;
    RecvSpec(segs, 4);
    assert f == segs[0] + Flatten(segs[1..]);
    assert prefix == segs[0][..4] == f[..4];
    assert Flatten(rest) == f[4..] by {
      assert prefix + Flatten(rest) == f;
    }
    var len := FromBigEndian(prefix);
    var body := ReadUpTo(rest, len).0;
    ReadUpToSpec(rest, len);
    assert body == f[4..][..Min(len, |f| - 4)];
    if |f| - 4 >= len {
      assert body == f[4..4 + len];
    }
  }

  /** Round trip: whatever segmentation the connection delivers, as long as the first `recv`
      sees the whole prefix, the receiver gets back exactly the body that was framed. */
  lemma DecodeEncode(body: seq<byte>, segs: Segments)
    requires |body| < FrameLimit
    requires WellFormed(segs) && Flatten(segs) == EncodeFrame(body).value
    requires segs != [] && |segs[0]| >= 4
    ensures DecodeFrame(segs) == Body(body)
  {
    DecodeFrameWholePrefix(segs);
    var f := EncodeFrame(body).value;
    assert f[4..4 + |body|] == body;
  }

  /** A frame whose peer closed early is never handed on. */
  lemma TruncatedFrameIsShort(body: seq<byte>, cut: nat, segs: Segments)
    requires |body| < FrameLimit && cut < |body|
    requires WellFormed(segs) && Flatten(segs) == EncodeFrame(body).value[..4 + cut]
    requires segs != [] && |segs[0]| >= 4
    ensures DecodeFrame(segs) == Short(|body|, cut)
  {
    DecodeFrameWholePrefix(segs);
    var f := EncodeFrame(body).value;
    assert f[..4 + cut][..4] == f[..4];
  }

  /** The prefix is read with a single `recv(4)`: when the first segment carries fewer than four
      bytes the announced length is misread. The frame of the one-byte body [65] delivered as
      [0, 0, 0] then [1, 65] is read as an empty body. */
  lemma SplitPrefixMisread()
    ensures EncodeFrame([65]) == Ok([0, 0, 0, 1, 65])
    ensures DecodeFrame([[0, 0, 0], [1, 65]]) == Body([])
  {
    assert ToBigEndian4(1) == [0, 0, 0, 1];
    assert [0, 0, 0, 1] + [65 as byte] == [0, 0, 0, 1, 65];
    var segs: Segments := [[0, 0, 0], [1, 65]];
    assert Recv(segs, 4) == ([0, 0, 0], [[1, 65]]);
    FromBigEndian4(0, 0, 0, 0);
  }
}
