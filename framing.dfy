/** The wire format between the extension side and the native host: each
    frame is a 4-byte little-endian unsigned payload length followed by that
    many payload bytes, with no delimiter between frames. This module holds
    the pure definition of the decoding loop of `NativeHostClient.handleData`
    and the encoder `LE32(|p|) ++ p` that states its round trip. */
module Framing {

  type byte = b: int | 0 <= b < 256

  /** Bytes taken by the length prefix. */
  const HeaderSize: nat := 4

  /** One more than the largest length a 32-bit prefix can declare. */
  const LengthBound: nat := 0x1_0000_0000

  /** Every payload's length fits the prefix. */
  predicate AllFit(ps: seq<seq<byte>>)
  {
    ps == [] || (|ps[0]| < LengthBound && AllFit(ps[1..]))
  }

  /** `buffer.readUInt32LE(0)`. */
  function ReadUInt32LE(b: seq<byte>): (n: nat)
    requires |b| >= HeaderSize
    ensures n < LengthBound
  {
    (b[0] as int) + 256 * ((b[1] as int) + 256 * ((b[2] as int) + 256 * (b[3] as int)))
  }

  /** The four little-endian bytes of `n`; reading them back gives `n`. */
  function UInt32LE(n: nat): (b: seq<byte>)
    requires n < LengthBound
    ensures |b| == HeaderSize && ReadUInt32LE(b) == n
  {
    var q1 := n / 256;
    var q2 := q1 / 256;
    var q3 := q2 / 256;
    [n % 256, q1 % 256, q2 % 256, q3]
  }

  /** Reading a prefix and writing the length back reproduces the prefix. */
  lemma UInt32LEOfRead(b: seq<byte>)
    requires |b| == HeaderSize
    ensures UInt32LE(ReadUInt32LE(b)) == b
  {
    var x2 := (b[2] as int) + 256 * (b[3] as int);
    var x1 := (b[1] as int) + 256 * x2;
    var n := (b[0] as int) + 256 * x1;
    assert ReadUInt32LE(b) == n;
    DigitOfBase256(b[0], x1);
    DigitOfBase256(b[1], x2);
    DigitOfBase256(b[2], b[3]);
  }

  /** The lowest base-256 digit and the rest of a number. */
  lemma DigitOfBase256(low: int, high: int)
    requires 0 <= low < 256
    ensures (low + 256 * high) % 256 == low
    ensures (low + 256 * high) / 256 == high
  {
  }

  /** One frame: the little-endian length of `p` followed by `p`. */
  function Encode(p: seq<byte>): (f: seq<byte>)
    requires |p| < LengthBound
    ensures |f| == HeaderSize + |p| && f[HeaderSize..] == p && ReadUInt32LE(f) == |p|
  {
    UInt32LE(|p|) + p
  }

  /** The frames of `ps`, one after another. */
  function EncodeAll(ps: seq<seq<byte>>): seq<byte>
    requires AllFit(ps)
  {
    if ps == [] then [] else Encode(ps[0]) + EncodeAll(ps[1..])
  }

  /** The buffer holds a complete frame: at least 4 + LE32(buffer[0..4]) bytes. */
  predicate HasFrame(buffer: seq<byte>)
  {
    |buffer| >= HeaderSize && |buffer| >= HeaderSize + ReadUInt32LE(buffer)
  }

  /** What the loop of `handleData` does to a buffer: the payloads it cuts out,
      in order, and the bytes it keeps. Nothing is cut from a buffer without a
      complete frame, and the kept bytes hold no complete frame. */
  function Frames(buffer: seq<byte>): (r: (seq<seq<byte>>, seq<byte>))
    ensures r.0 == [] <==> !HasFrame(buffer)
    ensures !HasFrame(r.1)
    decreases |buffer|
  {
    if HasFrame(buffer) then
      var n := ReadUInt32LE(buffer);
      var rest := Frames(buffer[HeaderSize + n..]);
      ([buffer[HeaderSize..HeaderSize + n]] + rest.0, rest.1)
    else
      ([], buffer)
  }

  /** The buffer is exactly the frames of the delivered payloads followed by
      the kept bytes: each consumed frame took 4 + its length bytes off the
      front, in order, and the remainder was kept. */
  lemma {:induction false} FramesDecompose(buffer: seq<byte>)
    ensures AllFit(Frames(buffer).0)
    ensures EncodeAll(Frames(buffer).0) + Frames(buffer).1 == buffer
    decreases |buffer|
  {
    if HasFrame(buffer) {
      var n := ReadUInt32LE(buffer);
      var tail := buffer[HeaderSize + n..];
      FramesDecompose(tail);
      FrameAtFront(buffer);
      var ps := Frames(tail).0;
      var p := buffer[HeaderSize..HeaderSize + n];
      assert Frames(buffer).0 == [p] + ps;
      assert ([p] + ps)[1..] == ps;
      assert EncodeAll([p] + ps) == Encode(p) + EncodeAll(ps);
    }
  }

  /** A buffer with a complete frame starts with the encoding of that frame's
      payload. */
  lemma FrameAtFront(buffer: seq<byte>)
    requires HasFrame(buffer)
    ensures var n := ReadUInt32LE(buffer);
      Encode(buffer[HeaderSize..HeaderSize + n]) + buffer[HeaderSize + n..] == buffer
  {
    var n := ReadUInt32LE(buffer);
    UInt32LEOfRead(buffer[..HeaderSize]);
    assert UInt32LE(n) == buffer[..HeaderSize];
  }

  /** Round trip: a frame followed by any bytes yields its payload first, and
      then whatever the following bytes yield. */
  lemma FramesOfEncoded(p: seq<byte>, rest: seq<byte>)
    requires |p| < LengthBound
    ensures Frames(Encode(p) + rest) == ([p] + Frames(rest).0, Frames(rest).1)
  {
    var b := Encode(p) + rest;
    assert HasFrame(b);
    assert b[HeaderSize..HeaderSize + |p|] == p;
    assert b[HeaderSize + |p|..] == rest;
  }

  /** Round trip of a single frame: exactly `p` is delivered once, nothing is kept. */
  lemma FramesOfOneFrame(p: seq<byte>)
    requires |p| < LengthBound
    ensures Frames(Encode(p)) == ([p], [])
  {
    FramesOfEncoded(p, []);
    assert Encode(p) + [] == Encode(p);
    assert Frames([]) == ([], []);
    assert [p] + [] == [p];
  }

  /** The length prefix is read from the first four bytes only. */
  lemma ReadUInt32LEPrefix(a: seq<byte>, b: seq<byte>)
    requires |a| >= HeaderSize
    ensures ReadUInt32LE(a + b) == ReadUInt32LE(a)
  {
    assert (a + b)[0] == a[0] && (a + b)[1] == a[1] && (a + b)[2] == a[2] && (a + b)[3] == a[3];
  }

  /** One turn of the loop: with a complete frame at the front, its payload is
      delivered first and the loop goes on with the bytes after it. */
  lemma FramesUnfold(buffer: seq<byte>)
    requires HasFrame(buffer)
    ensures var n := ReadUInt32LE(buffer);
      var rest := Frames(buffer[HeaderSize + n..]);
      Frames(buffer) == ([buffer[HeaderSize..HeaderSize + n]] + rest.0, rest.1)
  {
  }

  /** Extending a buffer that has a complete frame at the front leaves that
      frame first: the extended buffer yields the same payload, then whatever
      the bytes after it, extended, yield. */
  lemma FramesExtendFront(a: seq<byte>, b: seq<byte>)
    requires HasFrame(a)
    ensures var n := ReadUInt32LE(a);
      Frames(a + b) == ([a[HeaderSize..HeaderSize + n]] + Frames(a[HeaderSize + n..] + b).0,
                        Frames(a[HeaderSize + n..] + b).1)
  {
    var n := ReadUInt32LE(a);
    ReadUInt32LEPrefix(a, b);
    assert (a + b)[HeaderSize..HeaderSize + n] == a[HeaderSize..HeaderSize + n];
    assert (a + b)[HeaderSize + n..] == a[HeaderSize + n..] + b;
    FramesUnfold(a + b);
  }

  lemma AppendAssociates<T>(a: seq<T>, b: seq<T>, c: seq<T>)
    ensures a + (b + c) == a + b + c
  {
  }

  /** Chunking invariance: cutting frames out of `a` and then out of the kept
      bytes extended by `b` delivers the same payloads, and keeps the same
      bytes, as cutting frames out of `a + b` in one go. */
  lemma {:induction false} FramesAppend(a: seq<byte>, b: seq<byte>)
    ensures Frames(a + b).0 == Frames(a).0 + Frames(Frames(a).1 + b).0
    ensures Frames(a + b).1 == Frames(Frames(a).1 + b).1
    decreases |a|
  {
    if HasFrame(a) {
      var n := ReadUInt32LE(a);
      var p := a[HeaderSize..HeaderSize + n];
      var tail := a[HeaderSize + n..];
      var ps, kept := Frames(tail).0, Frames(tail).1;
      var more, left := Frames(kept + b).0, Frames(kept + b).1;
      assert Frames(a) == ([p] + ps, kept) by {
        FramesUnfold(a);
      }
      assert Frames(tail + b) == (ps + more, left) by {
        FramesAppend(tail, b);
      }
      assert Frames(a + b) == ([p] + (ps + more), left) by {
        FramesExtendFront(a, b);
      }
      AppendAssociates([p], ps, more);
    } else {
      assert Frames(a) == ([], a);
      assert [] + Frames(a + b).0 == Frames(a + b).0;
    }
  }
}
