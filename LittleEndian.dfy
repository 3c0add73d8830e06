/** The byte-level writes that a JavaScript DataView performs in little-endian
    mode (setUint8, setUint16, setInt16, setUint32) over an array of bytes,
    together with the decoders that read the same fields back. */
module LittleEndian {

  type byte = x: int | 0 <= x < 256

  const Two16: int := 0x1_0000
  const Two32: int := 0x1_0000_0000

  /** The bytes setUint16 stores: its value reduced modulo 2^16 (ECMAScript's
      ToUint16), low byte first. setInt16 stores the same bytes. */
  function Uint16Bytes(v: int): (b: seq<byte>)
    ensures |b| == 2
  {
    var w := v % Two16;
    [w % 256, w / 256]
  }

  /** The bytes setUint32 stores: its value reduced modulo 2^32 (ToUint32),
      least significant byte first. */
  function Uint32Bytes(v: int): (b: seq<byte>)
    ensures |b| == 4
  {
    var w := v % Two32;
    [w % 256, (w / 256) % 256, (w / 0x1_0000) % 256, w / 0x100_0000]
  }

  function DecodeUint16(b: seq<byte>): (v: int)
    requires |b| == 2
    ensures 0 <= v < Two16
  {
    b[0] as int + 256 * (b[1] as int)
  }

  /** Reads two bytes as a 16-bit two's complement number (getInt16). */
  function DecodeInt16(b: seq<byte>): (v: int)
    requires |b| == 2
    ensures -0x8000 <= v < 0x8000
    ensures (v - DecodeUint16(b)) % Two16 == 0
  {
    var u := DecodeUint16(b);
    if u < 0x8000 then u else u - Two16
  }

  function DecodeUint32(b: seq<byte>): (v: int)
    requires |b| == 4
    ensures 0 <= v < Two32
  {
    b[0] as int + 256 * (b[1] as int) + 0x1_0000 * (b[2] as int) + 0x100_0000 * (b[3] as int)
  }

  /** The array `s` after the bytes `b` have been stored from `offset` on. */
  function Overwrite(s: seq<byte>, offset: nat, b: seq<byte>): (r: seq<byte>)
    requires offset + |b| <= |s|
    ensures |r| == |s|
    ensures forall k :: 0 <= k < |s| ==>
              r[k] == if offset <= k < offset + |b| then b[k - offset] else s[k]
  {
    s[..offset] + b + s[offset + |b|..]
  }

  lemma Uint16RoundTrip(v: int)
    ensures DecodeUint16(Uint16Bytes(v)) == v % Two16
  {
  }

  /** Decoding with getInt16 what setInt16 stored recovers every 16-bit value. */
  lemma Int16RoundTrip(v: int)
    requires -0x8000 <= v < 0x8000
    ensures DecodeInt16(Uint16Bytes(v)) == v
  {
    Uint16RoundTrip(v);
  }

  lemma Uint32RoundTrip(v: int)
    ensures DecodeUint32(Uint32Bytes(v)) == v % Two32
  {
    var w := v % Two32;
    var b := Uint32Bytes(v);
    var q1 := w / 256;
    var q2 := q1 / 256;
    assert w / 0x1_0000 == q2;
    assert w / 0x100_0000 == q2 / 256;
    assert w == b[0] as int + 256 * q1;
    assert q1 == b[1] as int + 256 * q2;
    assert q2 == b[2] as int + 256 * (b[3] as int);
  }

  /** Every pair of bytes is what setUint16 stores for the value read back. */
  lemma Uint16Onto(b: seq<byte>)
    requires |b| == 2
    ensures Uint16Bytes(DecodeUint16(b)) == b
  {
    var w := DecodeUint16(b);
    DivideBy(w, 256, b[1], b[0]);
    assert w % Two16 == w;
  }

  /** Every four bytes are what setUint32 stores for the value read back. */
  lemma Uint32Onto(b: seq<byte>)
    requires |b| == 4
    ensures Uint32Bytes(DecodeUint32(b)) == b
  {
    var w := DecodeUint32(b);
    var q1: int := b[1] as int + 256 * (b[2] as int) + 0x1_0000 * (b[3] as int);
    var q2: int := b[2] as int + 256 * (b[3] as int);
    DivideBy(w, 256, q1, b[0]);
    DivideBy(w, 0x1_0000, q2, b[0] as int + 256 * (b[1] as int));
    DivideBy(w, 0x100_0000, b[3], w - 0x100_0000 * (b[3] as int));
    DivideBy(q1, 256, q2, b[1]);
    DivideBy(q2, 256, b[3], b[2]);
    assert w % Two32 == w;
  }

  /** Euclidean division has exactly one quotient and remainder. */
  lemma DivideBy(x: int, d: int, q: int, r: int)
    requires 0 < d && 0 <= r < d && x == d * q + r
    ensures x / d == q && x % d == r
  {
    var q', r' := x / d, x % d;
    assert d * q' + r' == x;
    if q' != q {
      var k := if q' < q then q - q' else q' - q;
      AtLeastOnce(d, k);
    }
  }

  lemma {:induction false} AtLeastOnce(d: int, k: int)
    requires 0 < d && 1 <= k
    ensures d * k >= d
  {
    if k > 1 {
      AtLeastOnce(d, k - 1);
      assert d * k == d * (k - 1) + d;
    }
  }

  method SetUint8(view: array<byte>, offset: nat, v: int)
    requires offset < view.Length
    modifies view
    ensures view[..] == Overwrite(old(view[..]), offset, [v % 256])
  {
    view[offset] := v % 256;
  }

  method SetUint16(view: array<byte>, offset: nat, v: int)
    requires offset + 2 <= view.Length
    modifies view
    ensures view[..] == Overwrite(old(view[..]), offset, Uint16Bytes(v))
  {
    var b := Uint16Bytes(v);
    view[offset] := b[0];
    view[offset + 1] := b[1];
  }

  /** setInt16 stores the 16-bit two's complement pattern of its value,
      which is the pattern setUint16 stores for it. */
  method SetInt16(view: array<byte>, offset: nat, v: int)
    requires offset + 2 <= view.Length
    modifies view
    ensures view[..] == Overwrite(old(view[..]), offset, Uint16Bytes(v))
  {
    SetUint16(view, offset, v);
  }

  method SetUint32(view: array<byte>, offset: nat, v: int)
    requires offset + 4 <= view.Length
    modifies view
    ensures view[..] == Overwrite(old(view[..]), offset, Uint32Bytes(v))
  {
    var b := Uint32Bytes(v);
    view[offset] := b[0];
    view[offset + 1] := b[1];
    view[offset + 2] := b[2];
    view[offset + 3] := b[3];
  }
}
