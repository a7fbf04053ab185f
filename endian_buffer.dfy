/** Fixed-width unsigned integers read from and written into a byte buffer at an
    offset, in little- or big-endian order, independently of the host's order.
    The pure functions describe the bytes; the class `EndianBufferView` is the
    view over a caller's buffer, whose writes change that buffer in place. */
module EndianBuffer {

  import opened DivMod

  newtype u8 = x: int | 0 <= x < 256

  datatype Endianness = LE | BE

  /** Field widths, in bytes, of the three accessors. */
  const U16: nat := 2
  const U32: nat := 4
  const U64: nat := 8

  /** The number of distinct values a field of `width` bytes can hold. */
  function Pow256(width: nat): (r: nat)
    ensures r > 0
  {
    if width == 0 then 1 else 256 * Pow256(width - 1)
  }

  /** Bytes of `value` mod 256^width, least significant byte first. */
  function LeBytes(value: nat, width: nat): (r: seq<u8>)
    ensures |r| == width
  {
    if width == 0 then [] else [(value % 256) as u8] + LeBytes(value / 256, width - 1)
  }

  /** Bytes of `value` mod 256^width, most significant byte first. */
  function BeBytes(value: nat, width: nat): (r: seq<u8>)
    ensures |r| == width
  {
    if width == 0 then [] else BeBytes(value / 256, width - 1) + [(value % 256) as u8]
  }

  /** The number whose least significant byte comes first in `bytes`. */
  function LeValue(bytes: seq<u8>): (v: nat)
    ensures v < Pow256(|bytes|)
  {
    if bytes == [] then 0
    else
      var rest := LeValue(bytes[1..]);
      assert rest <= Pow256(|bytes| - 1) - 1;
      bytes[0] as nat + 256 * rest
  }

  /** The number whose most significant byte comes first in `bytes`. */
  function BeValue(bytes: seq<u8>): (v: nat)
    ensures v < Pow256(|bytes|)
  {
    if bytes == [] then 0
    else
      var rest := BeValue(bytes[..|bytes| - 1]);
      assert rest <= Pow256(|bytes| - 1) - 1;
      256 * rest + bytes[|bytes| - 1] as nat
  }

  function Reverse(s: seq<u8>): (r: seq<u8>)
    ensures |r| == |s|
  {
    if s == [] then [] else Reverse(s[1..]) + [s[0]]
  }

  /** The bytes a field of `width` bytes holding `value` has in byte order `order`. */
  function Encode(order: Endianness, value: nat, width: nat): (r: seq<u8>)
    ensures |r| == width
  {
    match order
    case LE => LeBytes(value, width)
    case BE => BeBytes(value, width)
  }

  /** The value a field holding `bytes` has in byte order `order`. */
  function Decode(order: Endianness, bytes: seq<u8>): (v: nat)
    ensures v < Pow256(|bytes|)
  {
    match order
    case LE => LeValue(bytes)
    case BE => BeValue(bytes)
  }

  /** The value of the `width`-byte field at `offset`; an access past the end of
      the buffer is a range error in the source, here a precondition. */
  function Read(order: Endianness, bytes: seq<u8>, offset: nat, width: nat): (v: nat)
    requires offset + width <= |bytes|
    ensures v < Pow256(width)
    ensures Encode(order, v, width) == bytes[offset..offset + width]
  {
    DecodeEncode(order, bytes[offset..offset + width]);
    Decode(order, bytes[offset..offset + width])
  }

  /** `bytes` after storing `value` in the `width`-byte field at `offset`. The
      value is truncated to the field's width first, as a DataView does. */
  function Write(order: Endianness, bytes: seq<u8>, offset: nat, width: nat, value: int): (r: seq<u8>)
    requires offset + width <= |bytes|
    ensures |r| == |bytes|
    ensures r[offset..offset + width] == Encode(order, value % Pow256(width), width)
    ensures forall i :: 0 <= i < |bytes| && !(offset <= i < offset + width) ==> r[i] == bytes[i]
  {
    bytes[..offset] + Encode(order, value % Pow256(width), width) + bytes[offset + width..]
  }

  /** Splitting a number into its low byte and the rest commutes with reducing
      it modulo 256 * p. */
  lemma DivModStep(v: nat, p: nat)
    requires p > 0
    ensures v % (256 * p) == v % 256 + 256 * ((v / 256) % p)
  {
    var q, r := v / 256, v % 256;
    var q2, r2 := q / p, q % p;
    assert v == 256 * q + r;
    assert q == p * q2 + r2;
    assert v == (256 * p) * q2 + (256 * r2 + r) by {
      calc {
        v;
        256 * (p * q2 + r2) + r;
        (256 * p) * q2 + (256 * r2 + r);
      }
    }
    assert 256 * r2 + r < 256 * p by {
      assert r2 <= p - 1;
      assert 256 * r2 <= 256 * (p - 1);
    }
    ModUnique(v, 256 * p, q2, 256 * r2 + r);
  }

  /** Reading back little-endian bytes gives the value modulo the field size. */
  lemma {:induction false} LeRoundTrip(value: nat, width: nat)
    ensures LeValue(LeBytes(value, width)) == value % Pow256(width)
  {
    if width > 0 {
      var bytes := LeBytes(value, width);
      assert bytes[1..] == LeBytes(value / 256, width - 1);
      LeRoundTrip(value / 256, width - 1);
      DivModStep(value, Pow256(width - 1));
    }
  }

  /** Reading back big-endian bytes gives the value modulo the field size. */
  lemma {:induction false} BeRoundTrip(value: nat, width: nat)
    ensures BeValue(BeBytes(value, width)) == value % Pow256(width)
  {
    if width > 0 {
      var bytes := BeBytes(value, width);
      assert bytes[..width - 1] == BeBytes(value / 256, width - 1);
      BeRoundTrip(value / 256, width - 1);
      DivModStep(value, Pow256(width - 1));
    }
  }

  /** Re-encoding a little-endian value reproduces its bytes. */
  lemma {:induction false} LeBytesOfValue(bytes: seq<u8>)
    ensures LeBytes(LeValue(bytes), |bytes|) == bytes
  {
    if bytes != [] {
      var v, rest := LeValue(bytes), LeValue(bytes[1..]);
      ModUnique(v, 256, rest, bytes[0] as int);
      LeBytesOfValue(bytes[1..]);
      assert bytes == [bytes[0]] + bytes[1..];
    }
  }

  /** Re-encoding a big-endian value reproduces its bytes. */
  lemma {:induction false} BeBytesOfValue(bytes: seq<u8>)
    ensures BeBytes(BeValue(bytes), |bytes|) == bytes
  {
    if bytes != [] {
      var n := |bytes|;
      var v, rest := BeValue(bytes), BeValue(bytes[..n - 1]);
      ModUnique(v, 256, rest, bytes[n - 1] as int);
      BeBytesOfValue(bytes[..n - 1]);
      assert bytes == bytes[..n - 1] + [bytes[n - 1]];
    }
  }

  /** Decoding inverts encoding for every value that fits the field. */
  lemma EncodeDecode(order: Endianness, value: nat, width: nat)
    requires value < Pow256(width)
    ensures Decode(order, Encode(order, value, width)) == value
  {
    ModUnique(value, Pow256(width), 0, value);
    match order
    case LE => LeRoundTrip(value, width);
    case BE => BeRoundTrip(value, width);
  }

  /** Encoding inverts decoding: every byte pattern is the encoding of its value. */
  lemma DecodeEncode(order: Endianness, bytes: seq<u8>)
    ensures Encode(order, Decode(order, bytes), |bytes|) == bytes
  {
    match order
    case LE => LeBytesOfValue(bytes);
    case BE => BeBytesOfValue(bytes);
  }

  /** The big-endian encoding of a value is its little-endian encoding reversed. */
  lemma {:induction false} BigEndianIsReversedLittleEndian(value: nat, width: nat)
    ensures Encode(BE, value, width) == Reverse(Encode(LE, value, width))
  {
    if width > 0 {
      var le := LeBytes(value, width);
      assert le[1..] == LeBytes(value / 256, width - 1);
      BigEndianIsReversedLittleEndian(value / 256, width - 1);
    }
  }

  /** A read of the field just written returns the written value, truncated to the field. */
  lemma ReadAfterWrite(order: Endianness, bytes: seq<u8>, offset: nat, width: nat, value: int)
    requires offset + width <= |bytes|
    ensures Read(order, Write(order, bytes, offset, width, value), offset, width) == value % Pow256(width)
  {
    EncodeDecode(order, value % Pow256(width), width);
  }

  /** A read of a field that does not overlap the one written sees the old bytes. */
  lemma ReadAfterDisjointWrite(order: Endianness, bytes: seq<u8>, offset: nat, width: nat, value: int,
                               at: nat, atWidth: nat)
    requires offset + width <= |bytes| && at + atWidth <= |bytes|
    requires at + atWidth <= offset || offset + width <= at
    ensures Read(order, Write(order, bytes, offset, width, value), at, atWidth) == Read(order, bytes, at, atWidth)
  {
    var after := Write(order, bytes, offset, width, value);
    assert after[at..at + atWidth] == bytes[at..at + atWidth];
  }

  /** Little-endian puts the low byte first: the u64 64 is 64,0,0,0,0,0,0,0. */
  lemma LittleEndianU64Example()
    ensures Encode(LE, 64, U64) == [64, 0, 0, 0, 0, 0, 0, 0]
  {
    assert LeBytes(0, 1) == [0];
    assert LeBytes(0, 2) == [0, 0];
    assert LeBytes(0, 4) == [0, 0, 0, 0];
    assert LeBytes(0, 7) == [0, 0, 0, 0, 0, 0, 0];
  }

  /** Big-endian puts the high byte first: the u32 0x1234 is 0,0,18,52. */
  lemma BigEndianU32Example()
    ensures Encode(BE, 0x1234, U32) == [0, 0, 18, 52]
  {
    assert BeBytes(0, 1) == [0];
    assert BeBytes(0, 2) == [0, 0];
    assert BeBytes(0x12, 3) == [0, 0, 18];
  }

  /** A byte-order-aware view over a caller's buffer. The byte order is fixed
      when the view is created and used by every access. */
  class EndianBufferView {
    const buffer: array<u8>
    const order: Endianness

    constructor (buffer: array<u8>, order: Endianness)
      ensures this.buffer == buffer && this.order == order
    {
      this.buffer := buffer;
      this.order := order;
    }

    /** The u16 at `offset`: the value whose encoding is the two bytes there. */
    function ReadU16(offset: nat): (v: nat)
      reads buffer
      requires offset + U16 <= buffer.Length
      ensures v < Pow256(U16) && Encode(order, v, U16) == buffer[offset..offset + U16]
    {
      Read(order, buffer[..], offset, U16)
    }

    /** The u32 at `offset`: the value whose encoding is the four bytes there. */
    function ReadU32(offset: nat): (v: nat)
      reads buffer
      requires offset + U32 <= buffer.Length
      ensures v < Pow256(U32) && Encode(order, v, U32) == buffer[offset..offset + U32]
    {
      Read(order, buffer[..], offset, U32)
    }

    /** The u64 at `offset`: the value whose encoding is the eight bytes there. */
    function ReadU64(offset: nat): (v: nat)
      reads buffer
      requires offset + U64 <= buffer.Length
      ensures v < Pow256(U64) && Encode(order, v, U64) == buffer[offset..offset + U64]
    {
      Read(order, buffer[..], offset, U64)
    }

    method WriteU16(offset: nat, value: int)
      requires offset + U16 <= buffer.Length
      modifies buffer
      ensures buffer[..] == Write(order, old(buffer[..]), offset, U16, value)
    {
      Store(offset, U16, value);
    }

    method WriteU32(offset: nat, value: int)
      requires offset + U32 <= buffer.Length
      modifies buffer
      ensures buffer[..] == Write(order, old(buffer[..]), offset, U32, value)
    {
      Store(offset, U32, value);
    }

    method WriteU64(offset: nat, value: int)
      requires offset + U64 <= buffer.Length
      modifies buffer
      ensures buffer[..] == Write(order, old(buffer[..]), offset, U64, value)
    {
      Store(offset, U64, value);
    }

    /** Stores the field's bytes one by one into the buffer. */
    method Store(offset: nat, width: nat, value: int)
      requires offset + width <= buffer.Length
      modifies buffer
      ensures buffer[..] == Write(order, old(buffer[..]), offset, width, value)
    {
      var field := Encode(order, value % Pow256(width), width);
      forall i | 0 <= i < width {
        buffer[offset + i] := field[i];
      }
      ghost var expected := Write(order, old(buffer[..]), offset, width, value);
      assert forall i :: offset <= i < offset + width ==> expected[i] == field[i - offset];
      assert buffer[..] == expected;
    }
  }

  /** A view in the host's byte order, which the caller determines once and passes in. */
  method HostEndianBufferViewFor(buffer: array<u8>, hostOrder: Endianness) returns (view: EndianBufferView)
    ensures fresh(view) && view.buffer == buffer && view.order == hostOrder
  {
    view := new EndianBufferView(buffer, hostOrder);
  }
}
