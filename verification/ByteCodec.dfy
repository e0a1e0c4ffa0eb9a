/** Fixed-width little-endian integers and slices of byte records. */
module ByteCodec {

  type Byte = x: int | 0 <= x < 256

  type Bytes = seq<Byte>

  /** One more than the largest value of `width` bytes. */
  function Span(width: nat): nat {
    if width == 0 then 1 else 256 * Span(width - 1)
  }

  function Le(value: nat, width: nat): (bytes: Bytes)
    ensures |bytes| == width
  {
    if width == 0 then [] else [value % 256] + Le(value / 256, width - 1)
  }

  function FromLe(bytes: Bytes): nat {
    if bytes == [] then 0 else bytes[0] + 256 * FromLe(bytes[1..])
  }

  /** The little-endian field at an offset. */
  function Field(bytes: Bytes, offset: nat, width: nat): nat
    requires offset + width <= |bytes|
  {
    FromLe(bytes[offset..offset + width])
  }

  lemma {:induction false} ReadsBack(value: nat, width: nat)
    requires value < Span(width)
    ensures FromLe(Le(value, width)) == value
  {
    if width > 0 {
      ReadsBack(value / 256, width - 1);
      assert Le(value, width)[1..] == Le(value / 256, width - 1);
    }
  }

  lemma {:induction false} WritesBack(bytes: Bytes)
    ensures FromLe(bytes) < Span(|bytes|) && Le(FromLe(bytes), |bytes|) == bytes
  {
    if bytes != [] {
      var tail := bytes[1..];
      WritesBack(tail);
      Prepends(bytes[0], tail);
      assert bytes == [bytes[0]] + tail;
    }
  }

  /** A byte in front is the low byte of the number. */
  lemma Prepends(low: Byte, tail: Bytes)
    requires FromLe(tail) < Span(|tail|) && Le(FromLe(tail), |tail|) == tail
    ensures var bytes := [low] + tail; FromLe(bytes) < Span(|bytes|) && Le(FromLe(bytes), |bytes|) == bytes
  {
    var bytes := [low] + tail;
    assert bytes[1..] == tail;
    assert FromLe(bytes) == low + 256 * FromLe(tail) && Span(|bytes|) == 256 * Span(|tail|);
    LowByte(low, FromLe(tail));
    hide FromLe, Span;
    assert Le(FromLe(bytes), |bytes|) == [low] + Le(FromLe(tail), |tail|);
  }

  /** A field holds its own encoding. */
  lemma FieldBack(bytes: Bytes, offset: nat, width: nat)
    requires offset + width <= |bytes|
    ensures Field(bytes, offset, width) < Span(width)
    ensures Le(Field(bytes, offset, width), width) == bytes[offset..offset + width]
  {
    WritesBack(bytes[offset..offset + width]);
  }

  lemma LowByte(low: nat, rest: nat)
    requires low < 256
    ensures (low + 256 * rest) % 256 == low && (low + 256 * rest) / 256 == rest
  {
  }

  lemma Spans()
    ensures Span(2) == 0x1_0000 && Span(4) == 0x1_0000_0000 && Span(8) == 0x1_0000_0000_0000_0000
  {
    assert Span(1) == 256 && Span(2) == 0x1_0000 && Span(3) == 0x100_0000 && Span(4) == 0x1_0000_0000;
    assert Span(5) == 0x100_0000_0000 && Span(6) == 0x1_0000_0000_0000 && Span(7) == 0x100_0000_0000_0000;
  }

  /** A field that follows `before` at the front of `whole`. */
  lemma Piece(before: Bytes, field: Bytes, whole: Bytes)
    requires before + field <= whole
    ensures whole[..|before|] == before && whole[|before|..|before| + |field|] == field
  {
    var both := before + field;
    assert both == whole[..|both|];
    assert both[|before|..] == field;
  }

  /** `append_le`: pushes the low byte and shifts, once per byte of the width. */
  method AppendLe(bytes: Bytes, value: nat, width: nat) returns (out: Bytes)
    ensures out == bytes + Le(value, width)
  {
    out := bytes;
    var current := value;
    for i := 0 to width
      invariant out + Le(current, width - i) == bytes + Le(value, width)
    {
      ghost var rest := Le(current / 256, width - i - 1);
      assert out + ([current % 256] + rest) == (out + [current % 256]) + rest;
      out := out + [current % 256];
      current := current / 256;
    }
  }

  /** `read_le`: adds each byte at its place. `None` is the bounds failure. */
  method ReadLe(bytes: Bytes, offset: nat, width: nat) returns (value: nat, ok: bool)
    ensures ok <==> offset + width <= |bytes|
    ensures ok ==> value == FromLe(bytes[offset..offset + width])
  {
    if offset > |bytes| || width > |bytes| - offset { return 0, false; }
    value := 0;
    var i := width;
    while i > 0
      invariant 0 <= i <= width
      invariant value == FromLe(bytes[offset + i..offset + width])
    {
      i := i - 1;
      assert bytes[offset + i..offset + width][1..] == bytes[offset + i + 1..offset + width];
      value := bytes[offset + i] + 256 * value;
    }
    return value, true;
  }
}
