/** Node's own `Buffer` writers, as the supply client calls them
    (`buf.writeUInt8`, `buf.writeUInt32LE`, `buf.writeBigUInt64LE`). Unlike
    the byte-by-byte writers they check their arguments: a value outside the
    unsigned range of the width, or a field that does not fit in the buffer,
    throws a RangeError and leaves the buffer untouched. */
module NodeBuffer {
  import opened Wire
  import BufferWriters

  /** The checks Node applies before writing `width` bytes of `value` at `offset`. */
  predicate Writable(length: nat, value: int, offset: nat, width: nat)
  {
    0 <= value < Pow256(width) && offset + width <= length
  }

  /** Stores the `width`-byte little-endian value at `offset` after the range
      checks; `ok` is false exactly when Node would throw. */
  method WriteUIntLE(buffer: array<Byte>, value: int, offset: nat, width: nat) returns (ok: bool)
    modifies buffer
    ensures ok <==> Writable(buffer.Length, value, offset, width)
    ensures ok ==> buffer[..] == old(buffer[..offset]) + LeBytes(value, width) + old(buffer[offset + width..])
    ensures !ok ==> buffer[..] == old(buffer[..])
  {
    if !Writable(buffer.Length, value, offset, width) {
      return false;
    }
    ghost var before := buffer[..];
    for i := 0 to width
      invariant buffer[..] == before[..offset] + LeBytes(value, i) + before[offset + i..]
    {
      buffer[offset + i] := ByteAt(value, i);
      assert LeBytes(value, i + 1) == LeBytes(value, i) + [ByteAt(value, i)];
    }
    ok := true;
  }

  /** `buf.writeUInt8(value, offset)`. */
  method WriteUInt8(buffer: array<Byte>, value: int, offset: nat) returns (ok: bool)
    modifies buffer
    ensures ok <==> 0 <= value < 256 && offset < buffer.Length
    ensures ok ==> buffer[..] == old(buffer[..])[offset := value]
    ensures !ok ==> buffer[..] == old(buffer[..])
  {
    ok := WriteUIntLE(buffer, value, offset, 1);
    if ok {
      assert LeBytes(value, 1) == [value];
    }
  }

  /** `buf.writeUInt32LE(value, offset)`. */
  method WriteUInt32LE(buffer: array<Byte>, value: int, offset: nat) returns (ok: bool)
    modifies buffer
    ensures ok <==> 0 <= value < U32_LIMIT && offset + 4 <= buffer.Length
    ensures ok ==> buffer[..] == old(buffer[..offset]) + LeBytes(value, 4) + old(buffer[offset + 4..])
    ensures !ok ==> buffer[..] == old(buffer[..])
  {
    Pow256Eight();
    ok := WriteUIntLE(buffer, value, offset, 4);
  }

  /** `buf.writeBigUInt64LE(value, offset)`. */
  method WriteBigUInt64LE(buffer: array<Byte>, value: int, offset: nat) returns (ok: bool)
    modifies buffer
    ensures ok <==> 0 <= value < U64_LIMIT && offset + 8 <= buffer.Length
    ensures ok ==> buffer[..] == old(buffer[..offset]) + LeBytes(value, 8) + old(buffer[offset + 8..])
    ensures !ok ==> buffer[..] == old(buffer[..])
  {
    Pow256Eight();
    ok := WriteUIntLE(buffer, value, offset, 8);
  }

  /** Where Node accepts a write it stores what the unchecked byte-by-byte
      writer stores, and that value reads back unchanged. */
  lemma CheckedAgreesWithUnchecked(before: seq<Byte>, value: int, offset: nat, width: nat)
    requires Writable(|before|, value, offset, width)
    ensures BufferWriters.StoredAt(before[..offset] + LeBytes(value, width) + before[offset + width..],
                                   before, offset, LeBytes(value, width))
    ensures LeValue(LeBytes(value, width)) == value
  {
    LeRoundTripInRange(value, width);
  }
}
