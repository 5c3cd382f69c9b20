/** The browser-compatible Buffer writers of the instruction builders
    (`writeBigUInt64LE`, `writeUInt32LE`, `writeUInt8`). They store bytes
    into a typed array one index at a time; a store at an index outside the
    array is silently dropped, as typed arrays do. The hook keeps identical
    copies of the first two. */
module BufferWriters {
  import opened Wire

  /** The array after storing `bytes` from `offset` on, dropping stores past the end. */
  ghost predicate StoredAt(a: seq<Byte>, before: seq<Byte>, offset: nat, bytes: seq<Byte>)
  {
    && |a| == |before|
    && forall j :: 0 <= j < |a| ==>
         a[j] == (if offset <= j < offset + |bytes| then bytes[j - offset] else before[j])
  }

  /** `writeBigUInt64LE`: byte i of the value (its two's complement bits, so
      the value is taken modulo 2^64) goes to offset + i. */
  method WriteBigUInt64LE(buffer: array<Byte>, value: int, offset: nat)
    modifies buffer
    ensures StoredAt(buffer[..], old(buffer[..]), offset, LeBytes(value, 8))
  {
    ghost var before := buffer[..];
    for i := 0 to 8
      invariant StoredAt(buffer[..], before, offset, LeBytes(value, i))
    {
      if offset + i < buffer.Length {
        buffer[offset + i] := ByteAt(value, i);
      }
    }
  }

  /** `writeUInt32LE`: the four low bytes of the (int32) value. */
  method WriteUInt32LE(buffer: array<Byte>, value: int, offset: nat)
    modifies buffer
    ensures StoredAt(buffer[..], old(buffer[..]), offset, LeBytes(value, 4))
  {
    ghost var before := buffer[..];
    if offset < buffer.Length { buffer[offset] := ByteAt(value, 0); }
    if offset + 1 < buffer.Length { buffer[offset + 1] := ByteAt(value, 1); }
    if offset + 2 < buffer.Length { buffer[offset + 2] := ByteAt(value, 2); }
    if offset + 3 < buffer.Length { buffer[offset + 3] := ByteAt(value, 3); }
  }

  /** `writeUInt8`: `value & 0xff` at a single offset. */
  method WriteUInt8(buffer: array<Byte>, value: int, offset: nat)
    modifies buffer
    ensures StoredAt(buffer[..], old(buffer[..]), offset, [value % 256])
  {
    if offset < buffer.Length {
      buffer[offset] := value % 256;
    }
  }

  /** A store that fits inside the array puts exactly `bytes` at `offset`. */
  lemma StoredSlice(a: seq<Byte>, before: seq<Byte>, offset: nat, bytes: seq<Byte>)
    requires StoredAt(a, before, offset, bytes)
    requires offset + |bytes| <= |a|
    ensures a[offset..offset + |bytes|] == bytes
    ensures a[..offset] == before[..offset]
    ensures a[offset + |bytes|..] == before[offset + |bytes|..]
  {
  }
}
