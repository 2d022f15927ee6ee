/** Translation between offsets and addresses in the current mapping. */
module Offsets {
  import opened ShelfTypes

  /** The address of `offset` in a mapping that starts at `base`. */
  function OffsetToPtr(base: Addr, offset: Offset): (p: Addr)
    ensures p >= base && p - base == offset
  {
    base + offset
  }

  /** Pointer to offset as zone_shelf_heap.cc writes it: the distance from the zone
      object `zoneAt` rather than from the mapping, past the check that the pointer lies
      above the zone object. The zone's validity assert on the result, which follows, is
      left to the caller (ShelfHeap.PtrToOffset requires it). */
  function PtrToOffsetAsWritten(a: Addr, zoneAt: Ptr): (o: Option<Offset>)
    ensures o.Some? <==> a > zoneAt
    ensures o.Some? ==> o.value > 0 && o.value + zoneAt == a
  {
    if a > zoneAt then Some(a - zoneAt) else None
  }

  /** Unless the zone object happens to sit at the start of the mapping, the translation
      as written never gives back the offset a pointer was made from. */
  lemma AsWrittenMissesRoundTrip(base: Ptr, zoneAt: Ptr, offset: Offset)
    requires zoneAt != base
    ensures PtrToOffsetAsWritten(OffsetToPtr(base, offset), zoneAt) != Some(offset)
  {
  }

  /** A concrete instance: a mapping at 0x10000, a zone object at 0x2000, offset 128. */
  lemma AsWrittenCounterexample()
    ensures OffsetToPtr(0x10000, 128) == 0x10080
    ensures PtrToOffsetAsWritten(0x10080, 0x2000) == Some(0xE080)
  {
  }

  /** The as-written check on the pointer lets through the first pointer past the end of
      a mapping of `size` bytes, which the intended translation refuses; only the zone's
      validity assert on the result stands in its way. */
  lemma AsWrittenGuardPassesPastEnd(base: Ptr, size: nat, zoneAt: Ptr)
    requires zoneAt < base
    ensures PtrToOffsetAsWritten(base + size, zoneAt).Some?
    ensures PtrToOffset(base + size, base, size) == None
  {
  }

  /** Pointer to offset as intended: the distance from the start of the mapping, for
      pointers inside the `size` mapped bytes only. */
  function PtrToOffset(a: Addr, base: Ptr, size: nat): (o: Option<Offset>)
    ensures o.Some? <==> base <= a < base + size
    ensures o.Some? ==> o.value < size && OffsetToPtr(base, o.value) == a
  {
    if base <= a < base + size then Some(a - base) else None
  }

  /** Offsets inside the mapping survive the trip through a pointer. */
  lemma OffsetRoundTrip(base: Ptr, size: nat, offset: Offset)
    requires offset < size
    ensures PtrToOffset(OffsetToPtr(base, offset), base, size) == Some(offset)
  {
  }

  /** Pointers inside the mapping survive the trip through an offset. */
  lemma PtrRoundTrip(a: Addr, base: Ptr, size: nat)
    requires PtrToOffset(a, base, size).Some?
    ensures OffsetToPtr(base, PtrToOffset(a, base, size).value) == a
  {
  }
}
