/** The zone allocator the heap binds over a mapped shelf. Its layout and algorithm are
    not part of this model: a zone is known only by the arguments it was built from and
    by the set of offsets it currently reports as valid. */
module Zones {
  import opened ShelfTypes
  import Offsets

  /** What a zone reads from an already formatted arena when it attaches to it: the
      allocation granularity recorded there and the offsets recorded as allocated. */
  datatype Arena = Arena(granularity: nat, live: set<Offset>)

  class Zone {
    /** Where the zone object itself was allocated (not where the arena is). */
    const at: Ptr
    /** Start of the mapped arena the zone works on. */
    const base: Addr
    const size: nat
    const granularity: nat
    const helper: Addr
    const helperSize: nat
    /** The offsets the zone currently reports as allocated. */
    var live: set<Offset>

    /** Formats a fresh arena of `size` bytes with allocation unit `granularity`. */
    constructor Format(at: Ptr, base: Addr, size: nat, granularity: nat, maxSize: nat,
                       helper: Addr, helperSize: nat)
      ensures this.at == at && this.base == base && this.size == size
      ensures this.granularity == granularity
      ensures this.helper == helper && this.helperSize == helperSize
      ensures live == {}
    {
      this.at := at;
      this.base := base;
      this.size := size;
      this.granularity := granularity;
      this.helper := helper;
      this.helperSize := helperSize;
      live := {};
    }

    /** Attaches to an arena already formatted with `arena`'s contents. */
    constructor Attach(at: Ptr, base: Addr, size: nat, helper: Addr, helperSize: nat, arena: Arena)
      ensures this.at == at && this.base == base && this.size == size
      ensures granularity == arena.granularity && live == arena.live
      ensures this.helper == helper && this.helperSize == helperSize
    {
      this.at := at;
      this.base := base;
      this.size := size;
      granularity := arena.granularity;
      this.helper := helper;
      this.helperSize := helperSize;
      live := arena.live;
    }

    function MinObjSize(): (n: nat)
      ensures n == granularity
    {
      granularity
    }

    predicate IsValidOffset(offset: Offset)
      reads this
    {
      offset in live
    }

    /** The address of `offset` in the current mapping. */
    function OffsetToPtr(offset: Offset): (p: Addr)
      ensures p >= base && p - base == offset
    {
      Offsets.OffsetToPtr(base, offset)
    }

    /** Allocates `size` bytes; which offset comes back and which offsets are valid
        afterwards are the allocator's decisions, handed in as `reply` and `after`. */
    method Alloc(size: nat, reply: Offset, after: set<Offset>) returns (offset: Offset)
      modifies this
      ensures offset == reply && live == after
    {
      offset := reply;
      live := after;
    }

    /** Frees `offset`; the offsets valid afterwards are handed in as `after`. */
    method Free(offset: Offset, after: set<Offset>)
      modifies this
      ensures live == after
    {
      live := after;
    }
  }
}
