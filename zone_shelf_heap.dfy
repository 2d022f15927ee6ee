/** The shelf heap of zone_shelf_heap.cc: a class whose methods follow the C++ step by
    step. Each lifecycle method is proved to return the code and leave the state that the
    matching function of HeapSpec describes; the delegating accessors are guarded by the
    open state, as the source's asserts demand. */
module ZoneShelfHeap {
  import opened ShelfTypes
  import opened ShelfFiles
  import opened Zones
  import HeapSpec
  import Offsets

  class ShelfHeap {
    var isOpen: bool
    const shelf: ShelfFile
    /** Where the shelf is mapped; 0 when nothing is. */
    var addr: Addr
    /** The zone bound while open; null otherwise. */
    var zone: Zone?
    var helper: Addr
    var helperSize: nat

    /** The heap's fields and its shelf's state as one value. */
    function Abs(): (s: HeapSpec.HeapState)
      reads this, shelf
      ensures s.isOpen == isOpen && s.addr == addr && s.shelf == shelf.State()
      ensures s.zone.Some? <==> zone != null
    {
      HeapSpec.HeapState(isOpen, addr,
        if zone == null then None
        else Some(HeapSpec.ZoneView(zone.at, zone.base, zone.size, zone.helper, zone.helperSize)),
        helper, helperSize, shelf.State())
    }

    ghost predicate Valid()
      reads this, shelf
    {
      HeapSpec.Inv(Abs())
    }

    /** A closed heap over the shelf file at `pathname`, which the file system reports as
        `present` with `size` bytes. */
    constructor (pathname: string, present: bool, size: nat)
      ensures fresh(shelf) && shelf.pathname == pathname && shelf.shelfId == None
      ensures Abs() == HeapSpec.Initial(ShelfState(present, size, false, false))
      ensures Valid()
    {
      isOpen := false;
      shelf := new ShelfFile(pathname, present, size);
      addr := 0;
      zone := null;
      helper := 0;
      helperSize := 0;
    }

    /** The same, for a shelf registered under `id`. */
    constructor WithId(pathname: string, id: nat, present: bool, size: nat)
      ensures fresh(shelf) && shelf.pathname == pathname && shelf.shelfId == Some(id)
      ensures Abs() == HeapSpec.Initial(ShelfState(present, size, false, false))
      ensures Valid()
    {
      isOpen := false;
      shelf := new ShelfFile.WithId(pathname, id, present, size);
      addr := 0;
      zone := null;
      helper := 0;
      helperSize := 0;
    }

    /** The destructor: an open heap is closed first. */
    method Dispose(rep: HeapSpec.Replies)
      requires HeapSpec.DestructGuard(Abs())
      modifies this, shelf
      ensures Abs() == HeapSpec.Destruct(old(Abs()), rep)
      ensures old(Valid()) ==> Valid()
    {
      if isOpen {
        var _ := Close(rep);
      }
    }

    method Create(zoneSize: nat, helper: Addr, helperSize: nat, rep: HeapSpec.Replies) returns (r: ErrorCode)
      requires HeapSpec.CreateGuard(Abs(), zoneSize, rep)
      modifies this, shelf
      ensures HeapSpec.Step(r, Abs()) == HeapSpec.Create(old(Abs()), zoneSize, helper, helperSize, rep)
      ensures old(Valid()) ==> Valid()
    {
      assert !isOpen && shelf.Exist();
      r := NoError;
      r := shelf.Truncate(zoneSize, rep.truncateCode);
      if r != NoError {
        return;
      }
      r := OpenMapShelf(false, rep);
      if r != NoError {
        return;
      }
      // the zone formats the arena and is dropped straight away
      var formatted := new Zone.Format(rep.zoneAt, addr, zoneSize, HeapSpec.FormatGranularity,
                                       zoneSize, helper, helperSize);
      r := UnmapCloseShelf(false, false, rep);
      if r != NoError {
        return;
      }
    }

    method Destroy(rep: HeapSpec.Replies) returns (r: ErrorCode)
      requires HeapSpec.DestroyGuard(Abs(), rep)
      modifies this, shelf
      ensures HeapSpec.Step(r, Abs()) == HeapSpec.Destroy(old(Abs()), rep)
      ensures old(Valid()) ==> Valid()
    {
      assert !isOpen;
      r := NoError;
      r := OpenMapShelf(true, rep);
      if r != NoError {
        return;
      }
      r := UnmapCloseShelf(true, true, rep);
      if r != NoError {
        return;
      }
      r := shelf.Truncate(0, rep.truncateCode);
    }

    method Verify(rep: HeapSpec.Replies) returns (r: ErrorCode)
      requires HeapSpec.VerifyGuard(Abs(), rep)
      modifies this, shelf
      ensures HeapSpec.Step(r, Abs()) == HeapSpec.Verify(old(Abs()), rep)
      ensures old(Valid()) ==> Valid()
    {
      assert !isOpen;
      r := NoError;
      r := OpenMapShelf(false, rep);
      if r != NoError {
        return;
      }
      var _ := UnmapCloseShelf(false, false, rep);
    }

    method Recover() returns (r: ErrorCode)
      ensures HeapSpec.Step(r, Abs()) == HeapSpec.Recover(Abs())
    {
      r := NoError;
    }

    method Open(helper: Addr, helperSize: nat, rep: HeapSpec.Replies) returns (r: ErrorCode)
      requires HeapSpec.OpenGuard(Abs(), rep)
      modifies this, shelf
      ensures HeapSpec.Step(r, Abs()) == HeapSpec.Open(old(Abs()), helper, helperSize, rep)
      ensures r == NoError ==> fresh(zone) && zone.live == rep.arena.live
      ensures r == NoError ==> zone.granularity == rep.arena.granularity
      ensures old(Valid()) ==> Valid()
    {
      assert !isOpen;
      r := NoError;
      r := OpenMapShelf(true, rep);
      if r != NoError {
        return;
      }
      this.helper := helper;
      this.helperSize := helperSize;
      zone := new Zone.Attach(rep.zoneAt, addr, shelf.Size(), this.helper, this.helperSize, rep.arena);
      isOpen := true;
    }

    method Close(rep: HeapSpec.Replies) returns (r: ErrorCode)
      requires HeapSpec.CloseGuard(Abs())
      modifies this, shelf
      ensures HeapSpec.Step(r, Abs()) == HeapSpec.Close(old(Abs()), rep)
      ensures old(Valid()) ==> Valid()
    {
      assert isOpen;
      zone := null;
      r := UnmapCloseShelf(true, false, rep);
      if r == NoError {
        isOpen := false;
      }
    }

    // -------------------------------------------------------------------------------
    // Delegation to the bound zone. The source asserts only that the heap is open; the
    // zone must also be bound, which a failed Close leaves untrue. Valid() holds of every
    // heap (the constructors establish it and every method keeps it) and places the zone
    // on the current mapping.

    method Size() returns (n: nat)
      requires isOpen
      ensures n == shelf.size
    {
      n := shelf.Size();
    }

    method MinAllocSize() returns (n: nat)
      requires Valid() && isOpen && zone != null
      ensures n == zone.granularity
    {
      n := zone.MinObjSize();
    }

    method Alloc(size: nat, reply: Offset, after: set<Offset>) returns (offset: Offset)
      requires Valid() && isOpen && zone != null
      modifies zone
      ensures offset == reply && zone.live == after
      ensures Valid()
    {
      offset := zone.Alloc(size, reply, after);
    }

    method Free(offset: Offset, after: set<Offset>)
      requires Valid() && isOpen && zone != null
      modifies zone
      ensures zone.live == after
      ensures Valid()
    {
      zone.Free(offset, after);
    }

    method IsValidOffset(offset: Offset) returns (b: bool)
      requires Valid() && isOpen && zone != null
      ensures b <==> offset in zone.live
    {
      b := zone.IsValidOffset(offset);
    }

    method OffsetToPtr(offset: Offset) returns (p: Addr)
      requires Valid() && isOpen && zone != null && zone.IsValidOffset(offset)
      ensures p == Offsets.OffsetToPtr(addr, offset)
    {
      p := zone.OffsetToPtr(offset);
    }

    /** As written: the distance is taken from the zone object, not from the mapping,
        and only the lower bound is checked (see Offsets). */
    method PtrToOffset(a: Addr) returns (offset: Offset)
      requires Valid() && isOpen && zone != null && a > zone.at
      requires zone.IsValidOffset(a - zone.at)
      ensures Offsets.PtrToOffsetAsWritten(a, zone.at) == Some(offset)
      ensures zone.IsValidOffset(offset)
    {
      offset := a - zone.at;
    }

    // -------------------------------------------------------------------------------
    // The private helpers.

    method OpenMapShelf(useShelfManager: bool, rep: HeapSpec.Replies) returns (r: ErrorCode)
      requires HeapSpec.OpenMapShelfGuard(Abs(), rep)
      modifies this, shelf
      ensures HeapSpec.Step(r, Abs()) == HeapSpec.OpenMapShelf(old(Abs()), useShelfManager, rep)
      ensures zone == old(zone) && helper == old(helper) && helperSize == old(helperSize)
    {
      if !shelf.Exist() {
        return ShelfFileNotFound;
      }
      r := NoError;
      r := shelf.Open(rep.openCode);
      if r != NoError {
        return;
      }
      assert addr == 0;
      if useShelfManager {
        r, addr := shelf.Map(rep.mapCode, rep.mapAt);
      } else {
        var size := shelf.Size();
        if size != 0 {
          r, addr := shelf.Map(rep.mapCode, rep.mapAt);
          if r == NoError {
            assert addr != 0;
          } else {
            return;
          }
        }
      }
    }

    /** Both mapping paths unmap alike here; they differ only in the shelf manager's
        registration bookkeeping, which is not modelled. */
    method UnmapCloseShelf(useShelfManager: bool, unregister: bool, rep: HeapSpec.Replies) returns (r: ErrorCode)
      requires HeapSpec.UnmapCloseShelfGuard(Abs())
      modifies this, shelf
      ensures HeapSpec.Step(r, Abs()) == HeapSpec.UnmapCloseShelf(old(Abs()), useShelfManager, unregister, rep)
      ensures zone == old(zone) && helper == old(helper) && helperSize == old(helperSize)
    {
      if !shelf.Exist() {
        return ShelfFileNotFound;
      }
      r := NoError;
      assert addr != 0;
      r := shelf.Unmap(rep.unmapCode);
      if r == NoError {
        addr := 0;
      } else {
        return;
      }
      r := shelf.Close(rep.closeCode);
    }
  }
}
