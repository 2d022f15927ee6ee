# ShelfHeap lifecycle model

This project models the shelf heap of `src/shelf_usage/zone_shelf_heap.cc`. The shelf heap
binds a zone allocator to a memory-mapped shelf file. It moves through create, destroy,
verify, recover, open and close. It passes allocation calls on to the zone only while it
is open.

The model has these parts:

- `ShelfTypes`: the error codes, addresses (0 is NULL), non-NULL pointers and offsets.
- `ShelfFiles.ShelfFile`: the backing shelf file. Its state is whether it exists
  (`present`), its `size`, whether it is open (`fileOpen`) and whether it is mapped
  (`mapped`). The file system decides whether a call succeeds, so each call is given its
  reply as an argument. A failed call changes nothing.
- `Zones.Zone`: the zone allocator, left opaque. It is known only by the arguments it was
  built from and by the set of offsets it reports as valid (`live`).
- `HeapSpec`: each heap operation as a function. It takes the heap's fields, the shelf's
  state and the collaborators' replies (`Replies`). It gives back the error code and the
  new state. The C++ `assert`s each operation reaches become its guard predicate. The
  properties are proved as lemmas here. This includes an invariant that holds across
  every sequence of operations (`RunPreservesInv`).
- `ZoneShelfHeap.ShelfHeap`: a class whose methods follow the C++ line by line. Each
  lifecycle method is proved to return exactly the code, and leave exactly the state, that
  the matching `HeapSpec` function gives. Each one also keeps `Valid()`.
- `Offsets`: translating between offsets and pointers, as written and as intended (see
  Findings).

Rules the asserts impose:

- `Create` aborts at line 65 if the shelf does not exist; it never returns a not-found
  error. `Create` therefore requires `present`.
- A private mapping of an empty shelf is skipped, and `OpenMapShelf` reports success with
  `addr_` still NULL. `UnmapCloseShelf` then asserts `addr_ != NULL` (line 286). So
  `Create(0, …)`, and `Verify` on an empty shelf, reach a failing assert once the open succeeds (for
  `Create`, also the truncate). Their guards say so (`CreateGuard`, `VerifyGuard`). A successful `Destroy`
  leaves exactly such a shelf (see Findings).
- `Destroy` only truncates the shelf to 0 bytes (line 121). `DestroyOutcome` proves
  `present` never changes.

## Model

| member | source | states |
|---|---|---|
| ShelfFiles.ShelfFile.constructor | src/shelf_usage/zone_shelf_heap.cc:44-47 | a shelf handle starts neither open nor mapped, with the existence and size the file system reports |
| ShelfFiles.ShelfFile.WithId | src/shelf_usage/zone_shelf_heap.cc:49-52 | the same, for a handle that carries a shelf id |
| ShelfFiles.ShelfFile.Exist | src/shelf_usage/zone_shelf_heap.cc:236 | reports whether the shelf exists |
| ShelfFiles.ShelfFile.Size | src/shelf_usage/zone_shelf_heap.cc:258 | reports the shelf's current size |
| ShelfFiles.ShelfFile.Truncate | src/shelf_usage/zone_shelf_heap.cc:71 | returns its reply; only success sets the size |
| ShelfFiles.ShelfFile.Open | src/shelf_usage/zone_shelf_heap.cc:244 | returns its reply; only success opens the file |
| ShelfFiles.ShelfFile.Map | src/shelf_usage/zone_shelf_heap.cc:254-261 | returns its reply; success maps the file and writes a non-NULL address, failure leaves the address NULL |
| ShelfFiles.ShelfFile.Unmap | src/shelf_usage/zone_shelf_heap.cc:290-294 | returns its reply; only success unmaps |
| ShelfFiles.ShelfFile.Close | src/shelf_usage/zone_shelf_heap.cc:306 | returns its reply; only success closes the file |
| Zones.Zone.Format | src/shelf_usage/zone_shelf_heap.cc:87 | a zone built to format an arena records the base, size, granularity and helper it was given |
| Zones.Zone.Attach | src/shelf_usage/zone_shelf_heap.cc:162 | a zone attached to a formatted arena takes its granularity and valid offsets from the arena |
| Zones.Zone.MinObjSize | src/shelf_usage/zone_shelf_heap.cc:192 | the minimum allocation size is the zone's granularity |
| Zones.Zone.OffsetToPtr | src/shelf_usage/zone_shelf_heap.cc:221 | the pointer lies `offset` bytes after the arena base |
| Zones.Zone.Alloc | src/shelf_usage/zone_shelf_heap.cc:199 | returns the allocator's chosen offset and takes on its new set of valid offsets |
| Zones.Zone.Free | src/shelf_usage/zone_shelf_heap.cc:207 | takes on the allocator's new set of valid offsets |
| HeapSpec.Initial | src/shelf_usage/zone_shelf_heap.cc:44-52 | a new heap is closed, maps nothing and has no zone |
| HeapSpec.OpenMapShelf | src/shelf_usage/zone_shelf_heap.cc:233-273 | never changes the open flag, zone, helper, existence or size; success leaves the file open |
| HeapSpec.UnmapCloseShelf | src/shelf_usage/zone_shelf_heap.cc:275-308 | never changes the open flag, zone, helper, existence or size; success clears `addr_` and closes the file |
| HeapSpec.Create | src/shelf_usage/zone_shelf_heap.cc:62-97 | the heap is closed afterwards on every path; zone and helper untouched |
| HeapSpec.Destroy | src/shelf_usage/zone_shelf_heap.cc:99-122 | the heap stays closed; the shelf file is never removed |
| HeapSpec.Verify | src/shelf_usage/zone_shelf_heap.cc:124-139 | the heap stays closed and the shelf's size is unchanged |
| HeapSpec.Recover | src/shelf_usage/zone_shelf_heap.cc:141-145 | always returns NO_ERROR and changes nothing |
| HeapSpec.Open | src/shelf_usage/zone_shelf_heap.cc:147-166 | the shelf's existence and size are unchanged |
| HeapSpec.Close | src/shelf_usage/zone_shelf_heap.cc:168-181 | the zone is always dropped; helper, existence and size are unchanged |
| HeapSpec.Destruct | src/shelf_usage/zone_shelf_heap.cc:54-60 | afterwards the zone is dropped, or nothing changed |
| HeapSpec.Apply | src/shelf_usage/zone_shelf_heap.cc:62-181 | no lifecycle call removes the shelf file |
| HeapSpec.ApplyPreservesInv | src/shelf_usage/zone_shelf_heap.cc:62-181 | every lifecycle call whose asserts hold keeps the invariant: mapped exactly when `addr_` is set, a bound zone means the heap is open and sits on the current mapping, an open heap keeps its file open |
| HeapSpec.RunPreservesInv | src/shelf_usage/zone_shelf_heap.cc:62-181 | any sequence of lifecycle calls whose asserts hold keeps that invariant and never removes the shelf file |
| HeapSpec.InitialInv | src/shelf_usage/zone_shelf_heap.cc:44-52 | a new heap over an unmapped shelf satisfies the invariant |
| HeapSpec.MissingShelfIsInert | src/shelf_usage/zone_shelf_heap.cc:236-239 | when the shelf does not exist both helpers return SHELF_FILE_NOT_FOUND and change nothing (also lines 278-281) |
| HeapSpec.EmptyPrivateShelfIsNotMapped | src/shelf_usage/zone_shelf_heap.cc:256-271 | a private mapping of a size-0 shelf opens the file, maps nothing and returns NO_ERROR with `addr_` NULL |
| HeapSpec.FailedMapLeavesFileOpen | src/shelf_usage/zone_shelf_heap.cc:244-269 | a failed map returns the map error with the file left open and nothing mapped |
| HeapSpec.FailedOpenIsReturned | src/shelf_usage/zone_shelf_heap.cc:243-248 | a failed open of an existing shelf is returned unchanged and changes nothing; no map is tried |
| HeapSpec.OpenMapShelfSucceeds | src/shelf_usage/zone_shelf_heap.cc:233-273 | OpenMapShelf succeeds if and only if the shelf exists, opens, and is mapped or is an empty private mapping |
| HeapSpec.UnmapCloseShelfOutcome | src/shelf_usage/zone_shelf_heap.cc:285-307 | `addr_` becomes NULL if and only if the unmap succeeds; a failed unmap is returned with nothing changed and the file not closed; otherwise the close's result is returned |
| HeapSpec.CreateStages | src/shelf_usage/zone_shelf_heap.cc:62-97 | truncate, open, map and unmap/close run in order; the first failure is returned unchanged and later steps are skipped |
| HeapSpec.CreateSucceeds | src/shelf_usage/zone_shelf_heap.cc:62-97 | Create succeeds if and only if every collaborator call succeeds, leaving a closed, unmapped shelf of `zone_size` bytes |
| HeapSpec.CreateLeaksMappingOnUnmapFailure | src/shelf_usage/zone_shelf_heap.cc:90-94 | when the final unmap fails, Create returns that error with the mapping still held |
| HeapSpec.DestroyOutcome | src/shelf_usage/zone_shelf_heap.cc:99-122 | the not-found, open, map, unmap and close errors are each returned unchanged with the exact state left behind, and later steps are skipped; truncation to 0 happens only after map and unmap both succeed, and its result is returned; Destroy succeeds if and only if every step does |
| HeapSpec.VerifyIgnoresUnmap | src/shelf_usage/zone_shelf_heap.cc:124-139 | a missing shelf gives SHELF_FILE_NOT_FOUND and a failed open gives the open error, both with nothing changed; once the file opens, the map's result is returned, whatever unmap and close return; it succeeds if and only if the mapping does |
| HeapSpec.OpenOutcome | src/shelf_usage/zone_shelf_heap.cc:147-166 | a missing shelf, a failed open and a failed map each return their own error, with the file left open after a failed map and nothing else changed; the heap is open afterwards if and only if the mapping succeeded; then helper, size and zone are set over the new mapping; otherwise the error is returned with those fields unchanged |
| HeapSpec.CloseOutcome | src/shelf_usage/zone_shelf_heap.cc:168-181 | the zone is always dropped; a missing shelf or a failed unmap is returned with nothing else changed; after a successful unmap the close's result is returned with `addr_` NULL; the heap stays open if and only if an error is returned |
| HeapSpec.VerifyLeaksMappingOnUnmapFailure | src/shelf_usage/zone_shelf_heap.cc:137-138 | when the unmap fails, Verify still returns NO_ERROR with the mapping held |
| HeapSpec.DestroyThenVerifyAborts | src/shelf_usage/zone_shelf_heap.cc:121 | after a successful Destroy, Verify reaches a failing assert whenever the shelf opens |
| HeapSpec.UnmapCloseShelfChecked | src/shelf_usage/zone_shelf_heap.cc:275-308 | intended version: agrees with UnmapCloseShelf whenever its assert holds, and closes only the file when nothing is mapped |
| HeapSpec.VerifyChecked | src/shelf_usage/zone_shelf_heap.cc:124-139 | intended version: agrees with Verify whenever Verify's asserts hold, and succeeds if and only if the shelf exists, opens, and is empty or maps |
| HeapSpec.DestroyThenVerifyChecked | src/shelf_usage/zone_shelf_heap.cc:99-139 | after a successful Destroy, the intended Verify may be called, succeeds if and only if the shelf opens, and closes the file again |
| HeapSpec.OpenMapShelfGuard | src/shelf_usage/zone_shelf_heap.cc:251 | the assert that nothing is mapped when the map is tried |
| HeapSpec.UnmapCloseShelfGuard | src/shelf_usage/zone_shelf_heap.cc:286 | the assert that something is mapped when the unmap is tried |
| HeapSpec.CreateGuard | src/shelf_usage/zone_shelf_heap.cc:64-65 | closed, shelf present, and the asserts at lines 251 and 286 reached after a successful truncate and open |
| HeapSpec.DestroyGuard | src/shelf_usage/zone_shelf_heap.cc:101 | closed, and the assert at line 251 |
| HeapSpec.VerifyGuard | src/shelf_usage/zone_shelf_heap.cc:126 | closed, and the asserts at lines 251 and 286 |
| HeapSpec.OpenGuard | src/shelf_usage/zone_shelf_heap.cc:149 | closed, and the assert at line 251 |
| HeapSpec.CloseGuard | src/shelf_usage/zone_shelf_heap.cc:170 | open, and the assert at line 286 |
| HeapSpec.DestructGuard | src/shelf_usage/zone_shelf_heap.cc:56-58 | Close's asserts, whenever the heap is open |
| HeapSpec.VerifyCheckedGuard | src/shelf_usage/zone_shelf_heap.cc:126 | intended version: closed, and the assert at line 251 only |
| Zones.Zone.IsValidOffset | src/shelf_usage/zone_shelf_heap.cc:214 | an offset is valid exactly when the zone reports it allocated |
| HeapSpec.DestructClosesWhenOpen | src/shelf_usage/zone_shelf_heap.cc:54-60 | the destructor runs Close exactly when the heap is open |
| HeapSpec.CreateThenOpenSize | src/shelf_usage/zone_shelf_heap.cc:62-97 | after a successful Create(N), Open may be called, and a successful Open leaves an open heap over N bytes |
| HeapSpec.OpenCloseRoundTrip | src/shelf_usage/zone_shelf_heap.cc:147-181 | a successful Open then Close restores the heap and shelf, except for the helper Open recorded |
| ZoneShelfHeap.ShelfHeap.constructor | src/shelf_usage/zone_shelf_heap.cc:44-47 | the new heap is the initial state over a fresh shelf handle |
| ZoneShelfHeap.ShelfHeap.WithId | src/shelf_usage/zone_shelf_heap.cc:49-52 | the same, for a handle with a shelf id |
| ZoneShelfHeap.ShelfHeap.Dispose | src/shelf_usage/zone_shelf_heap.cc:54-60 | behaves as `HeapSpec.Destruct` |
| ZoneShelfHeap.ShelfHeap.Create | src/shelf_usage/zone_shelf_heap.cc:62-97 | requires closed and existing; behaves as `HeapSpec.Create` |
| ZoneShelfHeap.ShelfHeap.Destroy | src/shelf_usage/zone_shelf_heap.cc:99-122 | requires closed; behaves as `HeapSpec.Destroy` |
| ZoneShelfHeap.ShelfHeap.Verify | src/shelf_usage/zone_shelf_heap.cc:124-139 | requires closed; behaves as `HeapSpec.Verify` |
| ZoneShelfHeap.ShelfHeap.Recover | src/shelf_usage/zone_shelf_heap.cc:141-145 | returns NO_ERROR and changes nothing |
| ZoneShelfHeap.ShelfHeap.Open | src/shelf_usage/zone_shelf_heap.cc:147-166 | requires closed; behaves as `HeapSpec.Open`, binding a fresh zone that reads the arena |
| ZoneShelfHeap.ShelfHeap.Close | src/shelf_usage/zone_shelf_heap.cc:168-181 | requires open; behaves as `HeapSpec.Close` |
| ZoneShelfHeap.ShelfHeap.Size | src/shelf_usage/zone_shelf_heap.cc:183-187 | requires open; returns the shelf's size |
| ZoneShelfHeap.ShelfHeap.MinAllocSize | src/shelf_usage/zone_shelf_heap.cc:189-193 | requires open; returns the zone's granularity |
| ZoneShelfHeap.ShelfHeap.Alloc | src/shelf_usage/zone_shelf_heap.cc:195-202 | requires open; returns what the zone allocates |
| ZoneShelfHeap.ShelfHeap.Free | src/shelf_usage/zone_shelf_heap.cc:204-209 | requires open; passes the free on to the zone |
| ZoneShelfHeap.ShelfHeap.IsValidOffset | src/shelf_usage/zone_shelf_heap.cc:211-215 | requires open; true if and only if the zone reports the offset valid |
| ZoneShelfHeap.ShelfHeap.OffsetToPtr | src/shelf_usage/zone_shelf_heap.cc:217-222 | requires open and a valid offset; the pointer is `Offsets.OffsetToPtr` of the mapping address `addr_` |
| ZoneShelfHeap.ShelfHeap.PtrToOffset | src/shelf_usage/zone_shelf_heap.cc:224-231 | requires open, a pointer above the zone object and a valid result; returns the as-written distance from the zone object |
| ZoneShelfHeap.ShelfHeap.OpenMapShelf | src/shelf_usage/zone_shelf_heap.cc:233-273 | behaves as `HeapSpec.OpenMapShelf` and leaves zone and helper alone |
| ZoneShelfHeap.ShelfHeap.UnmapCloseShelf | src/shelf_usage/zone_shelf_heap.cc:275-308 | behaves as `HeapSpec.UnmapCloseShelf` and leaves zone and helper alone |
| Offsets.OffsetToPtr | src/shelf_usage/zone_shelf_heap.cc:221 | the pointer lies `offset` bytes after the base |
| Offsets.PtrToOffsetAsWritten | src/shelf_usage/zone_shelf_heap.cc:226-228 | a result exists if and only if the pointer lies above the zone object, and it is the distance from that object |
| Offsets.AsWrittenMissesRoundTrip | src/shelf_usage/zone_shelf_heap.cc:228 | unless the zone object sits at the mapping base, translating an offset's pointer back never yields the offset |
| Offsets.AsWrittenCounterexample | src/shelf_usage/zone_shelf_heap.cc:228 | mapping at 0x10000, zone object at 0x2000: offset 128 comes back as 0xE080 |
| Offsets.AsWrittenGuardPassesPastEnd | src/shelf_usage/zone_shelf_heap.cc:227 | the pointer one past the mapping passes line 227's check and is refused as intended; only line 229's validity assert remains |
| Offsets.PtrToOffset | src/shelf_usage/zone_shelf_heap.cc:224-231 | a result exists if and only if the pointer lies inside the mapping, and it maps back to that pointer |
| Offsets.OffsetRoundTrip | src/shelf_usage/zone_shelf_heap.cc:217-231 | every offset inside the mapping comes back unchanged from its pointer |
| Offsets.PtrRoundTrip | src/shelf_usage/zone_shelf_heap.cc:217-231 | every pointer inside the mapping comes back unchanged from its offset |

## Left out

- The zone allocator's layout and algorithm (header format, free-space tracking, first-fit, alignment). `zone.h` and its implementation are not part of this model. The zone is opaque: the offset `Alloc` returns and the valid offsets after `Alloc` and `Free` are given to it as arguments.
- Two zone behaviours are assumed, because the zone's code is not part of this model: `Zones.Zone.OffsetToPtr` adds the offset to the arena base, and `Zones.Zone.Format` starts with no valid offsets.
- The shelf file's internals and the operating-system calls behind it (`open`, `mmap`, `munmap`, `ftruncate`, protection and flag arguments). Only their effect on existence, size, open and mapped state, and the error code they return, are modelled.
- The shelf manager's process-wide mapping registry. The `use_shelf_manager` and `unregister` flags pick a different collaborator call in the source. In the model they unmap alike; only the size-0 skip on the private path depends on them.
- Writing the zone header into the mapped arena during `Create`. The formatting zone is built and dropped, and the arena's contents are not modelled. A later `Open` reads the arena's granularity and valid offsets through `Replies.arena`.
- The default arguments of `OpenMapShelf()` and `UnmapCloseShelf()`, used at lines 78, 90, 128 and 137, are declared in `zone_shelf_heap.h`, which is not part of this model. The model takes `use_shelf_manager = false` and `unregister = false` for them. The `zoneSize > 0` condition of `CreateGuard` and the `size > 0` condition of `VerifyGuard` rest on that choice.
- `ShelfFiles.ShelfFile.Map`: assumes the address written back stays NULL when the map fails, and is non-NULL when it succeeds, on both mapping paths. The source asserts non-NULL only on the private path (line 264). This assumption discharges the assert at line 286 in `Destroy`, and in `Close` after `Open`. It also lets a failed `Open` be retried without tripping the assert at line 251.
- Every `assert` is treated as fatal: a call whose asserts can fail is excluded by its guard. What happens in a build with `NDEBUG`, where the asserts are compiled out, is not modelled.
- `delete` of the zone objects: memory reclamation has no observable effect here.
- `helper_` and `helper_size_` are left uninitialised by the C++ constructors; the model starts them at 0.
- `LOG(trace)` output in `Alloc` and `Free` (diagnostics only).
- The TODO stubs: rounding the shelf size up, header validation, zeroing on `Destroy`, crash recovery. There is no code to model.
- Concurrency: the heap is used by one thread at a time.
- ZoneShelfHeap.ShelfHeap.MinAllocSize: requires a bound zone as well as the open flag, because a failed `Close` leaves `is_open_` true with `zone_` NULL, and the source would then dereference NULL. The same extra requirement applies to `Alloc`, `Free`, `IsValidOffset`, `OffsetToPtr` and `PtrToOffset`.
- ZoneShelfHeap.ShelfHeap.PtrToOffset: mirrors the code as written. The intended translation is `Offsets.PtrToOffset` (see Findings).

## Findings

| source | as written | input that shows it | evidently intended | confidence | as-written member | corrected member |
|---|---|---|---|---|---|---|
| src/shelf_usage/zone_shelf_heap.cc:227-228 | the offset is `addr - zone_`, the distance from the Zone object; line 227 checks only `addr > zone_`, and line 229 then asserts `zone_->IsValidOffset` of that distance | mapping at 0x10000, Zone object at 0x2000, offset 128: the pointer 0x10080 translates to 0xE080, not 128; the pointer one past the mapping passes line 227 | the offset is the distance from the mapping base `addr_`, for pointers inside the mapped bytes only, so translating an offset's pointer back gives the offset | medium, not executed | Offsets.AsWrittenMissesRoundTrip | Offsets.OffsetRoundTrip |
| src/shelf_usage/zone_shelf_heap.cc:128-137 | Verify maps privately, where an empty shelf is skipped with `addr_` left NULL, and then `UnmapCloseShelf` asserts `addr_ != NULL` | Destroy succeeds, leaving the shelf present with 0 bytes; Verify then opens it and aborts at line 286 | an empty shelf is verified by closing the file without unmapping | medium (assumes the default `use_shelf_manager = false`), not executed | HeapSpec.DestroyThenVerifyAborts | HeapSpec.DestroyThenVerifyChecked |
