/** Types shared by the shelf file, the zone and the shelf heap. */
module ShelfTypes {

  /** The error codes the heap returns. `NoError` and `ShelfFileNotFound` are the two the
      heap produces itself; every other code comes from the shelf file and is passed on
      unchanged, so it is kept abstract. */
  datatype ErrorCode = NoError | ShelfFileNotFound | ShelfError(code: nat)

  /** A virtual address; 0 stands for NULL. */
  type Addr = nat

  /** A non-NULL address, such as a successful mapping returns. */
  type Ptr = a: Addr | a != 0 witness 1

  /** A byte distance from the start of the mapped shelf. */
  type Offset = nat

  datatype Option<T> = None | Some(value: T)
}
