/** The backing shelf file, seen only through the state its calls change. Whether a call
    succeeds is decided by the file system, so every call is handed its reply. */
module ShelfFiles {
  import opened ShelfTypes

  /** What the heap can observe of a shelf file: whether it exists, its size, whether it
      is open and whether it is mapped. */
  datatype ShelfState = ShelfState(present: bool, size: nat, fileOpen: bool, mapped: bool)

  class ShelfFile {
    const pathname: string
    const shelfId: Option<nat>
    var present: bool
    var size: nat
    var fileOpen: bool
    var mapped: bool

    /** The observable state of the file. */
    function State(): (st: ShelfState)
      reads this
      ensures st.present == present && st.size == size
      ensures st.fileOpen == fileOpen && st.mapped == mapped
    {
      ShelfState(present, size, fileOpen, mapped)
    }

    /** A handle on the file at `pathname`; whether it exists and how large it is are
        properties of the file system at that moment. */
    constructor (pathname: string, present: bool, size: nat)
      ensures this.pathname == pathname && shelfId == None
      ensures State() == ShelfState(present, size, false, false)
    {
      this.pathname := pathname;
      shelfId := None;
      this.present := present;
      this.size := size;
      fileOpen := false;
      mapped := false;
    }

    /** The same handle, registered under a shelf id. */
    constructor WithId(pathname: string, id: nat, present: bool, size: nat)
      ensures this.pathname == pathname && shelfId == Some(id)
      ensures State() == ShelfState(present, size, false, false)
    {
      this.pathname := pathname;
      shelfId := Some(id);
      this.present := present;
      this.size := size;
      fileOpen := false;
      mapped := false;
    }

    function Exist(): (b: bool)
      reads this
      ensures b <==> State().present
    {
      present
    }

    function Size(): (n: nat)
      reads this
      ensures n == State().size
    {
      size
    }

    /** Resizes the file; on failure nothing changes. */
    method Truncate(newSize: nat, reply: ErrorCode) returns (r: ErrorCode)
      modifies this
      ensures r == reply
      ensures State() == if r == NoError then old(State()).(size := newSize) else old(State())
    {
      r := reply;
      if r == NoError {
        size := newSize;
      }
    }

    /** Opens the file; on failure nothing changes. */
    method Open(reply: ErrorCode) returns (r: ErrorCode)
      modifies this
      ensures r == reply
      ensures State() == if r == NoError then old(State()).(fileOpen := true) else old(State())
    {
      r := reply;
      if r == NoError {
        fileOpen := true;
      }
    }

    /** Maps the file at the address the system picks, `at`. The address written back is
        `at` on success and stays NULL on failure. */
    method Map(reply: ErrorCode, at: Ptr) returns (r: ErrorCode, a: Addr)
      modifies this
      ensures r == reply
      ensures a == if r == NoError then at else 0
      ensures State() == if r == NoError then old(State()).(mapped := true) else old(State())
    {
      r := reply;
      a := 0;
      if r == NoError {
        a := at;
        mapped := true;
      }
    }

    /** Unmaps the file; on failure nothing changes. */
    method Unmap(reply: ErrorCode) returns (r: ErrorCode)
      modifies this
      ensures r == reply
      ensures State() == if r == NoError then old(State()).(mapped := false) else old(State())
    {
      r := reply;
      if r == NoError {
        mapped := false;
      }
    }

    /** Closes the file; on failure nothing changes. */
    method Close(reply: ErrorCode) returns (r: ErrorCode)
      modifies this
      ensures r == reply
      ensures State() == if r == NoError then old(State()).(fileOpen := false) else old(State())
    {
      r := reply;
      if r == NoError {
        fileOpen := false;
      }
    }
  }
}
