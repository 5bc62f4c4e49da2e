/** `DataBuffer`, an owning byte buffer written to the Rule of Five: two
    allocating constructors, a deep copy constructor and copy assignment, a
    stealing move constructor and move assignment, `setData` and `getData`. */
module MoveSemantic {
  import opened CTypes

  /** `DEFAULT_BUFFER_SIZE`, the capacity constructor's default argument. */
  const DEFAULT_BUFFER_SIZE: nat := 100

  /** The pointer `getData` hands out: the buffer's own storage, or the
      one-byte constant `result`, which holds a single NUL. */
  datatype DataView = Owned(storage: array?<Byte>) | Fallback

  /** The bytes of the constant `result`. */
  const FALLBACK_BYTES: seq<Byte> := [0]

  /** `std::copy(src, src + |src|, dst)`: the element loop that fills fresh storage. */
  method CopyInto(src: seq<Byte>, dst: array<Byte>)
    requires |src| == dst.Length
    modifies dst
    ensures dst[..] == src
  {
    var i := 0;
    while i < |src|
      invariant 0 <= i <= |src|
      invariant dst[..i] == src[..i]
    {
      dst[i] := src[i];
      i := i + 1;
    }
  }

  class DataBuffer {
    /** `m_data_size` */
    var size: nat
    /** `m_data`; null once the contents have been moved out */
    var data: array?<Byte>

    /** Either the buffer owns storage of exactly `size` bytes, or it is in the
        emptied state (null storage, size 0) that a move leaves behind. */
    predicate Valid()
      reads this
    {
      if data == null then size == 0 else data.Length == size
    }

    /** The bytes the buffer currently owns (none in the emptied state). */
    function Contents(): (s: seq<Byte>)
      reads this, data
      requires Valid()
      ensures |s| == size
    {
      if data == null then [] else data[..]
    }

    /** `DataBuffer(unsigned int t_data_size = DEFAULT_BUFFER_SIZE)`: fresh storage
        of the requested size, its bytes left unspecified. */
    constructor (n: nat := DEFAULT_BUFFER_SIZE)
      ensures Valid() && size == n
      ensures data != null && fresh(data)
    {
      size := n;
      data := new Byte[n];
    }

    /** `DataBuffer(const char* t_data)`: fresh storage holding the string's bytes. */
    constructor FromCString(t: seq<char>)
      requires IsCString(t)
      ensures Valid() && size == Strlen(t)
      ensures data != null && fresh(data)
      ensures Contents() == CStringBytes(t)
    {
      size := Strlen(t);
      var storage := new Byte[Strlen(t)];
      CopyInto(CStringBytes(t), storage);
      data := storage;
    }

    /** Copy constructor: same size and bytes, in storage of its own. */
    constructor Copy(other: DataBuffer)
      requires other.Valid()
      ensures Valid() && size == other.size
      ensures Contents() == other.Contents()
      ensures data != null && fresh(data)
    {
      size := other.size;
      var storage := new Byte[other.size];
      CopyInto(other.Contents(), storage);
      data := storage;
    }

    /** Move constructor: takes over the source's size and storage and leaves the
        source emptied. */
    constructor Move(other: DataBuffer)
      requires other.Valid()
      modifies other
      ensures Valid() && other.Valid()
      ensures size == old(other.size) && data == old(other.data)
      ensures Contents() == old(other.Contents())
      ensures other.data == null && other.size == 0
    {
      size := other.size;
      data := other.data;
      new;
      other.data := null;
      other.size := 0;
    }

    /** Copy assignment. Assigning a buffer to itself changes nothing; otherwise the
        target gets fresh storage holding the source's bytes and the source is left
        as it was. Returns the target, as `*this`. */
    method CopyAssign(other: DataBuffer) returns (self: DataBuffer)
      requires Valid() && other.Valid()
      modifies this
      ensures self == this && Valid()
      ensures other == this ==> size == old(size) && data == old(data)
      ensures other != this ==> size == other.size && Contents() == other.Contents()
      ensures other != this ==> data != null && fresh(data)
      ensures other != this ==> unchanged(other) && other.Contents() == old(other.Contents())
    {
      if this != other {
        data := null;
        size := other.size;
        var storage := new Byte[other.size];
        CopyInto(other.Contents(), storage);
        data := storage;
      }
      self := this;
    }

    /** Move assignment. Assigning a buffer to itself changes nothing; otherwise the
        target takes over the source's size and storage and the source is emptied.
        Returns the target, as `*this`. */
    method MoveAssign(other: DataBuffer) returns (self: DataBuffer)
      requires Valid() && other.Valid()
      modifies this, other
      ensures self == this && Valid() && other.Valid()
      ensures other == this ==> size == old(size) && data == old(data)
      ensures other != this ==> size == old(other.size) && data == old(other.data)
      ensures other != this ==> Contents() == old(other.Contents())
      ensures other != this ==> other.data == null && other.size == 0
    {
      if this != other {
        size := other.size;
        data := other.data;
        other.data := null;
        other.size := 0;
      }
      self := this;
    }

    /** `setData(const char* t_data)`: replaces the storage by fresh storage holding
        the string's bytes, whatever the previous size. */
    method SetData(t: seq<char>)
      requires IsCString(t)
      modifies this
      ensures Valid() && size == Strlen(t)
      ensures data != null && fresh(data)
      ensures Contents() == CStringBytes(t)
    {
      size := Strlen(t);
      var storage := new Byte[Strlen(t)];
      CopyInto(CStringBytes(t), storage);
      data := storage;
    }

    /** `getData()`: the owned storage when it is non-null or the size is positive,
        otherwise the constant `result`; never a null pointer. */
    function GetData(): (v: DataView)
      reads this
      requires Valid()
      ensures v.Owned? <==> (data != null || size > 0)
      ensures v.Owned? ==> v.storage == data && v.storage != null
    {
      if data != null || size > 0 then Owned(data) else Fallback
    }
  }

  /** The bytes a reader sees through what `getData` returned. */
  function ViewBytes(v: DataView): (s: seq<Byte>)
    reads if v.Owned? && v.storage != null then {v.storage} else {}
  {
    match v
    case Owned(storage) => if storage == null then [] else storage[..]
    case Fallback => FALLBACK_BYTES
  }

  /** Reading a buffer through `getData` shows its contents, or the single NUL of
      `result` once it is emptied: never an absent reference. */
  lemma ReadIsContentsOrNul(b: DataBuffer)
    requires b.Valid()
    ensures ViewBytes(b.GetData()) == if b.data == null then FALLBACK_BYTES else b.Contents()
  {
  }

  /** `std::swap(a, b)`: a move construction into a temporary followed by two move
      assignments. The two buffers exchange sizes and storage; swapping a buffer
      with itself leaves it as it was. */
  method Swap(a: DataBuffer, b: DataBuffer)
    requires a.Valid() && b.Valid()
    modifies a, b
    ensures a.Valid() && b.Valid()
    ensures a.size == old(b.size) && a.data == old(b.data)
    ensures b.size == old(a.size) && b.data == old(a.data)
  {
    var tmp := new DataBuffer.Move(a);
    var _ := a.MoveAssign(b);
    var _ := b.MoveAssign(tmp);
  }

  /** Copy independence: after `c` is copy-constructed from `b`, replacing `b`'s
      contents leaves `c` holding what `b` held before, in storage that was never
      `b`'s. */
  method CopyThenSetData(b: DataBuffer, t: seq<char>) returns (c: DataBuffer)
    requires b.Valid() && IsCString(t)
    modifies b
    ensures c.Valid() && c.Contents() == old(b.Contents())
    ensures b.Valid() && b.Contents() == CStringBytes(t)
    ensures c != b && c.data != b.data && c.data != old(b.data)
  {
    c := new DataBuffer.Copy(b);
    b.SetData(t);
  }

  /** The bytes of `"Input"` (ASCII). */
  const INPUT_BYTES: seq<Byte> := [73, 110, 112, 117, 116]

  /** `createInputBuffer()`: a buffer built from `"Input"`, returned by move. */
  method CreateInputBuffer() returns (b: DataBuffer)
    ensures fresh(b) && b.Valid() && b.Contents() == INPUT_BYTES
    ensures b.data != null && fresh(b.data)
  {
    LiteralIsCString("Input");
    var inputBuf := new DataBuffer.FromCString(Literal("Input"));
    b := new DataBuffer.Move(inputBuf);
  }

  /** The first two statements of the sample's `main`: a buffer of capacity 10
      given `"Hello"` ends with size 5, not 10. */
  method CapacityThenSetData() returns (size: nat, contents: seq<Byte>)
    ensures size == 5 && contents == AsBytes("Hello")
  {
    var db1 := new DataBuffer(10);
    LiteralIsCString("Hello");
    db1.SetData(Literal("Hello"));
    size, contents := db1.size, db1.Contents();
  }

  /** The three assignments of the sample's `main`: `db2 = db1` (copy),
      `db2 = DataBuffer(temp)` and `db2 = std::move(db1)` (moves). `db2` ends with
      `db1`'s former bytes and `db1` is emptied, so reading it yields `result`. */
  method AssignmentSequence(db1: DataBuffer, db2: DataBuffer, temp: seq<char>)
    requires db1.Valid() && db2.Valid() && db1 != db2 && IsCString(temp)
    modifies db1, db2
    ensures db1.Valid() && db2.Valid()
    ensures db2.Contents() == old(db1.Contents())
    ensures db1.data == null && db1.size == 0 && db1.GetData() == Fallback
  {
    var _ := db2.CopyAssign(db1);
    var tempBuf := new DataBuffer.FromCString(temp);
    var _ := db2.MoveAssign(tempBuf);
    var _ := db2.MoveAssign(db1);
  }

  /** The sequence of operations of the sample's `main`, over any strings in place
      of its literals (`hello` = "Hello", `temp` = "TempBuffer", `modern` =
      " Modern C++!"): a capacity-10 buffer set to `hello`, a second buffer moved
      from `createInputBuffer()`, the three assignments, a second `setData` and a
      final swap. Returns what the two buffers hold at the end, in the order the
      final message prints them. */
  method MainScenario(hello: seq<char>, temp: seq<char>, modern: seq<char>)
    returns (first: seq<Byte>, second: seq<Byte>)
    requires IsCString(hello) && IsCString(temp) && IsCString(modern)
    ensures first == CStringBytes(hello) && second == CStringBytes(modern)
  {
    var db1 := new DataBuffer(10);
    db1.SetData(hello);
    var input := CreateInputBuffer();
    var db2 := new DataBuffer.Move(input);
    AssignmentSequence(db1, db2, temp);
    db1.SetData(modern);
    Swap(db1, db2);
    first, second := db1.Contents(), db2.Contents();
  }
}
