# Value-semantics samples of modern-cpp-samples, modelled in Dafny

The repository is a set of C++ teaching snippets about object lifetime. This
project models the four value types whose special member functions carry
behaviour that can be stated precisely, and proves that behaviour:

- `DataBuffer` (MoveSemantics/MoveSemantic.cpp), an owning byte buffer written
  to the Rule of Five: a capacity constructor and a C-string constructor, a
  deep copy constructor and copy assignment, a stealing move constructor and
  move assignment (both assignments guarded against self-assignment),
  `setData`, `getData` with its one-byte `"\0"` fallback, and the `std::swap`
  of two buffers in the sample's `main`.
- `Device` (moderncpp1/device.h, moderncpp1/device.cpp), a record that owns a
  buffer, draws its id from the counter `next_device_id` (which starts at 1),
  labels its status and type through two constant maps, keeps an append-only
  comment, and on move assignment leaves the source a tombstone (no buffer,
  capacity 0, type GPIO, status STOPPED, empty comment).
- `MyClass` (MoveSemantics/RValueSample.cpp), an `int` wrapper with a copy
  constructor, a self-guarded assignment and an `operator+` that builds a new
  object and changes neither operand.
- `BaseLogger` / `MyLogger` (CommonMistakes/object_slicing.cpp): `MyLogger`
  overrides `getMessage` to decorate the message; passing a `MyLogger` by value
  as a `BaseLogger` slices it (the copy keeps the message, loses the
  decoration), passing it by reference keeps the override.

Files, one module each:

- `ctypes.dfy` (`CTypes`): `unsigned char` as `Byte`, a 32-bit `Int32`,
  NUL-terminated strings (`IsCString`) and `strlen` (`Strlen`), and the
  bytes a `std::copy` of a C string writes (`CStringBytes`).
- `move_semantic.dfy` (`MoveSemantic`): class `DataBuffer` with fields `size`
  (`m_data_size`) and `data` (`m_data`, an `array?<Byte>` that is null once
  moved out). `Valid()` is the ownership invariant: either the storage holds
  exactly `size` bytes, or the buffer is emptied (null, size 0). `Contents()`
  is the owned bytes. The `std::copy` loop is the method `CopyInto`.
- `device.dfy` (`Devices`): the two enumerations, the two label tables as
  constant maps, the counter as an explicit `DeviceIdCounter` object passed to
  the constructors that use it, and class `Device`. `m_id` is a `const` field,
  so no operation after construction can change a device's id. The comment
  history is specified by `CommentAfter` (repeated `addCommentToDevice`) and
  the reference definition `Lines`.
- `rvalue_sample.dfy` (`RValueSample`): class `MyClass`.
- `object_slicing.dfy` (`ObjectSlicing`): class `Logger`, whose `const`
  field `dynamicType` records which class the object was constructed as (C++
  virtual dispatch); `SlicedCopy` is the implicit `BaseLogger` copy
  constructor. `Decorate` is the override's string expression and `Undecorate`
  its inverse.

The `main` functions of MoveSemantic.cpp, RValueSample.cpp and
object_slicing.cpp are each modelled by a `MainScenario` method that builds the
objects and states what the sample observes. moderncpp1/main.cpp is left out;
`Devices.TwoDevicesScenario` is a separate scenario: two devices made from a
fresh counter get ids 1 and 2, and two comments accumulate in order.

Three behaviours of the code worth stating:

- Reading an emptied `DataBuffer` does not give an empty view: `getData`
  returns the one-byte constant `result`, which holds a NUL
  (`MoveSemantic.ReadIsContentsOrNul`).
- Self-assignment is harmless only for `DataBuffer` and `MyClass`.
  `Device::operator=(Device&&)` has no self-assignment guard, so
  `Devices.Device.MoveAssign` requires its source to be another device.
- The `Device` copy constructor does not copy the buffer bytes or the comment.
  It allocates a fresh buffer of the source's capacity, and the comment starts
  empty.

## Model

| member | source | states |
|---|---|---|
| `CTypes.Strlen` | MoveSemantics/MoveSemantic.cpp:40 | `strlen` returns the position of the first NUL: the character there is NUL and none before it is |
| `CTypes.StrlenStopsAtFirstNul` | MoveSemantics/MoveSemantic.cpp:113 | any NUL-free prefix followed by a NUL determines `strlen` |
| `CTypes.AsText` | MoveSemantics/MoveSemantic.cpp:42 | the inverse of the character-to-`Byte` conversion `std::copy` performs: every byte becomes the character of the same value, so the result is byte text |
| `CTypes.AsTextAsBytes` | MoveSemantics/MoveSemantic.cpp:115 | copying characters into `Byte` storage loses nothing: the bytes read back as the original text |
| `CTypes.AsBytesAsText` | MoveSemantics/MoveSemantic.cpp:115 | every byte sequence is the copy of the text it reads back as, so the conversion is a bijection on byte text |
| `CTypes.AsBytesInjective` | MoveSemantics/MoveSemantic.cpp:115 | different strings copy to different bytes |
| `CTypes.LiteralIsCString` | MoveSemantics/MoveSemantic.cpp:155 | a string literal without embedded NULs is a C string whose `strlen` is its text's length and whose copied bytes are its text |
| `MoveSemantic.CopyInto` | MoveSemantics/MoveSemantic.cpp:42 | the element-copy loop leaves the destination storage equal to the source bytes |
| `MoveSemantic.DataBuffer.Contents` | MoveSemantics/MoveSemantic.cpp:130-131 | the owned bytes number exactly `m_data_size` |
| `MoveSemantic.DataBuffer.constructor` | MoveSemantics/MoveSemantic.cpp:30-35 | the size is the argument, 100 by default, and the storage is freshly allocated |
| `MoveSemantic.DataBuffer.FromCString` | MoveSemantics/MoveSemantic.cpp:37-43 | the size is `strlen` of the input and the fresh storage holds exactly the input's bytes |
| `MoveSemantic.DataBuffer.Copy` | MoveSemantics/MoveSemantic.cpp:53-59 | same size and bytes as the source, in freshly allocated storage that the source does not share |
| `MoveSemantic.DataBuffer.Move` | MoveSemantics/MoveSemantic.cpp:62-71 | the new buffer takes the source's size and storage and the source ends with null storage and size 0 |
| `MoveSemantic.DataBuffer.CopyAssign` | MoveSemantics/MoveSemantic.cpp:74-87 | self-assignment changes nothing; otherwise the target gets fresh storage with the source's size and bytes, the source is unchanged, and the target is returned |
| `MoveSemantic.DataBuffer.MoveAssign` | MoveSemantics/MoveSemantic.cpp:90-103 | self-assignment changes nothing; otherwise the target takes the source's size and storage and the source is emptied (null, 0) |
| `MoveSemantic.DataBuffer.SetData` | MoveSemantics/MoveSemantic.cpp:110-117 | the size becomes `strlen` of the input, whatever it was, and fresh storage holds the input's bytes |
| `MoveSemantic.DataBuffer.GetData` | MoveSemantics/MoveSemantic.cpp:119-127 | the owned storage is returned exactly when it is non-null or the size is positive, otherwise the constant `result`; the returned pointer is never null |
| `MoveSemantic.ReadIsContentsOrNul` | MoveSemantics/MoveSemantic.cpp:25 | reading through `getData` shows the buffer's bytes, or the single NUL of `result` once the buffer is emptied |
| `MoveSemantic.Swap` | MoveSemantics/MoveSemantic.cpp:177 | `std::swap` exchanges the two buffers' sizes and storage, even when both are the same buffer |
| `MoveSemantic.CopyThenSetData` | MoveSemantics/MoveSemantic.cpp:53-59 | after a copy, `setData` on the original leaves the copy holding the old bytes, in storage that is neither the original's old nor its new storage |
| `MoveSemantic.CreateInputBuffer` | MoveSemantics/MoveSemantic.cpp:135-144 | the returned buffer holds the bytes of `"Input"` in storage nobody else owns |
| `MoveSemantic.CapacityThenSetData` | MoveSemantics/MoveSemantic.cpp:154-155 | a capacity-10 buffer given `"Hello"` has size 5 and holds `Hello` |
| `MoveSemantic.AssignmentSequence` | MoveSemantics/MoveSemantic.cpp:162-170 | after `db2 = db1`, `db2 = DataBuffer(temp)` and `db2 = std::move(db1)`, `db2` holds `db1`'s former bytes and `db1` is emptied, so reading it yields `result` |
| `MoveSemantic.MainScenario` | MoveSemantics/MoveSemantic.cpp:154-179 | after the copy and move assignments, the second `setData` and the swap, the first buffer holds the first string and the second holds the last one |
| `Devices.StatusLabel` | moderncpp1/device.cpp:68 | `device_status_labels.at(s)` finds an entry for every status and returns the table's label |
| `Devices.TypeLabel` | moderncpp1/device.cpp:75 | `device_type_labels.at(t)` finds an entry for every type and returns the table's label |
| `Devices.StatusLabelsTotal` | moderncpp1/device.cpp:4-10 | the status table has an entry for every status, so `at` never throws |
| `Devices.TypeLabelsTotal` | moderncpp1/device.cpp:12-18 | the type table has an entry for every type |
| `Devices.StatusLabelNames` | moderncpp1/device.cpp:64-69 | each status is labelled with its own name |
| `Devices.TypeLabelNames` | moderncpp1/device.cpp:71-76 | GPIO is labelled GENERIC_IO and every other type with its own name |
| `Devices.StatusLabelsDistinct` | moderncpp1/device.cpp:4-10 | no two statuses share a label |
| `Devices.TypeLabelsDistinct` | moderncpp1/device.cpp:12-18 | no two types share a label |
| `Devices.DeviceIdCounter.constructor` | moderncpp1/device.cpp:20 | the counter starts at 1 |
| `Devices.DeviceIdCounter.Take` | moderncpp1/device.h:21 | `next_device_id++` yields the current value and advances the counter by one |
| `Devices.Device.constructor` | moderncpp1/device.h:25-26 | the next id, then the counter advanced by one; type GPIO, status STARTING, capacity 32 and a fresh buffer |
| `Devices.Device.WithCapacity` | moderncpp1/device.h:29-30 | as the default constructor but with the given capacity |
| `Devices.Device.Typed` | moderncpp1/device.h:32-34 | the next id and the given type, status and capacity |
| `Devices.Device.WithId` | moderncpp1/device.h:35-37 | the given id, type, status and capacity; the counter is not involved |
| `Devices.Device.Copy` | moderncpp1/device.h:46-51 | id, type, status and capacity of the source, a fresh buffer that does not alias the source's, an empty comment; the source is unchanged |
| `Devices.Device.Move` | moderncpp1/device.h:41-44 | id, type and status of the source, no counter involved, then the move assignment: the source's buffer and comment are taken and the source is a tombstone |
| `Devices.Device.MoveAssign` | moderncpp1/device.cpp:23-42 | the target takes the source's capacity, buffer, type, status and comment; the source ends with no buffer, capacity 0, type GPIO, status STOPPED, empty comment |
| `Devices.Device.AddCommentToDevice` | moderncpp1/device.cpp:44-47 | the comment becomes the old comment, a newline and the text; nothing else changes |
| `Devices.CommentAfterAppends` | moderncpp1/device.cpp:46 | after any sequence of comments the old comment is a prefix, followed by each comment on its own line in order |
| `Devices.LinesConcat` | moderncpp1/device.cpp:46 | the text added by two batches of comments is the first batch's text followed by the second's |
| `Devices.CommentHistoryIsPrefix` | moderncpp1/device.cpp:46 | later comments never alter the comment as it stood before them |
| `Devices.Device.GetId` | moderncpp1/device.cpp:49-52 | `getId` reports the device's id |
| `Devices.Device.GetComment` | moderncpp1/device.cpp:54-57 | `getComment` reports the accumulated comment |
| `Devices.Device.GetStatusCode` | moderncpp1/device.cpp:59-62 | `getStatusCode` reports the status itself |
| `Devices.Device.GetStatusLabel` | moderncpp1/device.cpp:64-69 | `getStatusLabel` returns the table's label of the status, and no other status has that label |
| `Devices.Device.GetTypeLabel` | moderncpp1/device.cpp:71-76 | `getTypeLabel` returns the table's label of the type, and no other type has that label |
| `Devices.TwoDevicesScenario` | moderncpp1/device.h:25 | two devices made in turn from a fresh counter get ids 1 and 2, and two comments on a fresh device give newline, first, newline, second |
| `RValueSample.MyClass.constructor` | MoveSemantics/RValueSample.cpp:29 | the default value is 0 |
| `RValueSample.MyClass.FromInt` | MoveSemantics/RValueSample.cpp:39 | the value is the argument |
| `RValueSample.MyClass.Copy` | MoveSemantics/RValueSample.cpp:32-36 | the copy has the same value |
| `RValueSample.MyClass.Data` | MoveSemantics/RValueSample.cpp:65 | `data() const` reports the stored value and changes nothing |
| `RValueSample.MyClass.Assign` | MoveSemantics/RValueSample.cpp:44-52 | self-assignment changes nothing; otherwise the value is copied and the source is unchanged; the target is returned |
| `RValueSample.MyClass.Plus` | MoveSemantics/RValueSample.cpp:56-62 | a new object whose value is the sum of the two values; neither operand changes |
| `RValueSample.MainScenario` | MoveSemantics/RValueSample.cpp:105-116 | assigning to the temporary `a + MyClass(4)` leaves `a` at 5, its copy at 5, and `a + MyClass(4)` is 9 |
| `ObjectSlicing.Decorate` | CommonMistakes/object_slicing.cpp:33-35 | the override's text always differs from the message, and undecorating it gives the message back |
| `ObjectSlicing.DecorateUndecorate` | CommonMistakes/object_slicing.cpp:33-35 | anything that undecorates to a message is that message's decoration |
| `ObjectSlicing.Logger.Base` | CommonMistakes/object_slicing.cpp:15 | a base logger with the given message, "BASE LOGGER INITIALIZED" by default |
| `ObjectSlicing.Logger.My` | CommonMistakes/object_slicing.cpp:29 | a `MyLogger` whose base message is the argument |
| `ObjectSlicing.Logger.SlicedCopy` | CommonMistakes/object_slicing.cpp:39 | copying any logger into a `BaseLogger` keeps the message and makes a plain base object |
| `ObjectSlicing.Logger.GetMessage` | CommonMistakes/object_slicing.cpp:19 | the virtual `getMessage` returns the bare message exactly when the object is a base logger; a `MyLogger` returns the decoration, from which the message is recovered |
| `ObjectSlicing.Logger.SetMessage` | CommonMistakes/object_slicing.cpp:21 | the message is replaced; a base logger then reports it unchanged, a `MyLogger` decorated |
| `ObjectSlicing.WriteLogByVal` | CommonMistakes/object_slicing.cpp:39-42 | passing by value logs the undecorated message, which for a `MyLogger` differs from its own `getMessage` |
| `ObjectSlicing.WriteLogByRef` | CommonMistakes/object_slicing.cpp:45-48 | passing by reference logs the object's own `getMessage`: decorated (undecorating gives the message back) for a `MyLogger`, the bare message for a base logger |
| `ObjectSlicing.MainScenario` | CommonMistakes/object_slicing.cpp:50-59 | the default base message is "BASE LOGGER INITIALIZED", `MyLogger("Preparing Logger")` reports its decoration, by value it logs "Preparing Logger" and by reference the decorated text |

## Left out

- Console output: every `std::cout` line in the constructors, operators, destructor and helpers, including `printBuffer`, `func` and the printing of `writeLogByVal`/`writeLogByRef`; the model keeps only the message those two would print.
- moderncpp1/main.cpp is not part of this model: it only drives the `Device` API through `std::unique_ptr` and `std::vector` and prints.
- `DataBuffer::operator+` has no body and no return statement, which is undefined behaviour; it is not modelled.
- Destructors and memory management: storage is modelled as present or null, with no allocator, so `delete[]`, leaks, double frees and allocation failure are not modelled.
- The bytes of `new Byte[n]` and `new BYTE[n]` are uninitialised in C++; the model states nothing about them. The loop that fills storage is modelled only where the source copies.
- `Device::m_buffer_data_size` is never initialised and is only copied by the move assignment; it is not modelled.
- A `const Byte*` printed as `char*` is not NUL-terminated; the model's `getData` returns the storage, not a printed string.
- Integer widths of the sizes: `m_data_size` is an `unsigned int` and `m_buffer_capacity` an `unsigned long`; the model uses unbounded naturals, so a `strlen` beyond 2^32 truncated into `m_data_size` is not modelled.
- `Devices.DeviceIdCounter.Take`: does not model signed overflow of `next_device_id` after 2^31 - 1 devices, which is undefined behaviour in C++.
- `RValueSample.MyClass.Plus`: requires the sum to fit in 32 bits instead of modelling signed overflow, which is undefined behaviour in C++.
- Self-move-assignment of a `Device`: the source has no guard, so `Devices.Device.MoveAssign` requires a distinct source.
- Compile-time mechanics: overload resolution between `func(const T&)` and `func(T&&)`, `explicit` constructors rejecting implicit conversions, and return value optimisation.
- Concurrency: `next_device_id` is not thread-safe in the source; the model is sequential.
- `MoveSemantic.MainScenario`: is stated over arbitrary C strings in place of the literals `"Hello"`, `"TempBuffer"` and `" Modern C++!"`; the concrete first step is `MoveSemantic.CapacityThenSetData`.
