/** `Device`: a record that owns a byte buffer, draws its id from an
    auto-incrementing counter, labels its status and type through fixed tables,
    keeps an append-only comment, and supports copy and move construction and
    move assignment. */
module Devices {
  import opened CTypes

  /** `DEFAULT_BUFFER_CAPACITY` */
  const DEFAULT_BUFFER_CAPACITY: nat := 32

  /** `DEVICE_STATUS` */
  datatype DeviceStatus = Ready | Starting | Idle | Fault | Stopped

  /** `DEVICE_TYPE` */
  datatype DeviceType = Gpio | Keyboard | Mouse | Display | Printer

  /** `device_status_labels` */
  const DeviceStatusLabels: map<DeviceStatus, string> :=
    map[Ready := "READY", Starting := "STARTING", Idle := "IDLE", Fault := "FAULT", Stopped := "STOPPED"]

  /** `device_type_labels` */
  const DeviceTypeLabels: map<DeviceType, string> :=
    map[Keyboard := "KEYBOARD", Mouse := "MOUSE", Display := "DISPLAY", Gpio := "GENERIC_IO", Printer := "PRINTER"]

  /** `device_status_labels.at(s)`: the table has an entry for every status, so the
      lookup never throws. */
  function StatusLabel(s: DeviceStatus): (l: string)
    ensures s in DeviceStatusLabels && l == DeviceStatusLabels[s]
  {
    StatusLabelsTotal(s);
    DeviceStatusLabels[s]
  }

  /** `device_type_labels.at(t)`: the table has an entry for every type. */
  function TypeLabel(t: DeviceType): (l: string)
    ensures t in DeviceTypeLabels && l == DeviceTypeLabels[t]
  {
    TypeLabelsTotal(t);
    DeviceTypeLabels[t]
  }

  /** Each status is labelled with its own name. */
  lemma StatusLabelNames()
    ensures StatusLabel(Ready) == "READY" && StatusLabel(Starting) == "STARTING"
    ensures StatusLabel(Idle) == "IDLE" && StatusLabel(Fault) == "FAULT"
    ensures StatusLabel(Stopped) == "STOPPED"
  {
  }

  /** GPIO is labelled "GENERIC_IO"; every other type with its own name. */
  lemma TypeLabelNames()
    ensures TypeLabel(Gpio) == "GENERIC_IO" && TypeLabel(Keyboard) == "KEYBOARD"
    ensures TypeLabel(Mouse) == "MOUSE" && TypeLabel(Display) == "DISPLAY"
    ensures TypeLabel(Printer) == "PRINTER"
  {
  }

  /** The status table has an entry for every status. */
  lemma StatusLabelsTotal(s: DeviceStatus)
    ensures s in DeviceStatusLabels
  {
  }

  /** The type table has an entry for every type. */
  lemma TypeLabelsTotal(t: DeviceType)
    ensures t in DeviceTypeLabels
  {
  }

  /** No two statuses share a label. */
  lemma StatusLabelsDistinct(s: DeviceStatus, u: DeviceStatus)
    ensures StatusLabel(s) == StatusLabel(u) ==> s == u
  {
  }

  /** No two types share a label. */
  lemma TypeLabelsDistinct(t: DeviceType, u: DeviceType)
    ensures TypeLabel(t) == TypeLabel(u) ==> t == u
  {
  }

  /** The static `Device::next_device_id`, passed to the constructors explicitly. */
  class DeviceIdCounter {
    var next: int

    /** `int Device::next_device_id = 1;` */
    constructor ()
      ensures next == 1
    {
      next := 1;
    }

    /** `next_device_id++`: yields the current value and advances the counter by one. */
    method Take() returns (id: int)
      modifies this
      ensures id == old(next) && next == old(next) + 1
    {
      id := next;
      next := next + 1;
    }
  }

  /** `addCommentToDevice`'s update of the comment. */
  function AppendComment(comment: string, t: string): string {
    comment + "\n" + t
  }

  /** The comment after `addCommentToDevice` is called with each of `ts` in turn. */
  function CommentAfter(comment: string, ts: seq<string>): string
    decreases |ts|
  {
    if ts == [] then comment else CommentAfter(AppendComment(comment, ts[0]), ts[1..])
  }

  /** The text the calls `ts` add: each comment on a line of its own. */
  function Lines(ts: seq<string>): string
    decreases |ts|
  {
    if ts == [] then "" else "\n" + ts[0] + Lines(ts[1..])
  }

  /** Adding comments only appends: the old comment is kept as a prefix, followed
      by every added comment in order, each after a newline. */
  lemma {:induction false} CommentAfterAppends(comment: string, ts: seq<string>)
    ensures CommentAfter(comment, ts) == comment + Lines(ts)
    decreases |ts|
  {
    if ts != [] {
      CommentAfterAppends(AppendComment(comment, ts[0]), ts[1..]);
    }
  }

  /** Later comments never disturb earlier ones. */
  lemma CommentHistoryIsPrefix(comment: string, ts: seq<string>, us: seq<string>)
    ensures CommentAfter(comment, ts) <= CommentAfter(comment, ts + us)
  {
    CommentAfterAppends(comment, ts);
    CommentAfterAppends(comment, ts + us);
    LinesConcat(ts, us);
  }

  /** The text two batches of comments add is the first batch's text followed by
      the second's. */
  lemma {:induction false} LinesConcat(ts: seq<string>, us: seq<string>)
    ensures Lines(ts + us) == Lines(ts) + Lines(us)
    decreases |ts|
  {
    if ts != [] {
      assert (ts + us)[0] == ts[0] && (ts + us)[1..] == ts[1..] + us;
      LinesConcat(ts[1..], us);
    } else {
      assert ts + us == us;
    }
  }

  class Device {
    /** `m_id`: const, so no operation after construction changes it */
    const id: int
    /** `m_type` */
    var deviceType: DeviceType
    /** `m_status` */
    var status: DeviceStatus
    /** `m_comment` */
    var comment: string
    /** `m_buffer_capacity` */
    var capacity: nat
    /** `m_buffer`; null once the buffer has been moved out */
    var buffer: array?<Byte>

    /** Either the device owns a buffer of exactly `capacity` bytes, or it is a
        moved-from tombstone with no buffer and capacity 0. */
    predicate Valid()
      reads this
    {
      if buffer == null then capacity == 0 else buffer.Length == capacity
    }

    /** `Device()`: the next id, type GPIO, status STARTING, a fresh buffer of
        `DEFAULT_BUFFER_CAPACITY` bytes. */
    constructor (counter: DeviceIdCounter)
      modifies counter
      ensures id == old(counter.next) && counter.next == old(counter.next) + 1
      ensures deviceType == Gpio && status == Starting && comment == ""
      ensures Valid() && capacity == DEFAULT_BUFFER_CAPACITY && buffer != null && fresh(buffer)
    {
      var nextId := counter.Take();
      id := nextId;
      deviceType, status, comment := Gpio, Starting, "";
      capacity := DEFAULT_BUFFER_CAPACITY;
      buffer := new Byte[DEFAULT_BUFFER_CAPACITY];
    }

    /** `explicit Device(DATA_SIZE t_buffer_size)`: as the default constructor, with
        the given capacity. */
    constructor WithCapacity(counter: DeviceIdCounter, bufferSize: nat)
      modifies counter
      ensures id == old(counter.next) && counter.next == old(counter.next) + 1
      ensures deviceType == Gpio && status == Starting && comment == ""
      ensures Valid() && capacity == bufferSize && buffer != null && fresh(buffer)
    {
      var nextId := counter.Take();
      id := nextId;
      deviceType, status, comment := Gpio, Starting, "";
      capacity := bufferSize;
      buffer := new Byte[bufferSize];
    }

    /** `Device(DEVICE_TYPE, DEVICE_STATUS, DATA_SIZE)`: the next id and the three
        given values. */
    constructor Typed(counter: DeviceIdCounter, t: DeviceType, s: DeviceStatus, bufferSize: nat)
      modifies counter
      ensures id == old(counter.next) && counter.next == old(counter.next) + 1
      ensures deviceType == t && status == s && comment == ""
      ensures Valid() && capacity == bufferSize && buffer != null && fresh(buffer)
    {
      var nextId := counter.Take();
      id := nextId;
      deviceType, status, comment := t, s, "";
      capacity := bufferSize;
      buffer := new Byte[bufferSize];
    }

    /** `Device(int t_id, DEVICE_TYPE, DEVICE_STATUS, DATA_SIZE)`: the given id; no
        counter is involved. */
    constructor WithId(givenId: int, t: DeviceType, s: DeviceStatus, bufferSize: nat)
      ensures id == givenId && deviceType == t && status == s && comment == ""
      ensures Valid() && capacity == bufferSize && buffer != null && fresh(buffer)
    {
      id := givenId;
      deviceType, status, comment := t, s, "";
      capacity := bufferSize;
      buffer := new Byte[bufferSize];
    }

    /** Copy constructor: id, type, status and capacity of the source, a fresh buffer
        of that capacity (its bytes are not copied) and an empty comment. */
    constructor Copy(source: Device)
      ensures id == source.id && deviceType == source.deviceType && status == source.status
      ensures comment == ""
      ensures Valid() && capacity == source.capacity && buffer != null && fresh(buffer)
    {
      id := source.id;
      deviceType, status, comment := source.deviceType, source.status, "";
      capacity := source.capacity;
      buffer := new Byte[source.capacity];
    }

    /** Move constructor: id, type and status of the source (the counter is not
        touched), the members' default initialisers for the rest, then a move
        assignment from the source, which leaves the source a tombstone. */
    constructor Move(source: Device)
      requires source.Valid()
      modifies source
      ensures id == source.id
      ensures deviceType == old(source.deviceType) && status == old(source.status)
      ensures comment == old(source.comment)
      ensures Valid() && capacity == old(source.capacity) && buffer == old(source.buffer)
      ensures source.Valid() && source.buffer == null && source.capacity == 0
      ensures source.deviceType == Gpio && source.status == Stopped && source.comment == ""
    {
      id := source.id;
      deviceType, status, comment := source.deviceType, source.status, "";
      capacity := DEFAULT_BUFFER_CAPACITY;
      buffer := new Byte[DEFAULT_BUFFER_CAPACITY];
      new;
      var _ := MoveAssign(source);
    }

    /** `operator=(Device&&)`: takes over the source's capacity, buffer, type, status
        and comment, and resets the source to a tombstone (no buffer, capacity 0,
        type GPIO, status STOPPED, empty comment). Neither id changes. There is no
        guard against self-assignment, so the source must be another device. */
    method MoveAssign(source: Device) returns (self: Device)
      requires source != this && Valid() && source.Valid()
      modifies this, source
      ensures self == this && Valid()
      ensures capacity == old(source.capacity) && buffer == old(source.buffer)
      ensures deviceType == old(source.deviceType) && status == old(source.status)
      ensures comment == old(source.comment)
      ensures source.buffer == null && source.capacity == 0 && source.Valid()
      ensures source.deviceType == Gpio && source.status == Stopped && source.comment == ""
    {
      capacity := source.capacity;
      buffer := source.buffer;
      source.buffer := null;
      source.capacity := 0;

      deviceType := source.deviceType;
      status := source.status;
      comment := source.comment;

      source.deviceType := Gpio;
      source.comment := "";
      source.status := Stopped;
      self := this;
    }

    /** `addCommentToDevice(t)`: appends a newline and `t` to the comment; nothing
        else changes. */
    method AddCommentToDevice(t: string)
      requires Valid()
      modifies this
      ensures Valid()
      ensures comment == AppendComment(old(comment), t)
      ensures deviceType == old(deviceType) && status == old(status)
      ensures capacity == old(capacity) && buffer == old(buffer)
    {
      comment := AppendComment(comment, t);
    }

    /** `getId()` */
    function GetId(): (i: int)
      ensures i == id
    {
      id
    }

    /** `getComment()` */
    function GetComment(): (c: string)
      reads this
      ensures c == comment
    {
      comment
    }

    /** `getStatusCode()` */
    function GetStatusCode(): (s: DeviceStatus)
      reads this
      ensures s == status
    {
      status
    }

    /** `getStatusLabel()`: the table's label of the status, which no other status
        shares, so the label tells the status. */
    function GetStatusLabel(): (l: string)
      reads this
      ensures status in DeviceStatusLabels && l == DeviceStatusLabels[status]
      ensures forall u: DeviceStatus :: StatusLabel(u) == l ==> u == status
    {
      StatusLabelsTotal(status);
      forall u: DeviceStatus ensures StatusLabel(u) == StatusLabel(status) ==> u == status {
        StatusLabelsDistinct(u, status);
      }
      StatusLabel(status)
    }

    /** `getTypeLabel()`: the table's label of the type, which no other type shares. */
    function GetTypeLabel(): (l: string)
      reads this
      ensures deviceType in DeviceTypeLabels && l == DeviceTypeLabels[deviceType]
      ensures forall u: DeviceType :: TypeLabel(u) == l ==> u == deviceType
    {
      TypeLabelsTotal(deviceType);
      forall u: DeviceType ensures TypeLabel(u) == TypeLabel(deviceType) ==> u == deviceType {
        TypeLabelsDistinct(u, deviceType);
      }
      TypeLabel(deviceType)
    }
  }

  /** Two devices created in turn from a fresh counter, the first given the comments
      `x` and then `y`: the ids are 1 and 2, and the comment holds both in order. */
  method TwoDevicesScenario(x: string, y: string) returns (first: Device, second: Device)
    ensures first.GetId() == 1 && second.GetId() == 2
    ensures first.GetComment() == "\n" + x + "\n" + y
    ensures first.GetStatusLabel() == "STARTING" && second.GetTypeLabel() == "GENERIC_IO"
  {
    var counter := new DeviceIdCounter();
    first := new Device(counter);
    second := new Device(counter);
    first.AddCommentToDevice(x);
    first.AddCommentToDevice(y);
  }
}
