/** The node that the motor controller is on the CAN bus, by CiA 301 (version 4.2.0): an object dictionary that
    SDO requests read and write, process data objects that are put together from it, and node guarding.

    Nothing here is taken from the program but the bytes it sends. */
module CanOpen {
  import opened Sdo
  import opened Supervisor
  import opened Bytes
  import opened Wire

  // ---- The object dictionary -----------------------------------------------------------------------

  /** The values of objects, by index and subindex. */
  type Dictionary = map<(nat, nat), nat>

  /** The objects that say what a process data object consists of. */
  predicate IsMapping(index: nat) {
    0x1600 <= index < 0x1800 || 0x1A00 <= index < 0x1C00
  }

  /** The sizes of objects, in bytes, as far as CiA 301 and CiA 402 have them: the parameters and the mapping of
      process data, the control word, and the mode of operation. */
  function SizeOf(index: nat, subindex: nat): Option<nat> {
    if IsMapping(index) then Some(if subindex == 0 then 1 else 4)
    else if 0x1400 <= index < 0x1600 || 0x1800 <= index < 0x1A00 then
      match subindex
      case 1 => Some(4)
      case 2 => Some(1)
      case 3 => Some(2)
      case 5 => Some(2)
      case _ => None
    else
      match index
      case 0x6040 => Some(2)
      case 0x6060 => Some(1)
      case _ => None
  }

  /** The data written to an object have its size, and the entries of a mapping can only be written while their
      number is zero. */
  predicate Accepts(d: Dictionary, s: Served) {
    match s
    case Download(index, subindex, data) =>
      && SizeOf(index, subindex) in {None, Some(|data|)}
      && (IsMapping(index) && subindex > 0 ==> (index, 0) in d && d[(index, 0)] == 0)
    case Upload(_, _) => true
    case Refused => false
  }

  function Told(d: Dictionary, s: Served): Dictionary {
    if s.Download? && Accepts(d, s) then d[(s.index, s.subindex) := Value(s.data)] else d
  }

  /** The answer of a server that accepts a request, byte by byte. The value is that of the object which is
      read. */
  function Confirming(m: Message, value: int): Message {
    if m[0] / 32 == 1 then [0x60, m[1], m[2], m[3], 0, 0, 0, 0]
    else [0x43, m[1], m[2], m[3], ByteAt(value, 0), ByteAt(value, 1), ByteAt(value, 2), ByteAt(value, 3)]
  }

  /** The answer to a request. */
  function Response(d: Dictionary, m: Message, value: int): Message {
    if Accepts(d, ServerReads(m)) then Confirming(m, value) else [0x80, m[1], m[2], m[3], 0x22, 0x00, 0x00, 0x08]
  }

  /** A request that can be sent as an expedited transfer. */
  predicate Fits(r: Request) {
    r.index < 0x1_0000 && r.subindex < 0x100 && (r.isWrite ==> 1 <= r.size <= 4)
  }

  /** What the program makes of the answer to its request, if it is accepted. */
  lemma ConfirmingReceived(r: Request, value: int)
    requires Fits(r)
    ensures Received(0x581, Confirming(Encoded(r), value)) ==
            if r.isWrite then WriteAck(r.index, r.subindex)
            else ReadValue(r.index, r.subindex, value % 0x1_0000_0000)
  {
    var m := Encoded(r);
    ServerReadsRequest(r);
    var answer := Confirming(m, value);
    assert IndexIn(answer) == IndexIn(m) == r.index && answer[3] == m[3] == r.subindex;
    if !r.isWrite {
      BytesOfValue(value, 4, answer);
    }
  }

  /** And if it is refused. */
  lemma RefusalReceived(d: Dictionary, r: Request, value: int)
    requires Fits(r) && !Accepts(d, ServerReads(Encoded(r)))
    ensures r.isWrite
    ensures Received(0x581, Response(d, Encoded(r), value)) == AbortAck(r.index, r.subindex, 0x0800_0022)
  {
    var m := Encoded(r);
    ServerReadsRequest(r);
    var answer := Response(d, m, value);
    hide Encoded, ServerReads, Accepts;
    assert IndexIn(answer) == IndexIn(m) == r.index && answer[3] == m[3] == r.subindex;
    assert answer[4..8] == [0x22, 0x00, 0x00, 0x08];
    ValueFour(0x22, 0x00, 0x00, 0x08);
  }

  /** Messages of other kinds are not heard: emergencies, synchronisation, other process data, and requests. */
  lemma OthersNotHeard(id: nat, m: Message)
    requires id / 128 !in {3, 5, 11, 14}
    ensures Received(id, m) == OtherFrame
  {
  }

  // ---- Network management --------------------------------------------------------------------------

  /** The state of the node after a network command to the node 1, or to all: 0x04 is stopped, 0x05 operational,
      and 0x7F pre-operational. */
  function StateAfter(state: nat, m: Message): nat {
    if m[1] !in {0, 1} then state
    else
      match m[0]
      case 0x01 => 0x05
      case 0x02 => 0x04
      case 0x80 => 0x7F
      case 0x81 => 0x7F
      case 0x82 => 0x7F
      case _ => state
  }

  /** The message by which a node tells its state, with a bit that toggles. */
  function Guard(state: nat, toggle: bool, rest: Message): Message
    requires state < 0x80
  {
    rest[0 := state + if toggle then 0x80 else 0]
  }

  lemma GuardReceived(state: nat, toggle: bool, rest: Message)
    requires state < 0x80
    ensures Received(0x701, Guard(state, toggle, rest)) == NodeGuard(state)
  {
  }

  // ---- Process data --------------------------------------------------------------------------------

  /** What the drive measures and tells of itself. */
  datatype Readings = Readings(status: bv16, mode: bv8, position: int, velocity: int)

  function Reading(r: Readings, index: nat, subindex: nat): int {
    if subindex != 0 then 0
    else
      match index
      case 0x6041 => r.status as int
      case 0x6061 => r.mode as int
      case 0x6064 => r.position
      case 0x606C => r.velocity
      case _ => 0
  }

  function LowBytes(value: int, n: nat): seq<byte>
    requires n <= 4
  {
    [ByteAt(value, 0), ByteAt(value, 1), ByteAt(value, 2), ByteAt(value, 3)][..n]
  }

  /** An entry of a mapping has the index of the object in its high half, then the subindex, and in its lowest
      byte the number of bits. */
  function EntryBytes(entry: nat, r: Readings): seq<byte>
    requires entry % 0x100 <= 32
  {
    LowBytes(Reading(r, entry / 0x1_0000, entry / 0x100 % 0x100), entry % 0x100 / 8)
  }

  /** The first n objects of a mapping, one after the other. */
  function Mapped(d: Dictionary, index: nat, n: nat, r: Readings): Option<seq<byte>> {
    if n == 0 then Some([])
    else
      match Mapped(d, index, n - 1, r)
      case None => None
      case Some(bytes) =>
        if (index, n) in d && d[(index, n)] % 0x100 <= 32 then Some(bytes + EntryBytes(d[(index, n)], r)) else None
  }

  /** The identifier and the data of the transmit PDO of that number, counted from zero, which the node sends
      when something has changed: its communication parameters are at 0x1800, its mapping at 0x1A00. The highest
      bit of the identifier would say that it does not exist, and a transmission type below 0xFE that it waits
      for a message of somebody else. */
  function Pdo(d: Dictionary, number: nat, r: Readings, rest: Message): Option<(nat, Message)> {
    var (communication, mapping) := (0x1800 + number, 0x1A00 + number);
    if !({(communication, 1), (communication, 2), (mapping, 0)} <= d.Keys) then None
    else if d[(mapping, 0)] == 0 || d[(communication, 1)] >= 0x8000_0000 || d[(communication, 2)] < 0xFE then None
    else
      match Mapped(d, mapping, d[(mapping, 0)], r)
      case None => None
      case Some(bytes) =>
        if |bytes| > 8 then None else Some((d[(communication, 1)] % 0x800, bytes + rest[|bytes|..]))
  }

  /** The shortest and the longest time between two transmissions, in microseconds. The first is given in units
      of a tenth of a millisecond, the second in milliseconds. */
  function Pace(d: Dictionary, number: nat): Option<(nat, nat)> {
    var communication := 0x1800 + number;
    if {(communication, 3), (communication, 5)} <= d.Keys
    then Some((100 * d[(communication, 3)], 1000 * d[(communication, 5)]))
    else None
  }

  // ---- The configuration ---------------------------------------------------------------------------

  function ToldAll(d: Dictionary, rs: seq<Request>): Dictionary
    decreases |rs|
  {
    if rs == [] then d else ToldAll(Told(d, ServerReads(Encoded(rs[0]))), rs[1..])
  }

  /** Each of these requests is accepted when its turn comes. */
  predicate AllAccepted(d: Dictionary, rs: seq<Request>)
    decreases |rs|
  {
    rs == [] || (Accepts(d, ServerReads(Encoded(rs[0]))) && AllAccepted(Told(d, ServerReads(Encoded(rs[0]))), rs[1..]))
  }

  function KeyAt(i: nat): (nat, nat)
    requires i < CONFIG_SIZE
  {
    (ConfigEntry(i).0, ConfigEntry(i).1)
  }

  /** No later one of the first n configuration writes is to the same object. */
  predicate Latest(i: nat, n: nat)
    requires i < n <= CONFIG_SIZE
  {
    forall k :: i < k < n ==> KeyAt(k) != KeyAt(i)
  }

  /** The first n configuration writes have been carried out. */
  ghost predicate CarriedOut(d: Dictionary, n: nat)
    requires n <= CONFIG_SIZE
  {
    forall i :: 0 <= i < n && Latest(i, n) ==> KeyAt(i) in d && d[KeyAt(i)] == ConfigEntry(i).2
  }

  lemma WriteAt(i: nat)
    requires i < CONFIG_SIZE
    ensures Fits(ConfigWrite(i))
    ensures var s := ServerReads(Encoded(ConfigWrite(i)));
            && s.Download? && (s.index, s.subindex) == KeyAt(i) && Value(s.data) == ConfigEntry(i).2
            && SizeOf(s.index, s.subindex) == Some(|s.data|)
  {
    hide ServerReads, Encoded, Value;
    ConfigFits(i);
    ConfigArrives(i);
  }

  lemma LatestBefore(i: nat, n: nat)
    requires i < n < CONFIG_SIZE && Latest(i, n + 1)
    ensures Latest(i, n) && KeyAt(n) != KeyAt(i)
  {
    hide KeyAt;
  }

  /** Before the entries of a mapping are written, its number of entries is. */
  lemma NumberFirst(n: nat)
    requires n < CONFIG_SIZE && IsMapping(KeyAt(n).0) && KeyAt(n).1 > 0
    ensures exists i :: 0 <= i < n && KeyAt(i) == (KeyAt(n).0, 0) && ConfigEntry(i).2 == 0 && Latest(i, n)
  {
    var i := if n <= 2 then 0 else if n <= 10 then 8 else 16;
    assert KeyAt(i) == (KeyAt(n).0, 0) && ConfigEntry(i).2 == 0 && Latest(i, n);
  }

  lemma OneMore(d: Dictionary, n: nat)
    requires n < CONFIG_SIZE && CarriedOut(d, n)
    ensures var s := ServerReads(Encoded(ConfigWrite(n)));
            Accepts(d, s) && CarriedOut(Told(d, s), n + 1)
  {
    hide ServerReads, Encoded, ConfigEntry, Value, Latest, ConfigWrite, SizeOf;
    WriteAt(n);
    var s := ServerReads(Encoded(ConfigWrite(n)));
    if IsMapping(KeyAt(n).0) && KeyAt(n).1 > 0 {
      NumberFirst(n);
      var i :| 0 <= i < n && KeyAt(i) == (KeyAt(n).0, 0) && ConfigEntry(i).2 == 0 && Latest(i, n);
      assert d[KeyAt(i)] == 0;
    }
    forall i | 0 <= i < n + 1 && Latest(i, n + 1)
      ensures KeyAt(i) in Told(d, s) && Told(d, s)[KeyAt(i)] == ConfigEntry(i).2
    {
      if i < n {
        LatestBefore(i, n);
      }
    }
  }

  /** The whole configuration has been carried out. */
  ghost predicate Configured(d: Dictionary) {
    CarriedOut(d, CONFIG_SIZE)
  }

  /** Only the numbers of entries are written twice. */
  lemma KeysDiffer(i: nat, k: nat)
    requires i < k < CONFIG_SIZE && i !in {0, 8, 16}
    ensures KeyAt(k) != KeyAt(i)
  {
  }

  lemma Held(d: Dictionary, i: nat)
    requires Configured(d) && i < CONFIG_SIZE && i !in {0, 8, 16}
    ensures KeyAt(i) in d && d[KeyAt(i)] == ConfigEntry(i).2
  {
    hide KeyAt, ConfigEntry;
    forall k | i < k < CONFIG_SIZE ensures KeyAt(k) != KeyAt(i) {
      KeysDiffer(i, k);
    }
  }

  /** What the first two transmit PDOs consist of, which are the ones the program listens to. */
  lemma FirstTwoMapped(d: Dictionary)
    requires Configured(d)
    ensures {(0x1A00, 0), (0x1A00, 1), (0x1A00, 2), (0x1A01, 0), (0x1A01, 1), (0x1A01, 2)} <= d.Keys
    ensures d[(0x1A00, 0)] == 2 && d[(0x1A00, 1)] == 0x6041_0010 && d[(0x1A00, 2)] == 0x6061_0008
    ensures d[(0x1A01, 0)] == 2 && d[(0x1A01, 1)] == 0x6064_0020 && d[(0x1A01, 2)] == 0x606C_0020
  {
    hide Configured;
    Held(d, 1);
    Held(d, 2);
    Held(d, 3);
    Held(d, 9);
    Held(d, 10);
    Held(d, 11);
  }

  lemma FirstTwoSent(d: Dictionary)
    requires Configured(d)
    ensures {(0x1800, 1), (0x1800, 2), (0x1801, 1), (0x1801, 2)} <= d.Keys
    ensures d[(0x1800, 1)] == 0x4000_0181 && d[(0x1800, 2)] == 0xFF
    ensures d[(0x1801, 1)] == 0x4000_0281 && d[(0x1801, 2)] == 0xFF
  {
    hide Configured;
    Held(d, 4);
    Held(d, 5);
    Held(d, 12);
    Held(d, 13);
  }

  lemma MappedTwo(d: Dictionary, index: nat, r: Readings)
    requires {(index, 1), (index, 2)} <= d.Keys && d[(index, 1)] % 0x100 <= 32 && d[(index, 2)] % 0x100 <= 32
    ensures Mapped(d, index, 2, r) == Some(EntryBytes(d[(index, 1)], r) + EntryBytes(d[(index, 2)], r))
  {
    hide EntryBytes;
    assert Mapped(d, index, 0, r) == Some([]);
    assert [] + EntryBytes(d[(index, 1)], r) == EntryBytes(d[(index, 1)], r);
    assert Mapped(d, index, 1, r) == Some(EntryBytes(d[(index, 1)], r));
  }

  // ---- Round trips -----------------------------------------------------------------------------------

  lemma WordOfBytes(low: byte, high: byte, n: nat)
    requires low + 0x100 * high == n && n < 0x1_0000
    ensures Status16(low, high) == n as bv16
  {
  }

  lemma WordBytes(n: nat)
    requires n < 0x1_0000
    ensures ByteAt(n, 0) + 0x100 * ByteAt(n, 1) == n
  {
  }

  lemma StatusRestored(status: bv16)
    ensures Status16(ByteAt(status as int, 0), ByteAt(status as int, 1)) == status
  {
    hide Status16, ByteAt;
    WordBytes(status as int);
    WordOfBytes(ByteAt(status as int, 0), ByteAt(status as int, 1), status as int);
  }

  lemma SmallByte(n: nat)
    requires n < 0x100
    ensures ByteAt(n, 0) == n
  {
  }

  lemma ModeRestored(mode: bv8)
    ensures (ByteAt(mode as int, 0) as bv8) == mode
  {
    hide ByteAt;
    SmallByte(mode as int);
  }

  lemma StatusBytes(r: Readings)
    ensures EntryBytes(0x6041_0010, r) == [ByteAt(r.status as int, 0), ByteAt(r.status as int, 1)]
    ensures EntryBytes(0x6061_0008, r) == [ByteAt(r.mode as int, 0)]
  {
    hide ByteAt;
  }

  lemma MotionBytes(r: Readings)
    ensures EntryBytes(0x6064_0020, r) == LowBytes(r.position, 4)
    ensures EntryBytes(0x606C_0020, r) == LowBytes(r.velocity, 4)
    ensures |LowBytes(r.position, 4)| == |LowBytes(r.velocity, 4)| == 4
  {
    hide ByteAt;
  }

  /** A node that has been configured sends its status word and its mode of operation as they are received,
      whatever they are, and whatever follows them in the message. */
  lemma StatusArrives(d: Dictionary, r: Readings, rest: Message)
    requires Configured(d)
    ensures var sent := Pdo(d, 0, r, rest);
            sent.Some? && Received(sent.value.0, sent.value.1) == Status(r.status, r.mode)
  {
    hide Configured, ByteAt, Status16, EntryBytes, Mapped;
    FirstTwoMapped(d);
    FirstTwoSent(d);
    MappedTwo(d, 0x1A00, r);
    StatusBytes(r);
    StatusRestored(r.status);
    ModeRestored(r.mode);
  }

  lemma Restored32(position: int)
    requires -0x8000_0000 <= position < 0x8000_0000
    ensures Signed32(Value(LowBytes(position, 4))) == position
  {
    ByteValues(position);
    hide Value, ByteAt;
    var bytes := [ByteAt(position, 0), ByteAt(position, 1), ByteAt(position, 2), ByteAt(position, 3)];
    assert LowBytes(position, 4) == bytes;
  }

  /** And the position, whatever the velocity is. */
  lemma MotionArrives(d: Dictionary, r: Readings, rest: Message)
    requires Configured(d) && -0x8000_0000 <= r.position < 0x8000_0000
    ensures var sent := Pdo(d, 1, r, rest);
            sent.Some? && Received(sent.value.0, sent.value.1) == Motion(r.position)
  {
    hide Configured, ByteAt, EntryBytes, Mapped, LowBytes, Value, Signed32;
    FirstTwoMapped(d);
    FirstTwoSent(d);
    MappedTwo(d, 0x1A01, r);
    MotionBytes(r);
    Restored32(r.position);
    var m := Pdo(d, 1, r, rest).value.1;
    assert m[0..4] == LowBytes(r.position, 4);
  }

  /** Both are sent at most once a millisecond and at least every ten. */
  lemma PaceConfigured(d: Dictionary)
    requires Configured(d)
    ensures Pace(d, 0) == Pace(d, 1) == Some((1_000, 10_000))
  {
    hide Configured;
    Held(d, 6);
    Held(d, 7);
    Held(d, 14);
    Held(d, 15);
  }

  /** The node sends no other PDO, whose identifiers are the ones that are meant for them, and would take an
      interpolated position of 32 bits at each synchronisation. */
  lemma OthersConfigured(d: Dictionary, r: Readings, rest: Message)
    requires Configured(d)
    ensures Pdo(d, 2, r, rest) == Pdo(d, 3, r, rest) == None
    ensures {(0x1802, 1), (0x1803, 1)} <= d.Keys && d[(0x1802, 1)] == 0x4000_0381 && d[(0x1803, 1)] == 0x4000_0481
    ensures {(0x1601, 0), (0x1601, 1), (0x1401, 2)} <= d.Keys
    ensures d[(0x1601, 0)] == 1 && d[(0x1601, 1)] == 0x60C1_0120 && d[(0x1401, 2)] == 1
  {
    hide Configured;
    Held(d, 17);
    Held(d, 18);
    Held(d, 19);
    Held(d, 20);
    Held(d, 21);
    Held(d, 22);
    Held(d, 23);
  }

  // ---- From any dictionary ---------------------------------------------------------------------------

  lemma {:induction false} UploadAccepted(d: Dictionary, n: nat)
    requires n <= CONFIG_SIZE && CarriedOut(d, n)
    ensures AllAccepted(d, Config()[n..]) && Configured(ToldAll(d, Config()[n..]))
    decreases CONFIG_SIZE - n
  {
    hide CarriedOut, Config, ConfigWrite, Told, Accepts, ServerReads, Encoded;
    ConfigAt();
    if n < CONFIG_SIZE {
      OneMore(d, n);
      assert Config()[n..][0] == ConfigWrite(n) && Config()[n..][1..] == Config()[n + 1..];
      UploadAccepted(Told(d, ServerReads(Encoded(ConfigWrite(n)))), n + 1);
    }
  }

  lemma ConfigAt()
    ensures |Config()| == CONFIG_SIZE && forall i :: 0 <= i < CONFIG_SIZE ==> Config()[i] == ConfigWrite(i)
  {
    hide ConfigWrite;
  }

  /** A node accepts the whole configuration, in the order in which it is sent, whatever its dictionary held
      before, and is configured then. */
  lemma ConfigConfigures(d: Dictionary)
    ensures AllAccepted(d, Config()) && Configured(ToldAll(d, Config()))
  {
    hide Configured, Config;
    NothingYet(d);
    UploadAccepted(d, 0);
    assert Config()[0..] == Config();
  }

  lemma NothingYet(d: Dictionary)
    ensures CarriedOut(d, 0)
  {
  }
}
