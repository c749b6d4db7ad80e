/** CAN messages: SDO requests as they are sent, and the frames that are received.

    Expedited transfers follow section 7.2.4 of CiA 301 (version 4.2.0). */
module Wire {
  import opened Sdo
  import opened Supervisor
  import opened Bytes

  const MESSAGE_SIZE := 8

  type Message = m: seq<byte> | |m| == MESSAGE_SIZE witness [0, 0, 0, 0, 0, 0, 0, 0]

  /** Little-endian value of up to four bytes. */
  function Value(bytes: seq<byte>): (n: nat)
    decreases |bytes|
  {
    if bytes == [] then 0 else bytes[0] + 256 * Value(bytes[1..])
  }

  /** The low bytes of a value, lowest first. The value is first taken modulo 2^32. */
  function ByteAt(value: int, i: nat): byte
    requires i < 4
  {
    match i
    case 0 => value % 0x100
    case 1 => value / 0x100 % 0x100
    case 2 => value / 0x1_0000 % 0x100
    case 3 => value / 0x100_0000 % 0x100
  }

  function Power256(n: nat): nat {
    match n
    case 0 => 1
    case 1 => 0x100
    case 2 => 0x1_0000
    case 3 => 0x100_0000
    case _ => 0x1_0000_0000
  }

  const SDO_RESPONSE_ID := 0x0B * 128 + 1

  // ---- Requests --------------------------------------------------------------------------------

  /** The message of a request, byte by byte. */
  function Encoded(r: Request): Message {
    if r.isWrite
    then [(0x2F - (r.size - 1) * 4) % 0x100, r.index % 0x100, r.index / 0x100 % 0x100, r.subindex % 0x100,
          ByteAt(r.value, 0), ByteAt(r.value, 1), ByteAt(r.value, 2), ByteAt(r.value, 3)]
    else [0x40, r.index % 0x100, r.index / 0x100 % 0x100, r.subindex % 0x100, 0, 0, 0, 0]
  }

  /** Fill the message of a write request. */
  method FillWriteRequest(msg: array<byte>, index: nat, subindex: nat, value: int, size: nat)
    requires msg.Length == MESSAGE_SIZE
    modifies msg
    ensures forall callback :: msg[..] == Encoded(Request(true, index, subindex, value, size, callback))
  {
    msg[0] := (0x2F - (size - 1) * 4) % 0x100;
    msg[1] := index % 0x100;
    msg[2] := index / 0x100 % 0x100;
    msg[3] := subindex % 0x100;
    msg[4] := value % 0x100;
    msg[5] := value / 0x100 % 0x100;
    msg[6] := value / 0x1_0000 % 0x100;
    msg[7] := value / 0x100_0000 % 0x100;
  }

  /** Fill the message of a read request. */
  method FillReadRequest(msg: array<byte>, index: nat, subindex: nat)
    requires msg.Length == MESSAGE_SIZE
    modifies msg
    ensures msg[..] == Encoded(Read(index, subindex))
  {
    msg[0] := 0x40;
    msg[1] := index % 0x100;
    msg[2] := index / 0x100 % 0x100;
    msg[3] := subindex % 0x100;
    msg[4], msg[5], msg[6], msg[7] := 0, 0, 0, 0;
  }

  /** The message of a network command: the command and the number of the node. */
  function CommandMessage(command: byte): Message {
    [command, 1, 0, 0, 0, 0, 0, 0]
  }

  /** Fill the message of a network command. */
  method FillCommand(msg: array<byte>, command: byte)
    requires msg.Length == MESSAGE_SIZE
    modifies msg
    ensures msg[..] == CommandMessage(command)
  {
    msg[0] := command;
    msg[1] := 1;
    var i := 2;
    while i < 8
      invariant 2 <= i <= 8
      invariant msg[0] == command && msg[1] == 1 && forall k :: 2 <= k < i ==> msg[k] == 0
    {
      msg[i] := 0;
      i := i + 1;
    }
    assert msg[..] == [msg[0], msg[1], msg[2], msg[3], msg[4], msg[5], msg[6], msg[7]];
  }

  // ---- What a drive makes of a request -------------------------------------------------------------

  function IndexIn(m: Message): nat {
    (m[1] as nat) + 0x100 * (m[2] as nat)
  }

  datatype Served = Download(index: nat, subindex: nat, data: seq<byte>) | Upload(index: nat, subindex: nat) | Refused

  /** An SDO server that knows expedited transfers. The command byte holds the command in bits 7 to 5,
      the number of unused data bytes in bits 3 and 2, and two bits that say that the transfer is
      expedited and that the size is given. */
  function ServerReads(m: Message): Served {
    var index := IndexIn(m);
    if m[0] / 32 == 1 && m[0] % 4 == 3 then Download(index, m[3], m[4..8 - m[0] / 4 % 4])
    else if m[0] / 32 == 2 then Upload(index, m[3])
    else Refused
  }

  // ---- Received frames -----------------------------------------------------------------------------

  function Signed32(n: nat): int {
    if n < 0x8000_0000 then n else n - 0x1_0000_0000
  }

  function Status16(low: byte, high: byte): bv16 {
    (low + 0x100 * high) as bv16
  }

  /** What the interface makes of a message. */
  function Received(id: nat, m: Message): Frame {
    var index := IndexIn(m);
    match id / 128
    case 0x03 => Status(Status16(m[0], m[1]), m[2] as bv8)
    case 0x05 => Motion(Signed32(Value(m[0..4])))
    case 0x0E => NodeGuard(m[0] % 0x80)
    case 0x0B =>
      (match m[0]
       case 0x60 => WriteAck(index, m[3])
       case 0x43 => ReadValue(index, m[3], Value(m[4..8]))
       case 0x47 => ReadValue(index, m[3], Value(m[4..7]))
       case 0x4B => ReadValue(index, m[3], Value(m[4..6]))
       case 0x4F => ReadValue(index, m[3], Value(m[4..5]))
       case 0x80 => AbortAck(index, m[3], Value(m[4..8]))
       case _ => OtherFrame)
    case _ => OtherFrame
  }

  // ---- Round trips ---------------------------------------------------------------------------------

  lemma Bytes16(v: int)
    ensures v % 0x1_0000 == v % 0x100 + 0x100 * (v / 0x100 % 0x100)
  {
  }

  lemma Bytes24(v: int)
    ensures v % 0x100_0000 == v % 0x1_0000 + 0x1_0000 * (v / 0x1_0000 % 0x100)
  {
  }

  lemma Bytes32(v: int)
    ensures v % 0x1_0000_0000 == v % 0x100_0000 + 0x100_0000 * (v / 0x100_0000 % 0x100)
  {
  }

  lemma ByteValues(value: int)
    ensures Value([ByteAt(value, 0)]) == value % 0x100
    ensures Value([ByteAt(value, 0), ByteAt(value, 1)]) == value % 0x1_0000
    ensures Value([ByteAt(value, 0), ByteAt(value, 1), ByteAt(value, 2)]) == value % 0x100_0000
    ensures Value([ByteAt(value, 0), ByteAt(value, 1), ByteAt(value, 2), ByteAt(value, 3)]) == value % 0x1_0000_0000
  {
    hide Value;
    Bytes16(value);
    Bytes24(value);
    Bytes32(value);
    var a, b, c, d := ByteAt(value, 0), ByteAt(value, 1), ByteAt(value, 2), ByteAt(value, 3);
    ValueOne(a);
    ValueTwo(a, b);
    ValueThree(a, b, c);
    ValueFour(a, b, c, d);
  }

  lemma ValueOne(a: byte)
    ensures Value([a]) == a
  {
    assert Value([]) == 0;
  }

  lemma ValueTwo(a: byte, b: byte)
    ensures Value([a, b]) == a + 0x100 * b
  {
    assert [a, b][1..] == [b];
    ValueOne(b);
  }

  lemma ValueThree(a: byte, b: byte, c: byte)
    ensures Value([a, b, c]) == a + 0x100 * b + 0x1_0000 * c
  {
    assert [a, b, c][1..] == [b, c];
    ValueTwo(b, c);
  }

  lemma ValueFour(a: byte, b: byte, c: byte, d: byte)
    ensures Value([a, b, c, d]) == a + 0x100 * b + 0x1_0000 * c + 0x100_0000 * d
  {
    assert [a, b, c, d][1..] == [b, c, d];
    ValueThree(b, c, d);
  }

  /** The bytes of a value make up the value modulo the size. */
  lemma BytesOfValue(value: int, size: nat, m: Message)
    requires 1 <= size <= 4
    requires m[4..] == [ByteAt(value, 0), ByteAt(value, 1), ByteAt(value, 2), ByteAt(value, 3)]
    ensures Value(m[4..4 + size]) == value % Power256(size)
  {
    ByteValues(value);
    var bytes := [ByteAt(value, 0), ByteAt(value, 1), ByteAt(value, 2), ByteAt(value, 3)];
    assert m[4..4 + size] == bytes[..size];
    match size
    case 1 => assert bytes[..1] == [ByteAt(value, 0)];
    case 2 => assert bytes[..2] == [ByteAt(value, 0), ByteAt(value, 1)];
    case 3 => assert bytes[..3] == [ByteAt(value, 0), ByteAt(value, 1), ByteAt(value, 2)];
    case 4 => assert bytes[..4] == bytes;
  }

  lemma CommandByte(size: nat)
    requires 1 <= size <= 4
    ensures var command := (0x2F - (size - 1) * 4) % 0x100;
            command / 32 == 1 && command % 4 == 3 && command / 4 % 4 == 4 - size
  {
    match size
    case 1 =>
    case 2 =>
    case 3 =>
    case 4 =>
  }

  /** A server reads back from a request exactly what was asked for. A write of one to four bytes
      arrives as that many bytes, which make up the value modulo that size. */
  lemma ServerReadsRequest(r: Request)
    requires r.index < 0x1_0000 && r.subindex < 0x100 && (r.isWrite ==> 1 <= r.size <= 4)
    ensures match ServerReads(Encoded(r))
            case Download(index, subindex, data) =>
              r.isWrite && index == r.index && subindex == r.subindex
              && |data| == r.size && Value(data) == r.value % Power256(r.size)
            case Upload(index, subindex) => !r.isWrite && index == r.index && subindex == r.subindex
            case Refused => false
  {
    hide Value, ByteAt, Power256;
    var m := Encoded(r);
    assert IndexIn(m) == r.index;
    if r.isWrite {
      BytesOfValue(r.value, r.size, m);
      CommandByte(r.size);
    }
  }

  /** The bytes of a write, put into a response to a read of the same size, are received as the
      value modulo that size. */
  lemma WrittenValueReadBack(r: Request, m: Message)
    requires r.isWrite && r.index < 0x1_0000 && r.subindex < 0x100 && 1 <= r.size <= 4
    requires m == Encoded(r)[0 := Encoded(r)[0] + 0x20]
    ensures Received(SDO_RESPONSE_ID, m) == ReadValue(r.index, r.subindex, r.value % Power256(r.size))
  {
    var e := Encoded(r);
    assert m[4..] == e[4..];
    BytesOfValue(r.value, r.size, m);
    match r.size
    case 1 => assert m[0] == 0x4F;
    case 2 => assert m[0] == 0x4B;
    case 3 => assert m[0] == 0x47;
    case 4 => assert m[0] == 0x43;
  }

  lemma ConfigFits(i: nat)
    requires i < CONFIG_SIZE
    ensures var (index, subindex, value, size) := ConfigEntry(i);
            1 <= size <= 4 && index < 0x1_0000 && subindex < 0x100 && value % Power256(size) == value
  {
  }

  /** Every entry of the configuration reaches the drive with its own object, size and value. */
  lemma ConfigArrives(i: nat)
    requires i < CONFIG_SIZE
    ensures var (index, subindex, value, size) := ConfigEntry(i);
            var served := ServerReads(Encoded(ConfigWrite(i)));
            && served.Download? && served.index == index && served.subindex == subindex
            && |served.data| == size && Value(served.data) == value
  {
    hide ConfigEntry, ServerReads, Encoded;
    ConfigFits(i);
    ServerReadsRequest(ConfigWrite(i));
  }
}
