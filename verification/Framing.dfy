/** The RTC3D protocol over a byte stream: packets as they are sent, and the decoder that takes them
    in byte by byte, however the stream is cut. */
module Framing {
  import opened Bytes

  const PTYPE_ERROR := 0
  const PTYPE_COMMAND := 1

  // ---- Packets ------------------------------------------------------------------------------------

  datatype Packet = Command(text: seq<byte>) | ErrorText(text: seq<byte>)

  function Encoded(p: Packet): seq<byte> {
    Big32(8 + |p.text|) + Big32(if p.Command? then PTYPE_COMMAND else PTYPE_ERROR) + p.text
  }

  /** A short packet, byte for byte. */
  lemma PacketBytes(p: Packet)
    requires |p.text| < 248
    ensures Encoded(p) == [0, 0, 0, 8 + |p.text|, 0, 0, 0, if p.Command? then 1 else 0] + p.text
  {
  }

  /** A C string whose size the program can compute with. */
  predicate Sendable(p: Packet) {
    0 !in p.text && |p.text| < 0x7FFF_FFF8
  }

  /** rtc3d_send_command and rtc3d_send_error: fill a fresh buffer. */
  method Send(p: Packet) returns (buffer: array<byte>)
    requires Sendable(p)
    ensures fresh(buffer) && buffer[..] == Encoded(p)
  {
    hide Big32;
    var size := |p.text|;
    buffer := new byte[8 + size];
    assert buffer[..0] == [];
    PutBig32(buffer, 0, 8 + size);
    PutBig32(buffer, 4, if p.Command? then PTYPE_COMMAND else PTYPE_ERROR);
    ghost var header := buffer[..8];
    forall i | 0 <= i < size {
      buffer[8 + i] := p.text[i];
    }
    assert buffer[8..] == p.text;
    assert buffer[..8] == header;
    assert buffer[..] == buffer[..8] + buffer[8..];
  }

  // ---- The decoder as a value ----------------------------------------------------------------------

  /** What fresh memory holds: the byte at some offset of the n-th block that is allocated. */
  type Memory = (nat, nat) -> byte

  /** Header: some bytes of the size have been received. Body: some bytes of the payload have; they go
      to the end of a buffer of the given size, because their number is kept in eight bits. Stuck: that
      number is zero, and nothing more is ever taken in. Undefined: the size does not leave room for
      what is read or written at its end. */
  datatype Phase =
    | Header(got: seq<byte>)
    | Body(size: nat, received: seq<byte>)
    | Stuck
    | Undefined

  datatype Decoding = Decoding(phase: Phase, delivered: seq<seq<byte>>, blocks: nat)

  const START := Header([])
  const BEGINNING := Decoding(START, [], 0)

  predicate Valid(d: Decoding) {
    match d.phase
    case Header(got) => |got| < 4
    case Body(size, received) => 4 <= size < 0xFFFF_FFFF && |received| < size % 0x100
    case _ => true
  }

  /** The size of the payload, from the size of the packet, in 32 bits. */
  function PayloadSize(size: nat): nat {
    (size - 4) % 0x1_0000_0000
  }

  function AfterHeader(size: nat): Phase {
    var payload := PayloadSize(size);
    if payload % 0x100 == 0 then Stuck
    else if 4 <= payload < 0xFFFF_FFFF then Body(payload, [])
    else Undefined
  }

  /** A C string ends at the first zero. */
  function CString(b: seq<byte>): (text: seq<byte>)
    ensures |text| <= |b| && 0 !in text
    ensures 0 !in b ==> text == b
    decreases |b|
  {
    if b == [] || b[0] == 0 then [] else [b[0]] + CString(b[1..])
  }

  /** What a completed payload delivers: the text of a command; other packets are skipped. */
  function Delivery(payload: seq<byte>): seq<seq<byte>>
    requires |payload| >= 4
  {
    if FromBig32(payload[..4]) == PTYPE_COMMAND then [CString(payload[4..])] else []
  }

  /** The first bytes of a block that was just allocated. */
  function Fresh(memory: Memory, block: nat, count: nat): (b: seq<byte>)
    ensures |b| == count
  {
    seq(count, i requires 0 <= i < count => memory(block, i))
  }

  /** The payload that is handled: what was received stands at the end of the buffer. */
  function Filled(memory: Memory, block: nat, size: nat, received: seq<byte>): (b: seq<byte>)
    requires |received| <= size
    ensures |b| == size
  {
    Fresh(memory, block, size - |received|) + received
  }

  function Take(memory: Memory, d: Decoding, b: byte): (r: Decoding)
    requires Valid(d)
    ensures Valid(r)
  {
    match d.phase
    case Header(got) =>
      var got := got + [b];
      d.(phase := if |got| == 4 then AfterHeader(FromBig32(got)) else Header(got))
    case Body(size, received) =>
      var received := received + [b];
      if |received| == size % 0x100
      then Decoding(START, d.delivered + Delivery(Filled(memory, d.blocks, size, received)), d.blocks + 1)
      else d.(phase := Body(size, received))
    case _ => d
  }

  function TakeAll(memory: Memory, d: Decoding, bytes: seq<byte>): (r: Decoding)
    requires Valid(d)
    ensures Valid(r)
    decreases |bytes|
  {
    if bytes == [] then d else TakeAll(memory, Take(memory, d, bytes[0]), bytes[1..])
  }

  // ---- Fragmentation -------------------------------------------------------------------------------

  lemma {:induction false} TakeAllConcat(memory: Memory, d: Decoding, a: seq<byte>, b: seq<byte>)
    requires Valid(d)
    ensures TakeAll(memory, d, a + b) == TakeAll(memory, TakeAll(memory, d, a), b)
    decreases |a|
  {
    hide Take, Valid;
    if a == [] {
      assert a + b == b;
    } else {
      assert (a + b)[1..] == a[1..] + b;
      TakeAllConcat(memory, Take(memory, d, a[0]), a[1..], b);
    }
  }

  lemma TakeAllOne(memory: Memory, d: Decoding, b: byte)
    requires Valid(d)
    ensures TakeAll(memory, d, [b]) == Take(memory, d, b)
  {
    hide Take, Valid;
    assert TakeAll(memory, Take(memory, d, b), []) == Take(memory, d, b);
  }

  function Joined(chunks: seq<seq<byte>>): seq<byte>
    decreases |chunks|
  {
    if chunks == [] then [] else chunks[0] + Joined(chunks[1..])
  }

  function TakeChunks(memory: Memory, d: Decoding, chunks: seq<seq<byte>>): (r: Decoding)
    requires Valid(d)
    ensures Valid(r)
    decreases |chunks|
  {
    if chunks == [] then d else TakeChunks(memory, TakeAll(memory, d, chunks[0]), chunks[1..])
  }

  /** How the stream is cut makes no difference. */
  lemma {:induction false} CutsDoNotMatter(memory: Memory, d: Decoding, chunks: seq<seq<byte>>)
    requires Valid(d)
    ensures TakeChunks(memory, d, chunks) == TakeAll(memory, d, Joined(chunks))
    decreases |chunks|
  {
    hide Take, Valid;
    if chunks != [] {
      TakeAllConcat(memory, d, chunks[0], Joined(chunks[1..]));
      CutsDoNotMatter(memory, TakeAll(memory, d, chunks[0]), chunks[1..]);
    }
  }

  // ---- One packet ----------------------------------------------------------------------------------

  /** The longest text that arrives: its packet's payload has 255 bytes. */
  const LONGEST := 251

  lemma TakeHeader(memory: Memory, d: Decoding, b: seq<byte>)
    requires d.phase == START && |b| == 4
    ensures TakeAll(memory, d, b) == d.(phase := AfterHeader(FromBig32(b)))
  {
    hide AfterHeader, FromBig32;
    var d1 := d.(phase := Header([b[0]]));
    var d2 := d.(phase := Header([b[0], b[1]]));
    var d3 := d.(phase := Header([b[0], b[1], b[2]]));
    assert [b[0]] + [b[1]] == [b[0], b[1]] && [b[0], b[1]] + [b[2]] == [b[0], b[1], b[2]];
    assert [b[0], b[1], b[2]] + [b[3]] == b;
    assert Take(memory, d, b[0]) == d1;
    assert Take(memory, d1, b[1]) == d2;
    assert Take(memory, d2, b[2]) == d3;
    assert Take(memory, d3, b[3]) == d.(phase := AfterHeader(FromBig32(b)));
    var d4 := Take(memory, d3, b[3]);
    assert TakeAll(memory, d4, []) == d4;
    assert b[3..][1..] == [] && b[2..][1..] == b[3..] && b[1..][1..] == b[2..];
    assert TakeAll(memory, d3, b[3..]) == d4;
    assert TakeAll(memory, d2, b[2..]) == TakeAll(memory, d3, b[3..]);
    assert TakeAll(memory, d1, b[1..]) == TakeAll(memory, d2, b[2..]);
  }

  lemma {:induction false} TakeBody(memory: Memory, d: Decoding, rest: seq<byte>)
    requires Valid(d) && d.phase.Body? && |d.phase.received| + |rest| == d.phase.size % 0x100
    ensures var payload := Filled(memory, d.blocks, d.phase.size, d.phase.received + rest);
            TakeAll(memory, d, rest) == Decoding(START, d.delivered + Delivery(payload), d.blocks + 1)
    decreases |rest|
  {
    hide Delivery, Filled;
    var received := d.phase.received + [rest[0]];
    assert d.phase.received + rest == received + rest[1..];
    if |rest| == 1 {
      assert received + rest[1..] == received;
      assert TakeAll(memory, Take(memory, d, rest[0]), []) == Take(memory, d, rest[0]);
    } else {
      TakeBody(memory, Take(memory, d, rest[0]), rest[1..]);
    }
  }

  lemma {:induction false} Absorbed(memory: Memory, d: Decoding, bytes: seq<byte>)
    requires d.phase.Stuck? || d.phase.Undefined?
    ensures TakeAll(memory, d, bytes) == d
    decreases |bytes|
  {
    if bytes != [] {
      Absorbed(memory, d, bytes[1..]);
    }
  }

  /** How many bytes of the payload of a packet the decoder waits for. */
  function Awaited(p: Packet): nat {
    (4 + |p.text|) % 0x100
  }

  lemma Pieces(p: Packet)
    ensures var e := Encoded(p);
            && |e| == 8 + |p.text| && e[..4] == Big32(8 + |p.text|)
            && e[4..8] == Big32(if p.Command? then PTYPE_COMMAND else PTYPE_ERROR) && e[8..] == p.text
            && e == e[..4] + e[4..] && e[4] == 0
  {
    var kind := if p.Command? then PTYPE_COMMAND else PTYPE_ERROR;
    assert Big32(kind)[0] == 0;
    hide Big32;
    assert Encoded(p)[4] == Encoded(p)[4..8][0];
  }

  lemma PayloadDelivers(p: Packet)
    requires Sendable(p)
    ensures var payload := Encoded(p)[4..];
            |payload| == 4 + |p.text| && Delivery(payload) == if p.Command? then [p.text] else []
  {
    hide Big32, FromBig32, CString;
    var payload := Encoded(p)[4..];
    var kind := if p.Command? then PTYPE_COMMAND else PTYPE_ERROR;
    Big32RoundTrip(kind);
    assert payload[..4] == Big32(kind);
    assert payload[4..] == p.text;
  }

  /** A packet of which all is awaited is delivered or skipped. */
  lemma TakePacket(memory: Memory, d: Decoding, p: Packet)
    requires d.phase == START && Sendable(p) && |p.text| <= LONGEST
    ensures TakeAll(memory, d, Encoded(p))
            == Decoding(START, d.delivered + if p.Command? then [p.text] else [], d.blocks + 1)
  {
    hide Big32, FromBig32, TakeAll, Delivery, Encoded;
    var e := Encoded(p);
    Pieces(p);
    Big32RoundTrip(8 + |p.text|);
    TakeHeader(memory, d, e[..4]);
    TakeAllConcat(memory, d, e[..4], e[4..]);
    PayloadDelivers(p);
    assert Filled(memory, d.blocks, 4 + |p.text|, e[4..]) == e[4..];
    assert [] + e[4..] == e[4..];
    TakeBody(memory, TakeAll(memory, d, e[..4]), e[4..]);
  }

  /** A packet that is too long: the decoder is stuck for good, or takes the first few bytes of the
      payload for all of it, whatever the memory in front of them holds, and the rest of the packet for
      the next ones. */
  lemma TakeLongPacket(memory: Memory, d: Decoding, p: Packet, rest: seq<byte>)
    requires d.phase == START && Sendable(p) && |p.text| > LONGEST
    ensures var k := Awaited(p);
            var taken := Filled(memory, d.blocks, 4 + |p.text|, Encoded(p)[4..4 + k]);
            TakeAll(memory, d, Encoded(p) + rest) ==
              if k == 0 then d.(phase := Stuck)
              else TakeAll(memory, Decoding(START, d.delivered + Delivery(taken), d.blocks + 1),
                           Encoded(p)[4 + k..] + rest)
  {
    hide Big32, FromBig32, TakeAll, Delivery, Filled;
    var e := Encoded(p);
    var k := Awaited(p);
    Pieces(p);
    Big32RoundTrip(8 + |p.text|);
    TakeHeader(memory, d, e[..4]);
    assert e + rest == e[..4] + (e[4..] + rest);
    TakeAllConcat(memory, d, e[..4], e[4..] + rest);
    var d1 := TakeAll(memory, d, e[..4]);
    if k == 0 {
      Absorbed(memory, d1, e[4..] + rest);
    } else {
      assert e[4..] + rest == e[4..4 + k] + (e[4 + k..] + rest);
      TakeAllConcat(memory, d1, e[4..4 + k], e[4 + k..] + rest);
      assert [] + e[4..4 + k] == e[4..4 + k];
      TakeBody(memory, d1, e[4..4 + k]);
    }
  }

  lemma {:induction false} StopsAtZero(a: seq<byte>, b: seq<byte>)
    requires b != [] && b[0] == 0
    ensures |CString(a + b)| <= |a|
    decreases |a|
  {
    if a == [] {
      assert a + b == b;
    } else {
      assert (a + b)[1..] == a[1..] + b;
      StopsAtZero(a[1..], b);
    }
  }

  /** Whatever the memory holds, what a packet delivers that is too long is never its text: the first
      byte received is a zero and stands at least five bytes before the end of the buffer. */
  lemma LongTextIsCut(memory: Memory, block: nat, p: Packet)
    requires Sendable(p) && |p.text| > LONGEST && Awaited(p) != 0
    ensures var taken := Filled(memory, block, 4 + |p.text|, Encoded(p)[4..4 + Awaited(p)]);
            forall text :: text in Delivery(taken) ==> |text| < |p.text|
  {
    hide FromBig32;
    Pieces(p);
    var k := Awaited(p);
    var received := Encoded(p)[4..4 + k];
    var junk := Fresh(memory, block, 4 + |p.text| - k);
    assert (junk + received)[4..] == junk[4..] + received;
    StopsAtZero(junk[4..], received);
  }

  // ---- Streams of packets --------------------------------------------------------------------------

  function Stream(packets: seq<Packet>): seq<byte>
    decreases |packets|
  {
    if packets == [] then [] else Encoded(packets[0]) + Stream(packets[1..])
  }

  /** The texts of the commands among the packets, in order. */
  function Commands(packets: seq<Packet>): seq<seq<byte>>
    decreases |packets|
  {
    if packets == [] then []
    else (if packets[0].Command? then [packets[0].text] else []) + Commands(packets[1..])
  }

  predicate Fit(packets: seq<Packet>) {
    forall i :: 0 <= i < |packets| ==> |packets[i].text| <= LONGEST
  }

  /** The decoder has delivered exactly these texts and awaits a header. */
  predicate Exactly(d: Decoding, texts: seq<seq<byte>>) {
    d.phase == START && d.delivered == texts
  }

  lemma {:induction false} FittingArrive(memory: Memory, d: Decoding, packets: seq<Packet>)
    requires d.phase == START && (forall i :: 0 <= i < |packets| ==> Sendable(packets[i])) && Fit(packets)
    ensures Exactly(TakeAll(memory, d, Stream(packets)), d.delivered + Commands(packets))
    decreases |packets|
  {
    hide Take, Encoded, Sendable;
    if packets == [] {
      assert d.delivered + [] == d.delivered;
    } else {
      var p := packets[0];
      TakePacket(memory, d, p);
      TakeAllConcat(memory, d, Encoded(p), Stream(packets[1..]));
      FittingArrive(memory, TakeAll(memory, d, Encoded(p)), packets[1..]);
      var first := if p.Command? then [p.text] else [];
      assert d.delivered + first + Commands(packets[1..]) == d.delivered + (first + Commands(packets[1..]));
    }
  }

  lemma {:induction false} DeliveredGrows(memory: Memory, d: Decoding, bytes: seq<byte>)
    requires Valid(d)
    ensures d.delivered <= TakeAll(memory, d, bytes).delivered
    decreases |bytes|
  {
    hide Delivery, Filled;
    if bytes != [] {
      DeliveredGrows(memory, Take(memory, d, bytes[0]), bytes[1..]);
    }
  }

  /** Memory that holds a command: its text is empty, or a single one. */
  function Spelling(one: bool): Memory {
    (block, i) => if i == 3 || (i == 4 && one) then 1 else 0
  }

  lemma Spelled(one: bool, text: seq<byte>)
    requires |text| >= 2 && text[0] == (if one then 1 else 0) && text[1] == 0
    ensures CString(text) == if one then [1] else []
  {
    assert text[1..][0] == 0 && CString(text[1..]) == [];
    if one {
      assert CString(text) == [1] + CString(text[1..]);
    }
  }

  lemma SpellingDelivers(one: bool, block: nat, p: Packet)
    requires Sendable(p) && |p.text| > LONGEST
    ensures Delivery(Filled(Spelling(one), block, 4 + |p.text|, Encoded(p)[4..4 + Awaited(p)]))
            == [if one then [1] else []]
  {
    assert FromBig32([0, 0, 0, 1]) == PTYPE_COMMAND;
    hide Encoded, CString, FromBig32;
    Pieces(p);
    var received := Encoded(p)[4..4 + Awaited(p)];
    var size := 4 + |p.text|;
    var junk := Fresh(Spelling(one), block, size - |received|);
    var payload := Filled(Spelling(one), block, size, received);
    assert |junk| >= 6 && payload == junk + received;
    assert payload[..4] == [0, 0, 0, 1];
    Spelled(one, payload[4..]);
  }

  /** If some packet is too long, there is memory with which something else is delivered. */
  lemma {:induction false} LongSpoils(d: Decoding, packets: seq<Packet>) returns (one: bool)
    requires d.phase == START && (forall i :: 0 <= i < |packets| ==> Sendable(packets[i])) && !Fit(packets)
    ensures !Exactly(TakeAll(Spelling(one), d, Stream(packets)), d.delivered + Commands(packets))
    decreases |packets|
  {
    hide Take, Encoded, Sendable, Delivery, Filled, Spelling;
    var p := packets[0];
    var rest := Stream(packets[1..]);
    if |p.text| <= LONGEST {
      var first := if p.Command? then [p.text] else [];
      // The same memory or not, this packet arrives
      one := LongSpoils(Decoding(START, d.delivered + first, d.blocks + 1), packets[1..]);
      TakePacket(Spelling(one), d, p);
      TakeAllConcat(Spelling(one), d, Encoded(p), rest);
      assert d.delivered + first + Commands(packets[1..]) == d.delivered + (first + Commands(packets[1..]));
    } else {
      one := Commands(packets) != [] && Commands(packets)[0] == [];
      TakeLongPacket(Spelling(one), d, p, rest);
      if Awaited(p) != 0 {
        SpellingDelivers(one, d.blocks, p);
        Pieces(p);
        var text := if one then [1] else [];
        var d1 := Decoding(START, d.delivered + [text], d.blocks + 1);
        DeliveredGrows(Spelling(one), d1, Encoded(p)[4 + Awaited(p)..] + rest);
        Differs(d.delivered, text, Commands(packets));
      }
    }
  }

  lemma Differs<T>(a: seq<T>, x: T, b: seq<T>)
    requires b != [] ==> b[0] != x
    ensures !(a + [x] <= a + b)
  {
    assert (a + [x])[|a|] == x;
    if b != [] {
      assert (a + b)[|a|] == b[0];
    }
  }

  /** However the stream of some commands and errors is cut, the decoder is sure to deliver exactly the
      commands, in order, and to end awaiting a header, if and only if no text has more than 251 bytes.
      If one has, it depends on what fresh memory happens to hold. */
  lemma RoundTripsIff(packets: seq<Packet>, chunks: seq<seq<byte>>)
    requires forall i :: 0 <= i < |packets| ==> Sendable(packets[i])
    requires Joined(chunks) == Stream(packets)
    ensures (forall memory :: Exactly(TakeChunks(memory, BEGINNING, chunks), Commands(packets))) <==> Fit(packets)
  {
    hide Sendable, Stream, Joined, TakeAll, TakeChunks, Commands, Fit, Exactly;
    assert [] + Commands(packets) == Commands(packets);
    if Fit(packets) {
      forall memory ensures Exactly(TakeChunks(memory, BEGINNING, chunks), Commands(packets)) {
        CutsDoNotMatter(memory, BEGINNING, chunks);
        FittingArrive(memory, BEGINNING, packets);
      }
    } else {
      var one := LongSpoils(BEGINNING, packets);
      CutsDoNotMatter(Spelling(one), BEGINNING, chunks);
    }
  }

  // ---- The decoder in place ------------------------------------------------------------------------

  lemma {:induction false} EndsAtZero(b: seq<byte>)
    ensures CString(b + [0]) == CString(b)
    decreases |b|
  {
    if b != [] {
      assert (b + [0])[1..] == b[1..] + [0];
      EndsAtZero(b[1..]);
    }
  }

  /** The bytes that stand in the upper places of a size. */
  function Upper(size: nat, count: nat): (u: seq<byte>)
    requires count <= 3
    ensures |u| == count
  {
    [size / 0x100_0000 % 0x100, size / 0x1_0000 % 0x100, size / 0x100 % 0x100][..count]
  }

  /** Nothing stands below them. */
  predicate Clean(size: nat, count: nat) {
    match count
    case 0 => size == 0
    case 1 => size % 0x100_0000 == 0
    case 2 => size % 0x1_0000 == 0
    case 3 => size % 0x100 == 0
    case _ => true
  }

  lemma PlaceFirst(b: byte)
    ensures var s := b * 0x100_0000;
            s < 0x1_0000_0000 && Clean(s, 1) && Upper(s, 1) == [b]
  {
  }

  lemma PlaceSecond(size: nat, b: byte)
    requires Clean(size, 1) && size < 0x1_0000_0000
    ensures var s := size + b * 0x1_0000;
            s < 0x1_0000_0000 && Clean(s, 2) && Upper(s, 2) == Upper(size, 1) + [b]
  {
    var top := size / 0x100_0000;
    assert size == top * 0x100_0000;
    var s: nat := size + b * 0x1_0000;
    var upper: nat := b + 0x100 * top;
    assert s == 0x100 * (0x100 * upper);
    DivideTwice(s);
    LowByte(0, 0x100 * upper);
    LowByte(0, upper);
    LowByte(b, top);
  }

  lemma PlaceThird(size: nat, b: byte)
    requires Clean(size, 2) && size < 0x1_0000_0000
    ensures var s := size + b * 0x100;
            s < 0x1_0000_0000 && Clean(s, 3) && Upper(s, 3) == Upper(size, 2) + [b]
  {
    var top := size / 0x1_0000;
    assert size == top * 0x1_0000;
    var s: nat := size + b * 0x100;
    var upper: nat := b + 0x100 * top;
    assert s == 0x100 * upper;
    DivideTwice(s);
    DivideTwice(size);
    LowByte(0, upper);
    LowByte(b, top);
  }

  lemma PlaceFourth(size: nat, b: byte)
    requires Clean(size, 3) && size < 0x1_0000_0000
    ensures size + b < 0x1_0000_0000 && FromBig32(Upper(size, 3) + [b]) == size + b
  {
    var high := size / 0x100;
    DivideTwice(size);
    assert size == high * 0x100;
    assert high / 0x100 == size / 0x1_0000 && high / 0x1_0000 == size / 0x100_0000;
    assert high == high / 0x100 * 0x100 + high % 0x100;
    assert high / 0x100 == high / 0x1_0000 * 0x100 + high / 0x100 % 0x100;
  }

  class Decoder {
    const memory: Memory     // what the blocks hold that will be allocated
    var blocks: nat          // blocks handled so far
    var sizeLeft: nat        // bytes of the size that are missing
    var size: nat            // 32 bits
    var dataLeft: nat        // 8 bits
    var data: array<byte>
    var undefined: bool      // the block leaves no room for what is read or written at its end
    ghost var delivered: seq<seq<byte>>

    ghost predicate Valid()
      reads this, data
    {
      && sizeLeft <= 4 && dataLeft < 0x100 && size < 0x1_0000_0000
      && (sizeLeft > 0 ==> Clean(size, 4 - sizeLeft))
      && (sizeLeft == 0 && !undefined && dataLeft > 0 ==>
            && 4 <= size < 0xFFFF_FFFF && dataLeft <= size % 0x100 && data.Length == size + 1
            && data[..size - size % 0x100] == Fresh(memory, blocks, size - size % 0x100))
    }

    ghost function Abs(): Decoding
      reads this, data
      requires Valid()
    {
      Decoding(if undefined then Undefined
               else if sizeLeft > 0 then Header(Upper(size, 4 - sizeLeft))
               else if dataLeft == 0 then Stuck
               else Body(size, data[size - size % 0x100..size - dataLeft]),
               delivered, blocks)
    }

    constructor (memory: Memory)
      ensures Valid() && Abs() == BEGINNING && this.memory == memory
    {
      this.memory := memory;
      sizeLeft, size, dataLeft, undefined, delivered, blocks := 4, 0, 0, false, [], 0;
      data := new byte[0];
    }

    /** The payload is complete. */
    method PacketHandler()
      requires data.Length == size + 1 && 4 <= size
      modifies this`delivered, data
      ensures delivered == old(delivered) + Delivery(old(data[..size]))
    {
      hide FromBig32;
      var kind := FromBig32(data[..4]);
      if kind == PTYPE_COMMAND {
        data[size] := 0;
        assert data[4..] == old(data[4..size]) + [0];
        EndsAtZero(old(data[4..size]));
        delivered := delivered + [CString(data[4..])];
      }
      assert old(data[..size])[..4] == old(data[..4]) && old(data[..size])[4..] == old(data[4..size]);
    }

    /** Part of the header. */
    method SizeByte(b: byte)
      requires Valid() && sizeLeft > 0 && !undefined
      modifies this
      ensures Valid() && Abs() == Take(memory, old(Abs()), b)
      ensures data == old(data) || fresh(data)
    {
      hide FromBig32, Upper, Clean, Fresh;
      CleanStart(size);
      if sizeLeft == 4 {
        PlaceFirst(b);
        assert [] + [b] == [b];
        size := b * 0x100_0000;
      } else if sizeLeft == 3 {
        PlaceSecond(size, b);
        size := size + b * 0x1_0000;
      } else if sizeLeft == 2 {
        PlaceThird(size, b);
        size := size + b * 0x100;
      } else {
        PlaceFourth(size, b);
        size := size + b;
      }
      sizeLeft := sizeLeft - 1;
      // The header is complete
      if sizeLeft == 0 {
        Allocate();
      }
    }

    /** Make room for a payload and a terminator. */
    method Allocate()
      requires sizeLeft == 0 && size < 0x1_0000_0000 && !undefined
      modifies this`size, this`data, this`dataLeft, this`undefined
      ensures Valid() && fresh(data)
      ensures Abs() == Decoding(AfterHeader(old(size)), delivered, blocks)
    {
      size := (size - 4) % 0x1_0000_0000;
      var block, memory := blocks, memory;
      data := new byte[size + 1](i requires i >= 0 => memory(block, i));
      dataLeft := size % 0x100;
      undefined := dataLeft != 0 && !(4 <= size < 0xFFFF_FFFF);
      ghost var front := size - size % 0x100;
      assert data[..front] == Fresh(this.memory, blocks, front);
      assert data[front..size - dataLeft] == [];
    }

    /** Part of the payload. */
    method DataByte(b: byte)
      requires Valid() && sizeLeft == 0 && dataLeft > 0 && !undefined
      modifies this, data
      ensures Valid() && Abs() == Take(memory, old(Abs()), b)
      ensures data == old(data)
    {
      hide FromBig32, CString, Delivery, Fresh;
      CleanStart(0);
      ghost var start := size - size % 0x100;
      ghost var received := data[start..size - dataLeft];
      ghost var junk := data[..start];
      data[size - dataLeft] := b;
      dataLeft := dataLeft - 1;
      assert data[start..size - dataLeft] == received + [b];
      assert data[..start] == junk;
      // The payload is complete
      if dataLeft == 0 {
        assert data[..size] == junk + (received + [b]);
        PacketHandler();
        blocks := blocks + 1;
        size := 0;
        sizeLeft := 4;
      }
    }

    lemma CleanStart(size: nat)
      ensures Upper(size, 0) == [] && (Clean(size, 0) <==> size == 0)
    {
    }

    /** Take in what the network delivered, byte by byte. */
    method ReadHandler(buf: array<byte>)
      requires Valid() && buf != data
      modifies this, data
      ensures Valid() && Abs() == TakeAll(memory, old(Abs()), buf[..])
      ensures data == old(data) || fresh(data)
    {
      hide Take;
      var i := 0;
      ghost var start := Abs();
      assert buf[..0] == [];
      while i < buf.Length
        invariant i <= buf.Length && buf != data && (data == old(data) || fresh(data))
        invariant buf[..] == old(buf[..])
        invariant Valid() && Abs() == TakeAll(memory, start, buf[..i])
      {
        TakeAllConcat(memory, start, buf[..i], [buf[i]]);
        TakeAllOne(memory, Abs(), buf[i]);
        assert buf[..i] + [buf[i]] == buf[..i + 1];
        var b := buf[i];
        i := i + 1;
        if undefined {
          Absorbed(memory, Abs(), [b]);
          continue;
        }
        if sizeLeft > 0 {
          SizeByte(b);
          continue;
        }
        if dataLeft > 0 {
          DataByte(b);
        } else {
          Absorbed(memory, Abs(), [b]);
        }
      }
      assert buf[..i] == buf[..];
    }
  }
}
