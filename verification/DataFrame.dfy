/** The RTC3D data frame: one component with one marker, 52 bytes, filled in place and read back by
    its own size fields. Floats are their 32-bit patterns. */
module DataFrame {
  import opened Bytes
  import opened Sdo

  const PTYPE_DATAFRAME := 3
  const CTYPE_3D := 1
  const FRAME_SIZE := 52

  // ---- Byte order ----------------------------------------------------------------------------------

  /** The bytes of an integer in the memory of a little-endian machine. */
  function Little32(n: nat): (b: seq<byte>)
    ensures |b| == 4
  {
    [n % 0x100, n / 0x100 % 0x100, n / 0x1_0000 % 0x100, n / 0x100_0000 % 0x100]
  }

  /** htonl on a little-endian machine. */
  function Swapped32(n: nat): (m: nat)
    requires n < 0x1_0000_0000
    ensures m < 0x1_0000_0000
  {
    n % 0x100 * 0x100_0000 + n / 0x100 % 0x100 * 0x1_0000 + n / 0x1_0000 % 0x100 * 0x100 + n / 0x100_0000
  }

  /** htonll on a little-endian machine: the swapped halves change places. */
  function Swapped64(n: nat): nat
    requires n < 0x1_0000_0000_0000_0000
  {
    Swapped32(n % 0x1_0000_0000) * 0x1_0000_0000 + Swapped32(n / 0x1_0000_0000)
  }

  function Big64(n: nat): (b: seq<byte>)
    ensures |b| == 8
  {
    Big32(n / 0x1_0000_0000) + Big32(n % 0x1_0000_0000)
  }

  function Little64(n: nat): seq<byte> {
    Little32(n % 0x1_0000_0000) + Little32(n / 0x1_0000_0000)
  }

  lemma BytesOfSum(a: byte, b: byte, c: byte, d: byte)
    ensures Little32(a + b * 0x100 + c * 0x1_0000 + d * 0x100_0000) == [a, b, c, d]
  {
    var n: nat := a + b * 0x100 + c * 0x1_0000 + d * 0x100_0000;
    var q: nat := b + c * 0x100 + d * 0x1_0000;
    var r: nat := c + d * 0x100;
    DivideTwice(n);
    LowByte(a, q);
    LowByte(b, r);
    LowByte(c, d);
    assert n == a + 0x100 * q && q == b + 0x100 * r;
  }

  /** What htonl stores is in network byte order. */
  lemma SwappedIsBig32(n: nat)
    requires n < 0x1_0000_0000
    ensures Little32(Swapped32(n)) == Big32(n)
  {
    assert n / 0x100_0000 % 0x100 == n / 0x100_0000;
    BytesOfSum(n / 0x100_0000 % 0x100, n / 0x1_0000 % 0x100, n / 0x100 % 0x100, n % 0x100);
    hide Little32;
  }

  /** What htonll stores is in network byte order. */
  lemma SwappedIsBig64(n: nat)
    requires n < 0x1_0000_0000_0000_0000
    ensures Little64(Swapped64(n)) == Big64(n)
  {
    hide Little32, Swapped32, Big32;
    var low, high := Swapped32(n % 0x1_0000_0000), Swapped32(n / 0x1_0000_0000);
    SwappedIsBig32(n % 0x1_0000_0000);
    SwappedIsBig32(n / 0x1_0000_0000);
    assert Swapped64(n) % 0x1_0000_0000 == high && Swapped64(n) / 0x1_0000_0000 == low;
  }

  // ---- The frame as a value ------------------------------------------------------------------------

  datatype Marker = Marker(x: nat, y: nat, z: nat, delta: nat)

  datatype Component = Component(kind: nat, frame: nat, time: nat, markers: seq<Marker>)

  function EncodedHeader(frame: nat, time: nat): (b: seq<byte>)
    ensures |b| == 20
  {
    Big32(40) + Big32(CTYPE_3D) + Big32(frame) + Big64(time)
  }

  function EncodedMarker(m: Marker): (b: seq<byte>)
    ensures |b| == 16
  {
    Big32(m.x) + Big32(m.y) + Big32(m.z) + Big32(m.delta)
  }

  function EncodedComponent(frame: nat, time: nat, point: nat): (b: seq<byte>)
    ensures |b| == 40
  {
    EncodedHeader(frame, time) + Big32(1) + EncodedMarker(Marker(point, 0, 0, 0))
  }

  function Encoded(frame: nat, time: nat, point: nat): (b: seq<byte>)
    ensures |b| == FRAME_SIZE
  {
    Big32(FRAME_SIZE) + Big32(PTYPE_DATAFRAME) + Big32(1) + EncodedComponent(frame, time, point)
  }

  lemma SmallBytes(n: nat)
    requires n < 0x100
    ensures Big32(n) == [0, 0, 0, n] && Big64(n) == [0, 0, 0, 0, 0, 0, 0, n]
  {
  }

  /** A frame of small numbers, byte for byte. */
  lemma FrameBytes(frame: nat, time: nat, point: nat)
    requires frame < 0x100 && time < 0x100 && point < 0x100
    ensures Encoded(frame, time, point) ==
            [0, 0, 0, 52, 0, 0, 0, 3, 0, 0, 0, 1]
            + [0, 0, 0, 40, 0, 0, 0, 1, 0, 0, 0, frame, 0, 0, 0, 0, 0, 0, 0, time]
            + [0, 0, 0, 1, 0, 0, 0, point, 0, 0, 0, 0, 0, 0, 0, 0, 0, 0, 0, 0]
  {
    hide Big32, Big64;
    SmallBytes(0);
    SmallBytes(1);
    SmallBytes(3);
    SmallBytes(40);
    SmallBytes(52);
    SmallBytes(frame);
    SmallBytes(time);
    SmallBytes(point);
    var head := [0, 0, 0, 52, 0, 0, 0, 3, 0, 0, 0, 1];
    assert Big32(52) + Big32(3) + Big32(1) == head;
    var header := [0, 0, 0, 40, 0, 0, 0, 1, 0, 0, 0, frame, 0, 0, 0, 0, 0, 0, 0, time];
    assert EncodedHeader(frame, time) == header;
    var marker := [0, 0, 0, point, 0, 0, 0, 0, 0, 0, 0, 0, 0, 0, 0, 0];
    assert EncodedMarker(Marker(point, 0, 0, 0)) == marker;
    assert [0, 0, 0, 1] + marker == [0, 0, 0, 1, 0, 0, 0, point, 0, 0, 0, 0, 0, 0, 0, 0, 0, 0, 0, 0];
    assert head + (header + [0, 0, 0, 1] + marker) == head + header + ([0, 0, 0, 1] + marker);
  }

  // ---- Reading a frame by its own size fields ------------------------------------------------------

  function FromBig64(b: seq<byte>): nat
    requires |b| == 8
  {
    FromBig32(b[..4]) * 0x1_0000_0000 + FromBig32(b[4..])
  }

  function Markers(b: seq<byte>, count: nat): Option<seq<Marker>>
    decreases count
  {
    if count == 0 then (if b == [] then Some([]) else None)
    else if |b| < 16 then None
    else
      var marker := Marker(FromBig32(b[..4]), FromBig32(b[4..8]), FromBig32(b[8..12]), FromBig32(b[12..16]));
      match Markers(b[16..], count - 1)
      case None => None
      case Some(rest) => Some([marker] + rest)
  }

  function Components(b: seq<byte>, count: nat): Option<seq<Component>>
    decreases count
  {
    if count == 0 then (if b == [] then Some([]) else None)
    else if |b| < 24 then None
    else
      var size := FromBig32(b[..4]);
      if size < 24 || |b| < size then None
      else
        match (Markers(b[24..size], FromBig32(b[20..24])), Components(b[size..], count - 1))
        case (Some(markers), Some(rest)) =>
          Some([Component(FromBig32(b[4..8]), FromBig32(b[8..12]), FromBig64(b[12..20]), markers)] + rest)
        case _ => None
  }

  function Parsed(b: seq<byte>): Option<seq<Component>> {
    if |b| < 12 || FromBig32(b[..4]) != |b| || FromBig32(b[4..8]) != PTYPE_DATAFRAME then None
    else Components(b[12..], FromBig32(b[8..12]))
  }

  lemma Big64RoundTrip(n: nat)
    requires n < 0x1_0000_0000_0000_0000
    ensures FromBig64(Big64(n)) == n
  {
    hide Big32, FromBig32;
    Big32RoundTrip(n / 0x1_0000_0000);
    Big32RoundTrip(n % 0x1_0000_0000);
    assert Big64(n)[..4] == Big32(n / 0x1_0000_0000) && Big64(n)[4..] == Big32(n % 0x1_0000_0000);
  }

  lemma MarkerRoundTrip(m: Marker)
    requires m.x < 0x1_0000_0000 && m.y < 0x1_0000_0000 && m.z < 0x1_0000_0000 && m.delta < 0x1_0000_0000
    ensures Markers(EncodedMarker(m), 1) == Some([m])
  {
    hide Big32, FromBig32;
    var b := EncodedMarker(m);
    Big32RoundTrip(m.x);
    Big32RoundTrip(m.y);
    Big32RoundTrip(m.z);
    Big32RoundTrip(m.delta);
    assert b[..4] == Big32(m.x) && b[4..8] == Big32(m.y) && b[8..12] == Big32(m.z) && b[12..16] == Big32(m.delta);
    assert b[16..] == [];
    assert Markers(b[16..], 0) == Some([]);
    assert [m] + [] == [m];
  }

  lemma ComponentRoundTrip(frame: nat, time: nat, point: nat)
    requires frame < 0x1_0000_0000 && time < 0x1_0000_0000_0000_0000 && point < 0x1_0000_0000
    ensures Components(EncodedComponent(frame, time, point), 1)
            == Some([Component(CTYPE_3D, frame, time, [Marker(point, 0, 0, 0)])])
  {
    hide Big32, FromBig32, Markers, FromBig64, Big64, EncodedMarker, EncodedHeader;
    var c := EncodedComponent(frame, time, point);
    assert c[..20] == EncodedHeader(frame, time);
    HeaderRoundTrip(frame, time);
    Big32RoundTrip(1);
    MarkerRoundTrip(Marker(point, 0, 0, 0));
    assert c[..4] == c[..20][..4] && c[4..8] == c[..20][4..8];
    assert c[8..12] == c[..20][8..12] && c[12..20] == c[..20][12..];
    assert c[20..24] == Big32(1);
    assert c[24..40] == EncodedMarker(Marker(point, 0, 0, 0));
    assert c[40..] == [];
    assert Components(c[40..], 0) == Some([]);
    var component := Component(CTYPE_3D, frame, time, [Marker(point, 0, 0, 0)]);
    assert [component] + [] == [component];
  }

  lemma HeaderRoundTrip(frame: nat, time: nat)
    requires frame < 0x1_0000_0000 && time < 0x1_0000_0000_0000_0000
    ensures var h := EncodedHeader(frame, time);
            && FromBig32(h[..4]) == 40 && FromBig32(h[4..8]) == CTYPE_3D && FromBig32(h[8..12]) == frame
            && FromBig64(h[12..]) == time
  {
    hide Big32, FromBig32, FromBig64, Big64;
    var h := EncodedHeader(frame, time);
    Big32RoundTrip(40);
    Big32RoundTrip(CTYPE_3D);
    Big32RoundTrip(frame);
    Big64RoundTrip(time);
    assert h[..4] == Big32(40) && h[4..8] == Big32(CTYPE_3D) && h[8..12] == Big32(frame) && h[12..] == Big64(time);
  }

  /** The frame that is sent, read by its own sizes and counts, is one component of three-dimensional
      data with the frame number, the time and a single marker on the x axis. */
  lemma FrameRoundTrip(frame: nat, time: nat, point: nat)
    requires frame < 0x1_0000_0000 && time < 0x1_0000_0000_0000_0000 && point < 0x1_0000_0000
    ensures Parsed(Encoded(frame, time, point)) == Some([Component(CTYPE_3D, frame, time, [Marker(point, 0, 0, 0)])])
  {
    hide Big32, FromBig32, Components, EncodedComponent;
    var b := Encoded(frame, time, point);
    Big32RoundTrip(FRAME_SIZE);
    Big32RoundTrip(PTYPE_DATAFRAME);
    Big32RoundTrip(1);
    ComponentRoundTrip(frame, time, point);
    assert b[..4] == Big32(FRAME_SIZE) && b[4..8] == Big32(PTYPE_DATAFRAME) && b[8..12] == Big32(1);
    assert b[12..] == EncodedComponent(frame, time, point);
  }

  // ---- The frame in place, filled from left to right -----------------------------------------------

  /** What is unchanged from some place on is unchanged from any later place on. */
  lemma TailOf(before: seq<byte>, after: seq<byte>, i: nat, j: nat)
    requires |before| == |after| && i <= j <= |before| && before[i..] == after[i..]
    ensures before[j..] == after[j..]
  {
    assert before[j..] == before[i..][j - i..] && after[j..] == after[i..][j - i..];
  }

  method SetPacketHeader(buffer: array<byte>, size: nat, kind: nat)
    requires buffer.Length >= 8
    modifies buffer
    ensures buffer[..8] == Big32(size) + Big32(kind)
    ensures buffer[8..] == old(buffer[8..])
  {
    hide Big32;
    assert buffer[..0] == [];
    PutBig32(buffer, 0, size);
    ghost var b := buffer[..];
    PutBig32(buffer, 4, kind);
    TailOf(old(buffer[..]), b, 4, 8);
  }

  method PutLittle32(buffer: array<byte>, at: nat, n: nat)
    requires at + 4 <= buffer.Length
    modifies buffer
    ensures buffer[..at + 4] == old(buffer[..at]) + Little32(n)
    ensures buffer[at + 4..] == old(buffer[at + 4..])
  {
    PutFour(buffer, at, Little32(n));
  }

  /** Store the result of htonll as a little-endian machine does. */
  method PutTime(buffer: array<byte>, at: nat, time: nat)
    requires at + 8 <= buffer.Length && time < 0x1_0000_0000_0000_0000
    modifies buffer
    ensures buffer[..at + 8] == old(buffer[..at]) + Big64(time)
    ensures buffer[at + 8..] == old(buffer[at + 8..])
  {
    hide Big64, Swapped64, Little32;
    SwappedIsBig64(time);
    PutLittle32(buffer, at, Swapped64(time) % 0x1_0000_0000);
    TailOf(old(buffer[..]), buffer[..], at + 4, at + 8);
    PutLittle32(buffer, at + 4, Swapped64(time) / 0x1_0000_0000);
  }

  method SetComponentHeader(buffer: array<byte>, at: nat, size: nat, kind: nat, frame: nat, time: nat)
    requires at + 20 <= buffer.Length && time < 0x1_0000_0000_0000_0000
    modifies buffer
    ensures buffer[..at + 20] == old(buffer[..at]) + (Big32(size) + Big32(kind) + Big32(frame) + Big64(time))
    ensures buffer[at + 20..] == old(buffer[at + 20..])
  {
    hide Big32, Big64;
    PutBig32(buffer, at, size);
    TailOf(old(buffer[..]), buffer[..], at + 4, at + 20);
    label B1: PutBig32(buffer, at + 4, kind);
    TailOf(old@B1(buffer[..]), buffer[..], at + 8, at + 20);
    label B2: PutBig32(buffer, at + 8, frame);
    TailOf(old@B2(buffer[..]), buffer[..], at + 12, at + 20);
    PutTime(buffer, at + 12, time);
    FourPieces(old(buffer[..at]), Big32(size), Big32(kind), Big32(frame), Big64(time));
  }

  lemma FourPieces(s: seq<byte>, a: seq<byte>, b: seq<byte>, c: seq<byte>, d: seq<byte>)
    ensures s + a + b + c + d == s + (a + b + c + d)
  {
    assert s + a + b == s + (a + b);
    assert s + (a + b) + c == s + (a + b + c);
  }

  method SetMarker(buffer: array<byte>, at: nat, m: Marker)
    requires at + 16 <= buffer.Length
    modifies buffer
    ensures buffer[..at + 16] == old(buffer[..at]) + EncodedMarker(m)
    ensures buffer[at + 16..] == old(buffer[at + 16..])
  {
    hide Big32;
    PutBig32(buffer, at, m.x);
    TailOf(old(buffer[..]), buffer[..], at + 4, at + 16);
    label B1: PutBig32(buffer, at + 4, m.y);
    TailOf(old@B1(buffer[..]), buffer[..], at + 8, at + 16);
    label B2: PutBig32(buffer, at + 8, m.z);
    TailOf(old@B2(buffer[..]), buffer[..], at + 12, at + 16);
    PutBig32(buffer, at + 12, m.delta);
    FourPieces(old(buffer[..at]), Big32(m.x), Big32(m.y), Big32(m.z), Big32(m.delta));
  }

  /** Fill the frame of a single position. */
  method SendData(frame: nat, time: nat, point: nat) returns (buffer: array<byte>)
    requires time < 0x1_0000_0000_0000_0000
    ensures fresh(buffer) && buffer[..] == Encoded(frame, time, point)
  {
    hide Big32, Big64, EncodedMarker;
    buffer := new byte[FRAME_SIZE];
    SetPacketHeader(buffer, FRAME_SIZE, PTYPE_DATAFRAME);
    PutBig32(buffer, 8, 1);
    ghost var header := buffer[..12];
    SetComponentHeader(buffer, 12, 40, CTYPE_3D, frame, time);
    PutBig32(buffer, 32, 1);
    SetMarker(buffer, 36, Marker(point, 0, 0, 0));
    assert header + EncodedHeader(frame, time) + Big32(1) + EncodedMarker(Marker(point, 0, 0, 0))
           == header + EncodedComponent(frame, time, point);
    assert buffer[..52] == buffer[..];
  }
}
