/** Bytes, and integers in network byte order. */
module Bytes {

  type byte = x: int | 0 <= x < 256

  /** Big-endian 32-bit integer. */
  function Big32(n: nat): (b: seq<byte>)
    ensures |b| == 4
  {
    [n / 0x100_0000 % 0x100, n / 0x1_0000 % 0x100, n / 0x100 % 0x100, n % 0x100]
  }

  function FromBig32(b: seq<byte>): nat
    requires |b| == 4
  {
    (b[0] as nat) * 0x100_0000 + (b[1] as nat) * 0x1_0000 + (b[2] as nat) * 0x100 + (b[3] as nat)
  }

  lemma Big32RoundTrip(n: nat)
    requires n < 0x1_0000_0000
    ensures FromBig32(Big32(n)) == n
  {
    assert n / 0x100_0000 % 0x100 == n / 0x100_0000;
    assert n == n / 0x100 * 0x100 + n % 0x100;
    assert n / 0x100 == n / 0x1_0000 * 0x100 + n / 0x100 % 0x100;
    assert n / 0x1_0000 == n / 0x100_0000 * 0x100 + n / 0x1_0000 % 0x100;
  }

  lemma LowByte(a: byte, q: nat)
    ensures (a + 0x100 * q) % 0x100 == a && (a + 0x100 * q) / 0x100 == q
  {
  }

  lemma DivideTwice(n: nat)
    ensures n / 0x1_0000 == n / 0x100 / 0x100 && n / 0x100_0000 == n / 0x1_0000 / 0x100
  {
  }

  /** Store four bytes behind what is there; what comes later stays. */
  method PutFour(buffer: array<byte>, at: nat, b: seq<byte>)
    requires at + 4 <= buffer.Length && |b| == 4
    modifies buffer
    ensures buffer[..at + 4] == old(buffer[..at]) + b
    ensures buffer[at + 4..] == old(buffer[at + 4..])
  {
    buffer[at], buffer[at + 1], buffer[at + 2], buffer[at + 3] := b[0], b[1], b[2], b[3];
    assert buffer[..at] == old(buffer[..at]);
    forall i | 0 <= i < 4 ensures buffer[at..at + 4][i] == b[i] {
      if i == 0 {
        assert buffer[at] == b[0];
      } else if i == 1 {
        assert buffer[at + 1] == b[1];
      } else if i == 2 {
        assert buffer[at + 2] == b[2];
      }
    }
    assert buffer[at..at + 4] == b;
    assert buffer[..at + 4] == buffer[..at] + buffer[at..at + 4];
  }

  /** Store an integer in network byte order. */
  method PutBig32(buffer: array<byte>, at: nat, n: nat)
    requires at + 4 <= buffer.Length
    modifies buffer
    ensures buffer[..at + 4] == old(buffer[..at]) + Big32(n)
    ensures buffer[at + 4..] == old(buffer[at + 4..])
  {
    PutFour(buffer, at, Big32(n));
  }
}
