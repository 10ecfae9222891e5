/** Bytes, and numbers stored in them, the lowest byte first. */
module Bytes {
  type Byte = b: int | 0 <= b < 256

  function Le16(b: seq<Byte>, at: nat): (n: nat)
    requires at + 2 <= |b|
    ensures n < 0x10000
  {
    (b[at] as int) + 256 * (b[at + 1] as int)
  }

  /** The lower byte comes first. */
  lemma Stored16(b: seq<Byte>, at: nat, n: nat)
    requires at + 2 <= |b| && n < 0x10000 && b[at] == n % 0x100 && b[at + 1] == n / 0x100
    ensures Le16(b, at) == n
  {
  }

  function Le32(b: seq<Byte>, at: nat): (n: nat)
    requires at + 4 <= |b|
    ensures n < 0x1_0000_0000
  {
    (b[at] as int) + 0x100 * (b[at + 1] as int) + 0x1_0000 * (b[at + 2] as int) + 0x100_0000 * (b[at + 3] as int)
  }

  /** The lowest 32 bits of a number. */
  function Store32(n: nat): (b: seq<Byte>)
    ensures |b| == 4
  {
    [n % 0x100, n / 0x100 % 0x100, n / 0x100 / 0x100 % 0x100, n / 0x100 / 0x100 / 0x100 % 0x100]
  }

  /** The lowest byte comes first. */
  lemma Stored32(b: seq<Byte>, at: nat, n: nat)
    requires at + 4 <= |b| && n < 0x1_0000_0000
    requires b[at] == n % 0x100 && b[at + 1] == n / 0x100 % 0x100
    requires b[at + 2] == n / 0x1_0000 % 0x100 && b[at + 3] == n / 0x100_0000
    ensures Le32(b, at) == n && (at == 0 && |b| == 4 ==> Store32(n) == b)
  {
    var n1 := n / 0x100;
    var n2 := n1 / 0x100;
    var n3 := n2 / 0x100;
    assert n2 == n / 0x1_0000 && n3 == n / 0x100_0000;
    assert n == n % 0x100 + 0x100 * n1 && n1 == n1 % 0x100 + 0x100 * n2 && n2 == n2 % 0x100 + 0x100 * n3;
    assert n3 < 0x100;
  }

  lemma Stored(n: nat)
    requires n < 0x1_0000_0000
    ensures Le32(Store32(n), 0) == n
  {
    var n1 := n / 0x100;
    var n2 := n1 / 0x100;
    var n3 := n2 / 0x100;
    assert n == n % 0x100 + 0x100 * n1 && n1 == n1 % 0x100 + 0x100 * n2 && n2 == n2 % 0x100 + 0x100 * n3;
    assert n3 < 0x100;
  }
}
