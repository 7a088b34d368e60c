/** Bytes and the big-endian integers every codec of the program writes and reads. */
module Bytes {

  type Byte = x: int | 0 <= x < 0x100

  /** The bound of an n-byte unsigned integer. */
  function Limit(n: nat): (r: nat)
    ensures r > 0
  {
    if n == 0 then 1 else 0x100 * Limit(n - 1)
  }

  lemma Limits()
    ensures Limit(1) == 0x100 && Limit(2) == 0x1_0000
    ensures Limit(4) == 0x1_0000_0000 && Limit(8) == 0x1_0000_0000_0000_0000
  {
    assert Limit(2) == 0x1_0000;
    assert Limit(4) == 0x1_0000 * Limit(2);
    assert Limit(8) == 0x1_0000 * (0x1_0000 * Limit(4)) by {
      assert Limit(6) == 0x1_0000 * Limit(4);
    }
  }

  /** The low n bytes of value, most significant first. */
  function BigEndian(value: nat, n: nat): (r: seq<Byte>)
    ensures |r| == n
  {
    if n == 0 then [] else BigEndian(value / 0x100, n - 1) + [value % 0x100]
  }

  function FromBigEndian(b: seq<Byte>): nat {
    if b == [] then 0 else FromBigEndian(b[..|b| - 1]) * 0x100 + b[|b| - 1]
  }

  lemma {:induction false} BigEndianRoundTrip(value: nat, n: nat)
    requires value < Limit(n)
    ensures FromBigEndian(BigEndian(value, n)) == value
  {
    if n == 0 {
    } else {
      BigEndianRoundTrip(value / 0x100, n - 1);
      assert BigEndian(value, n)[..n - 1] == BigEndian(value / 0x100, n - 1);
    }
  }

  lemma {:induction false} FromBigEndianRoundTrip(b: seq<Byte>)
    ensures FromBigEndian(b) < Limit(|b|)
    ensures BigEndian(FromBigEndian(b), |b|) == b
  {
    if b == [] {
    } else {
      FromBigEndianRoundTrip(b[..|b| - 1]);
      assert b == b[..|b| - 1] + [b[|b| - 1]];
    }
  }

  /** The reading loop of the codecs: one shift and one byte at a time. */
  method ReadBigEndian(b: seq<Byte>) returns (value: nat)
    ensures value == FromBigEndian(b) < Limit(|b|)
  {
    value := 0;
    for i := 0 to |b|
      invariant value == FromBigEndian(b[..i])
    {
      value := value * 0x100 + b[i];
      assert b[..i + 1][..i] == b[..i];
    }
    assert b[..|b|] == b;
    FromBigEndianRoundTrip(b);
  }

  /** value shifted right by k bytes. */
  function ShiftRight(value: nat, k: nat): nat {
    if k == 0 then value else ShiftRight(value / 0x100, k - 1)
  }

  lemma {:induction false} ShiftOnce(value: nat, k: nat)
    ensures ShiftRight(value, k + 1) == ShiftRight(value, k) / 0x100
  {
    if k > 0 {
      ShiftOnce(value / 0x100, k - 1);
    }
  }

  /** The writing loop of the codecs: the most significant of the n bytes first. */
  method AppendBigEndian(out: seq<Byte>, value: nat, n: nat) returns (r: seq<Byte>)
    ensures r == out + BigEndian(value, n)
  {
    r := out;
    var shift := n;
    while shift > 0
      invariant 0 <= shift <= n
      invariant r == out + BigEndian(ShiftRight(value, shift), n - shift)
    {
      shift := shift - 1;
      ShiftOnce(value, shift);
      r := r + [ShiftRight(value, shift) % 0x100];
    }
  }

  lemma Reassociate<T>(a: seq<T>, b: seq<T>, c: seq<T>)
    ensures (a + b) + c == a + (b + c)
  {
  }

  /** The bytes of a string of ASCII characters. */
  function Ascii(s: string): (r: seq<Byte>)
    ensures |r| == |s|
  {
    seq(|s|, i requires 0 <= i < |s| => s[i] as int % 0x80)
  }
}
