/** Big-endian integers in byte strings, as encoding/binary lays them out. */
module Bytes {

  type byte = x: int | 0 <= x < 256
  type bytes = seq<byte>

  /** 256 to the n: one more than the largest n-byte unsigned integer. */
  function Pow256(n: nat): (p: nat)
    ensures p >= 1
    ensures n > 0 ==> p >= 256
  {
    if n == 0 then 1 else 256 * Pow256(n - 1)
  }

  /** The unsigned big-endian value of the n bytes of s starting at `at`. */
  function FromBE(s: bytes, at: nat, n: nat): (v: nat)
    requires at + n <= |s|
    ensures v < Pow256(n)
  {
    if n == 0 then 0 else FromBE(s, at, n - 1) * 256 + s[at + n - 1]
  }

  /** Byte k of v, counted from the least significant. */
  function Digit(v: nat, k: nat): byte {
    if k == 0 then v % 256 else Digit(v / 256, k - 1)
  }

  /** The low n bytes of v, most significant first. */
  function ToBE(v: nat, n: nat): (s: bytes)
    ensures |s| == n
  {
    seq(n, i requires 0 <= i < n => Digit(v, n - 1 - i))
  }

  /** A two's-complement reading of an n-byte unsigned value. */
  function Signed(v: nat, n: nat): int
    requires v < Pow256(n)
  {
    if v < Pow256(n) / 2 then v else v - Pow256(n)
  }

  const TWO32: int := 0x1_0000_0000
  const TWO64: int := 0x1_0000_0000_0000_0000

  /** Equal bytes read as equal integers. */
  lemma {:induction false} FromBESame(s: bytes, t: bytes, at: nat, n: nat)
    requires at + n <= |s| && at + n <= |t|
    requires forall i :: at <= i < at + n ==> s[i] == t[i]
    ensures FromBE(s, at, n) == FromBE(t, at, n)
  {
    if n > 0 {
      FromBESame(s, t, at, n - 1);
    }
  }

  /** Writing an integer that fits and reading it back returns it. */
  lemma {:induction false} ReadBackBE(v: nat, n: nat)
    requires v < Pow256(n)
    ensures FromBE(ToBE(v, n), 0, n) == v
  {
    if n > 0 {
      ReadBackBE(v / 256, n - 1);
      forall i | 0 <= i < n - 1
        ensures ToBE(v, n)[i] == ToBE(v / 256, n - 1)[i]
      {
        assert Digit(v, n - 1 - i) == Digit(v / 256, n - 2 - i);
      }
      assert ToBE(v, n)[n - 1] == Digit(v, 0);
      FromBESame(ToBE(v, n), ToBE(v / 256, n - 1), 0, n - 1);
    }
  }

  /** A signed 64-bit integer survives being written as eight bytes and read back. */
  lemma Int64RoundTrip(x: int)
    requires -(TWO64 / 2) <= x < TWO64 / 2
    ensures Signed(FromBE(ToBE(x % TWO64, 8), 0, 8), 8) == x
  {
    assert Pow256(4) == TWO32;
    assert Pow256(8) == TWO64;
    ReadBackBE(x % TWO64, 8);
  }

  const TWO16: int := 0x1_0000

  lemma Int16RoundTrip(x: int)
    requires -(TWO16 / 2) <= x < TWO16 / 2
    ensures Signed(FromBE(ToBE(x % TWO16, 2), 0, 2), 2) == x
  {
    assert Pow256(2) == TWO16;
    ReadBackBE(x % TWO16, 2);
  }

  lemma Int32RoundTrip(x: int)
    requires -(TWO32 / 2) <= x < TWO32 / 2
    ensures Signed(FromBE(ToBE(x % TWO32, 4), 0, 4), 4) == x
  {
    assert Pow256(4) == TWO32;
    ReadBackBE(x % TWO32, 4);
  }

  /** A field reads the same wherever its bytes stand. */
  lemma {:induction false} FromBEShift(s: bytes, at: nat, t: bytes)
    requires at + |t| <= |s| && s[at..at + |t|] == t
    ensures FromBE(s, at, |t|) == FromBE(t, 0, |t|)
    decreases |t|
  {
    if t != [] {
      var n := |t| - 1;
      assert s[at..at + n] == t[..n];
      FromBEShift(s, at, t[..n]);
      FromBESame(t, t[..n], 0, n);
      assert s[at..at + |t|][n] == s[at + n];
    }
  }
}
