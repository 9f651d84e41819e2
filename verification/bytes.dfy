/** Fixed-width unsigned integers and their big-endian byte encoding (`u64::to_be_bytes` and
    the utility that reads a `u64` back from a stored value). */
module Bytes {
  import opened Wrappers

  type byte = b: int | 0 <= b < 256

  const U32_MODULUS: int := 0x1_0000_0000
  const U64_MODULUS: int := 0x1_0000_0000_0000_0000

  type u32 = n: int | 0 <= n < U32_MODULUS
  type u64 = n: int | 0 <= n < U64_MODULUS

  /** `a.wrapping_add(b)` on `u64`. */
  function WrappingAdd(a: u64, b: u64): (r: u64)
    ensures a + b < U64_MODULUS ==> r == a + b
    ensures a + b >= U64_MODULUS ==> r == a + b - U64_MODULUS
  {
    (a + b) % U64_MODULUS
  }

  function Pow256(k: nat): (r: nat)
    ensures r >= 1
  {
    if k == 0 then 1 else 256 * Pow256(k - 1)
  }

  lemma Pow256Of8()
    ensures Pow256(8) == U64_MODULUS
  {
    assert Pow256(1) == 0x100;
    assert Pow256(2) == 0x1_0000;
    assert Pow256(3) == 0x100_0000;
    assert Pow256(4) == 0x1_0000_0000;
    assert Pow256(5) == 0x100_0000_0000;
    assert Pow256(6) == 0x1_0000_0000_0000;
    assert Pow256(7) == 0x100_0000_0000_0000;
  }

  /** The `width` low-order bytes of `n`, most significant first. */
  function BeBytes(n: nat, width: nat): (r: seq<byte>)
    ensures |r| == width
  {
    if width == 0 then [] else BeBytes(n / 256, width - 1) + [n % 256]
  }

  /** The number a big-endian byte string denotes. */
  function BeValue(s: seq<byte>): (r: nat)
    ensures r < Pow256(|s|)
  {
    if |s| == 0 then 0
    else
      var high := BeValue(s[..|s| - 1]);
      assert high <= Pow256(|s| - 1) - 1;
      assert high * 256 <= Pow256(|s|) - 256;
      high * 256 + s[|s| - 1]
  }

  lemma {:induction false} BeValueOfBeBytes(n: nat, width: nat)
    requires n < Pow256(width)
    ensures BeValue(BeBytes(n, width)) == n
  {
    if width > 0 {
      var s := BeBytes(n, width);
      assert s[..width - 1] == BeBytes(n / 256, width - 1);
      BeValueOfBeBytes(n / 256, width - 1);
    }
  }

  lemma {:induction false} BeBytesOfBeValue(s: seq<byte>)
    ensures BeBytes(BeValue(s), |s|) == s
  {
    if |s| > 0 {
      var init := s[..|s| - 1];
      var v := BeValue(s);
      assert v == BeValue(init) * 256 + s[|s| - 1];
      assert v / 256 == BeValue(init);
      assert v % 256 == s[|s| - 1];
      BeBytesOfBeValue(init);
      assert s == init + [s[|s| - 1]];
    }
  }

  /** `n.to_be_bytes()`. */
  function ToBeBytes(n: u64): (r: seq<byte>)
    ensures |r| == 8
  {
    BeBytes(n, 8)
  }

  /** Reading a `u64` back from storage: exactly eight big-endian bytes, anything else is refused. */
  function U64FromBytes(s: seq<byte>): (r: Option<u64>)
    ensures r.Some? <==> |s| == 8
    ensures r.Some? ==> ToBeBytes(r.value) == s
  {
    if |s| != 8 then None
    else
      Pow256Of8();
      BeBytesOfBeValue(s);
      Some(BeValue(s))
  }

  /** Writing a `u64` and reading it back returns the same value. */
  lemma U64RoundTrip(n: u64)
    ensures U64FromBytes(ToBeBytes(n)) == Some(n)
  {
    Pow256Of8();
    BeValueOfBeBytes(n, 8);
  }
}
