/**
 * Fixed-width unsigned integers and their little-endian byte encoding,
 * as Rust's `u64::to_le_bytes` / `u64::from_le_bytes` define it.
 */
module Bytes {

  const U8_LIMIT: int := 0x100
  const U32_LIMIT: int := 0x1_0000_0000
  const U64_LIMIT: int := 0x1_0000_0000_0000_0000
  const U64_MAX: int := U64_LIMIT - 1

  type u8 = x: int | 0 <= x < U8_LIMIT
  type u32 = x: int | 0 <= x < U32_LIMIT
  type u64 = x: int | 0 <= x < U64_LIMIT
  type Bytes = seq<u8>

  /** 256 raised to the n-th power: the number of values n bytes can hold. */
  function Pow256(n: nat): (r: nat)
    ensures r > 0
  {
    if n == 0 then 1 else 256 * Pow256(n - 1)
  }

  lemma Pow256Eight()
    ensures Pow256(8) == U64_LIMIT
  {
    assert Pow256(1) == 0x100;
    assert Pow256(2) == 0x1_0000;
    assert Pow256(3) == 0x100_0000;
    assert Pow256(4) == 0x1_0000_0000;
    assert Pow256(5) == 0x100_0000_0000;
    assert Pow256(6) == 0x1_0000_0000_0000;
    assert Pow256(7) == 0x100_0000_0000_0000;
  }

  /** The value of a little-endian byte string: byte 0 is the least significant. */
  function FromLe(b: Bytes): (r: nat)
    ensures r < Pow256(|b|)
  {
    if b == [] then 0 else b[0] + 256 * FromLe(b[1..])
  }

  /** The n least significant bytes of v, least significant first. */
  function ToLe(v: nat, n: nat): (r: Bytes)
    ensures |r| == n
  {
    if n == 0 then [] else [v % 256] + ToLe(v / 256, n - 1)
  }

  /** Encoding a value that fits in n bytes and reading it back gives the value. */
  lemma {:induction false} FromLeToLe(v: nat, n: nat)
    requires v < Pow256(n)
    ensures FromLe(ToLe(v, n)) == v
  {
    if n > 0 {
      var r := ToLe(v, n);
      assert r[1..] == ToLe(v / 256, n - 1);
      FromLeToLe(v / 256, n - 1);
    }
  }

  /** Reading a byte string and encoding the value at the same width gives the bytes back. */
  lemma {:induction false} ToLeFromLe(b: Bytes)
    ensures ToLe(FromLe(b), |b|) == b
  {
    if b != [] {
      var v := FromLe(b);
      assert v == b[0] + 256 * FromLe(b[1..]);
      assert v % 256 == b[0];
      assert v / 256 == FromLe(b[1..]);
      ToLeFromLe(b[1..]);
    }
  }
}
