/** Fixed-width big-endian integers over sequences of bytes. */
module Bytes {

  type byte = x: int | 0 <= x < 256

  type u16 = x: nat | x < 0x1_0000
  type u32 = x: nat | x < 0x1_0000_0000
  type u64 = x: nat | x < 0x1_0000_0000_0000_0000
  type i16 = x: int | -0x8000 <= x < 0x8000
  type i32 = x: int | -0x8000_0000 <= x < 0x8000_0000
  type i64 = x: int | -0x8000_0000_0000_0000 <= x < 0x8000_0000_0000_0000

  function ToBE(x: nat, width: nat): (s: seq<byte>)
    ensures |s| == width
    decreases width
  {
    if width == 0 then [] else ToBE(x / 256, width - 1) + [x % 256]
  }

  function FromBE(s: seq<byte>): nat {
    if s == [] then 0 else 256 * FromBE(s[..|s| - 1]) + s[|s| - 1]
  }

  function Pow256(width: nat): nat {
    if width == 0 then 1 else 256 * Pow256(width - 1)
  }

  lemma {:induction false} FromToBE(x: nat, width: nat)
    requires x < Pow256(width)
    ensures FromBE(ToBE(x, width)) == x
    decreases width
  {
    if width > 0 {
      FromToBE(x / 256, width - 1);
      assert ToBE(x, width)[..width - 1] == ToBE(x / 256, width - 1);
    }
  }

  lemma {:induction false} ToFromBE(s: seq<byte>)
    ensures ToBE(FromBE(s), |s|) == s && FromBE(s) < Pow256(|s|)
    decreases |s|
  {
    if s != [] {
      ToFromBE(s[..|s| - 1]);
      var n := FromBE(s);
      assert n / 256 == FromBE(s[..|s| - 1]) && n % 256 == s[|s| - 1];
    }
  }

  lemma Widths()
    ensures Pow256(1) == 0x100 && Pow256(2) == 0x1_0000 && Pow256(4) == 0x1_0000_0000 && Pow256(8) == 0x1_0000_0000_0000_0000
  {
    assert Pow256(1) == 256 * Pow256(0);
    assert Pow256(2) == 256 * Pow256(1);
    assert Pow256(3) == 256 * Pow256(2);
    assert Pow256(4) == 256 * Pow256(3);
    assert Pow256(5) == 256 * Pow256(4);
    assert Pow256(6) == 256 * Pow256(5);
    assert Pow256(7) == 256 * Pow256(6);
    assert Pow256(8) == 256 * Pow256(7);
  }

  function PutU16(x: u16): seq<byte> { ToBE(x, 2) }
  function PutU32(x: u32): seq<byte> { ToBE(x, 4) }
  function PutU64(x: u64): seq<byte> { ToBE(x, 8) }

  /** Two's complement. */
  function Unsigned(x: int, modulus: nat): nat
    requires 0 <= x + modulus
  {
    if x < 0 then x + modulus else x
  }

  function Signed(x: nat, modulus: nat): int { if x >= modulus / 2 then x - modulus else x }

  function PutI16(x: i16): seq<byte> { ToBE(Unsigned(x, 0x1_0000), 2) }
  function PutI32(x: i32): seq<byte> { ToBE(Unsigned(x, 0x1_0000_0000), 4) }
  function PutI64(x: i64): seq<byte> { ToBE(Unsigned(x, 0x1_0000_0000_0000_0000), 8) }

  function AsU16(s: seq<byte>): u16 requires |s| == 2 { ToFromBE(s); Widths(); FromBE(s) }
  function AsU32(s: seq<byte>): u32 requires |s| == 4 { ToFromBE(s); Widths(); FromBE(s) }
  function AsU64(s: seq<byte>): u64 requires |s| == 8 { ToFromBE(s); Widths(); FromBE(s) }
  function AsI16(s: seq<byte>): i16 requires |s| == 2 { ToFromBE(s); Widths(); Signed(FromBE(s), 0x1_0000) }
  function AsI32(s: seq<byte>): i32 requires |s| == 4 { ToFromBE(s); Widths(); Signed(FromBE(s), 0x1_0000_0000) }
  function AsI64(s: seq<byte>): i64 requires |s| == 8 { ToFromBE(s); Widths(); Signed(FromBE(s),
                 0x1_0000_0000_0000_0000) }

  lemma RoundU16(x: u16) ensures AsU16(PutU16(x)) == x { Widths(); FromToBE(x, 2); }
  lemma RoundU32(x: u32) ensures AsU32(PutU32(x)) == x { Widths(); FromToBE(x, 4); }
  lemma RoundU64(x: u64) ensures AsU64(PutU64(x)) == x { Widths(); FromToBE(x, 8); }
  lemma RoundI16(x: i16) ensures AsI16(PutI16(x)) == x { Widths(); FromToBE(Unsigned(x, 0x1_0000), 2); }
  lemma RoundI32(x: i32) ensures AsI32(PutI32(x)) == x { Widths(); FromToBE(Unsigned(x, 0x1_0000_0000), 4); }
  lemma RoundI64(x: i64) ensures AsI64(PutI64(x)) == x { Widths(); FromToBE(Unsigned(x, 0x1_0000_0000_0000_0000), 8); }

  /** The first field of a concatenation, and what is left after it. */
  lemma Split(a: seq<byte>, rest: seq<byte>)
    ensures (a + rest)[..|a|] == a && (a + rest)[|a|..] == rest
  {
  }

  lemma SliceOfSlice(s: seq<byte>, a: nat, b: nat, i: nat, j: nat)
    requires a <= b <= |s| && i <= j <= b - a
    ensures s[a..b][i..j] == s[a + i..a + j]
  {
    forall k | 0 <= k < j - i ensures s[a..b][i..j][k] == s[a + i..a + j][k] {
      assert s[a..b][i + k] == s[a + i + k];
    }
  }
}
