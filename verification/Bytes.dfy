/** Bounded integers, options and little-endian byte strings (bdx/messages.go). */
module Bytes {
  datatype Option<+T> = None | Some(value: T)

  datatype Result<+T, +E> = Ok(value: T) | Err(error: E)

  type byte = b: int | 0 <= b < 0x100
  type u16 = n: int | 0 <= n < 0x1_0000
  type u32 = n: int | 0 <= n < 0x1_0000_0000
  type u64 = n: int | 0 <= n < 0x1_0000_0000_0000_0000

  function Min(a: int, b: int): int {
    if a < b then a else b
  }

  function Pow256(n: nat): (p: nat)
    ensures p > 0
  {
    if n == 0 then 1 else 256 * Pow256(n - 1)
  }

  /** The low `n` bytes of `v`, least significant first. */
  function ToLE(v: nat, n: nat): (s: seq<byte>)
    ensures |s| == n
  {
    if n == 0 then [] else [v % 256] + ToLE(v / 256, n - 1)
  }

  function FromLE(s: seq<byte>): (v: nat)
    ensures v < Pow256(|s|)
  {
    if s == [] then 0 else s[0] + 256 * FromLE(s[1..])
  }

  lemma SmallMultiple(d: int, k: int)
    requires -d < d * k < d
    ensures k == 0
  {}

  lemma DivModUnique(v: nat, d: nat, q: nat, r: nat)
    requires d > 0 && r < d && v == d * q + r
    ensures v % d == r && v / d == q
  {
    var q', r' := v / d, v % d;
    assert v == d * q' + r';
    assert d * (q' - q) == r - r';
    SmallMultiple(d, q' - q);
  }

  lemma ModSplit(v: nat, p: nat)
    requires p > 0
    ensures v % (256 * p) == v % 256 + 256 * ((v / 256) % p)
  {
    var q := v / 256;
    var a, b := q / p, q % p;
    assert q == p * a + b;
    assert v == 256 * q + v % 256;
    assert 256 * (p * a) == (256 * p) * a;
    DivModUnique(v, 256 * p, a, 256 * b + v % 256);
  }

  /** Writing keeps exactly the value modulo the field's width. */
  lemma {:induction false} FromLEToLE(v: nat, n: nat)
    ensures FromLE(ToLE(v, n)) == v % Pow256(n)
  {
    if n > 0 {
      FromLEToLE(v / 256, n - 1);
      assert ToLE(v, n)[1..] == ToLE(v / 256, n - 1);
      ModSplit(v, Pow256(n - 1));
    }
  }

  lemma Widths()
    ensures Pow256(2) == 0x1_0000
    ensures Pow256(4) == 0x1_0000_0000
    ensures Pow256(8) == 0x1_0000_0000_0000_0000
  {
    assert Pow256(0) == 1 && Pow256(1) == 256 && Pow256(2) == 0x1_0000;
    assert Pow256(3) == 0x100_0000 && Pow256(4) == 0x1_0000_0000;
    assert Pow256(5) == 0x100_0000_0000 && Pow256(6) == 0x1_0000_0000_0000;
    assert Pow256(7) == 0x100_0000_0000_0000;
  }

  function U16(s: seq<byte>): u16
    requires |s| == 2
  {
    Widths();
    FromLE(s)
  }

  function U32(s: seq<byte>): u32
    requires |s| == 4
  {
    Widths();
    FromLE(s)
  }

  function U64(s: seq<byte>): u64
    requires |s| == 8
  {
    Widths();
    FromLE(s)
  }

  lemma RoundTrip16(v: u16)
    ensures U16(ToLE(v, 2)) == v
  {
    Widths();
    FromLEToLE(v, 2);
  }

  /** A 32-bit field keeps a wider value only modulo 2^32. */
  lemma RoundTrip32(v: nat)
    ensures U32(ToLE(v, 4)) == v % 0x1_0000_0000
  {
    Widths();
    FromLEToLE(v, 4);
  }

  lemma RoundTrip64(v: u64)
    ensures U64(ToLE(v, 8)) == v
  {
    Widths();
    FromLEToLE(v, 8);
  }
}
