/** Little-endian integers and keys inside account data. */
module Bytes {
  import opened Wrappers
  import opened MachineInts

  type Pubkey = s: seq<u8> | |s| == 32 witness seq(32, _ => 0)

  /** `Pubkey::default()`, which is also the address of the System program. */
  const DEFAULT_KEY: Pubkey := [
    0, 0, 0, 0, 0, 0, 0, 0, 0, 0, 0, 0, 0, 0, 0, 0,
    0, 0, 0, 0, 0, 0, 0, 0, 0, 0, 0, 0, 0, 0, 0, 0
  ]

  function Pow256(n: nat): (p: nat)
    ensures 0 < p
  {
    if n == 0 then 1 else 256 * Pow256(n - 1)
  }

  /** `from_le_bytes` for an unsigned integer of any width. */
  function LeValue(s: seq<u8>): (v: nat)
    ensures v < Pow256(|s|)
  {
    if s == [] then 0 else s[0] + 256 * LeValue(s[1..])
  }

  /** `to_le_bytes`. */
  function LeBytes(v: nat, width: nat): (s: seq<u8>)
    requires v < Pow256(width)
    ensures |s| == width && LeValue(s) == v
  {
    if width == 0 then [] else [v % 256] + LeBytes(v / 256, width - 1)
  }

  /** Two's complement reading of a 128-bit pattern, as `i128::from_le_bytes` does. */
  function Signed128(bits: u128): int {
    if bits < TWO_127 then bits else bits - TWO_128
  }

  function Bits128(v: int): u128
    requires -TWO_127 <= v < TWO_127
  {
    if 0 <= v then v else v + TWO_128
  }

  lemma Pow256Widths()
    ensures Pow256(2) == 0x1_0000 && Pow256(4) == TWO_32
    ensures Pow256(8) == TWO_64 && Pow256(16) == TWO_128
  {
    assert Pow256(1) == 256 && Pow256(2) == 0x1_0000 && Pow256(3) == 0x100_0000;
    assert Pow256(5) == 0x100_0000_0000 && Pow256(6) == 0x1_0000_0000_0000 && Pow256(7) == 0x100_0000_0000_0000;
    assert Pow256(8) == TWO_64;
    assert Pow256(9) == 256 * TWO_64 && Pow256(10) == 0x1_0000 * TWO_64 && Pow256(11) == 0x100_0000 * TWO_64;
    assert Pow256(12) == TWO_32 * TWO_64 && Pow256(13) == 256 * TWO_32 * TWO_64;
    assert Pow256(14) == 0x1_0000 * TWO_32 * TWO_64 && Pow256(15) == 0x100_0000 * TWO_32 * TWO_64;
  }

  function LeBytes16(v: u16): (s: seq<u8>)
    ensures |s| == 2 && LeValue(s) == v
  {
    Pow256Widths();
    LeBytes(v, 2)
  }

  function LeBytes32(v: u32): (s: seq<u8>)
    ensures |s| == 4 && LeValue(s) == v
  {
    Pow256Widths();
    LeBytes(v, 4)
  }

  function LeBytes64(v: u64): (s: seq<u8>)
    ensures |s| == 8 && LeValue(s) == v
  {
    Pow256Widths();
    LeBytes(v, 8)
  }

  function LeBytes128(v: u128): (s: seq<u8>)
    ensures |s| == 16 && LeValue(s) == v
  {
    Pow256Widths();
    LeBytes(v, 16)
  }

  /** Byte order: what follows `s` weighs `256` to the number of bytes in `s`. */
  lemma {:induction false} LowBytesFirst(s: seq<u8>, t: seq<u8>)
    ensures LeValue(s + t) == LeValue(s) + Pow256(|s|) * LeValue(t)
    ensures |s| == 1 ==> LeValue(s) == s[0]
  {
    if s == [] {
      assert s + t == t;
    } else {
      LowBytesFirst(s[1..], t);
      assert (s + t)[1..] == s[1..] + t;
      ShiftByte(s[0], LeValue(s[1..]), Pow256(|s| - 1), LeValue(t));
    }
  }

  lemma ShiftByte(low: nat, rest: nat, weight: nat, high: nat)
    ensures low + 256 * (rest + weight * high) == (low + 256 * rest) + (256 * weight) * high
  {}

  /** The signed reading agrees with the pattern modulo `2^128` and is the one that fits. */
  lemma SignedReading(bits: u128)
    ensures -TWO_127 <= Signed128(bits) < TWO_127
    ensures Signed128(bits) == bits || Signed128(bits) == bits - TWO_128
  {}

  /** A value has only one encoding of each width. */
  lemma {:induction false} LeValueInjective(s: seq<u8>, t: seq<u8>)
    requires |s| == |t| && LeValue(s) == LeValue(t)
    ensures s == t
  {
    if s == [] {
    } else {
      assert s[0] == LeValue(s) % 256 && t[0] == LeValue(t) % 256;
      LeValueInjective(s[1..], t[1..]);
      assert s == [s[0]] + s[1..] && t == [t[0]] + t[1..];
    }
  }

  /** `width` bytes at `offset`, refused when the data ends before them. */
  function Slice(data: seq<u8>, offset: nat, width: nat): (r: Option<seq<u8>>)
    ensures r.Some? <==> offset + width <= |data|
    ensures r.Some? ==> |r.value| == width
  {
    if offset + width <= |data| then Some(data[offset..offset + width]) else None
  }

  function ReadKey(data: seq<u8>, offset: nat): Option<Pubkey> {
    match Slice(data, offset, 32)
    case Some(s) => Some(s)
    case None => None
  }

  predicate KeyIs(data: seq<u8>, offset: nat, key: Pubkey) {
    ReadKey(data, offset) == Some(key)
  }

  function ReadU16(data: seq<u8>, offset: nat): Option<u16> {
    var s :- Slice(data, offset, 2);
    Pow256Widths();
    Some(LeValue(s))
  }

  function ReadU32(data: seq<u8>, offset: nat): Option<u32> {
    var s :- Slice(data, offset, 4);
    Pow256Widths();
    Some(LeValue(s))
  }

  function ReadU64(data: seq<u8>, offset: nat): Option<u64> {
    var s :- Slice(data, offset, 8);
    Pow256Widths();
    Some(LeValue(s))
  }

  function ReadU128(data: seq<u8>, offset: nat): Option<u128> {
    var s :- Slice(data, offset, 16);
    Pow256Widths();
    Some(LeValue(s))
  }

  /** A field appended to `before` reads back from anything that goes on from there. */
  lemma AppendedField(before: seq<u8>, field: seq<u8>, whole: seq<u8>)
    requires before + field <= whole
    ensures before <= whole && Slice(whole, |before|, |field|) == Some(field)
  {
    assert whole[|before|..|before| + |field|] == (before + field)[|before|..];
  }

  /** The converse: a prefix and the field read after it make a longer prefix. */
  lemma JoinField(before: seq<u8>, field: seq<u8>, whole: seq<u8>)
    requires before <= whole && Slice(whole, |before|, |field|) == Some(field)
    ensures before + field <= whole
  {
    assert whole[..|before| + |field|] == whole[..|before|] + whole[|before|..|before| + |field|];
  }

  /** A 64-bit number written after some bytes reads back from there. */
  lemma NumberAt(before: seq<u8>, v: u64, tail: seq<u8>)
    ensures var data := before + LeBytes64(v) + tail;
            data[..|before|] == before && ReadU64(data, |before|) == Some(v)
    ensures tail == [] ==> before + LeBytes64(v) + tail == before + LeBytes64(v)
  {
    hide LeBytes64, LeValue, Pow256;
    AppendedField(before, LeBytes64(v), before + LeBytes64(v) + tail);
  }

  /** Two sequences that agree up to the shorter one agree on every slice within both. */
  lemma SlicePrefix(data: seq<u8>, full: seq<u8>, offset: nat, width: nat)
    requires data <= full || full <= data
    requires offset + width <= |data| && offset + width <= |full|
    ensures Slice(data, offset, width) == Slice(full, offset, width)
  {
    assert data[offset..offset + width] == full[offset..offset + width];
  }
}
