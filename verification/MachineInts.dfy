/** Rust's fixed-width unsigned integers as bounded naturals, with their checked operations. */
module MachineInts {
  import opened Wrappers
  import opened Arithmetic

  const TWO_32: int := 0x1_0000_0000
  const TWO_64: int := 0x1_0000_0000_0000_0000
  const TWO_127: int := 0x8000_0000_0000_0000_0000_0000_0000_0000
  const TWO_128: int := 0x1_0000_0000_0000_0000_0000_0000_0000_0000

  type u8 = x: int | 0 <= x < 0x100
  type u16 = x: int | 0 <= x < 0x1_0000
  type u32 = x: int | 0 <= x < TWO_32
  type u64 = x: int | 0 <= x < TWO_64
  type u128 = x: int | 0 <= x < TWO_128

  function CheckedAdd32(a: u32, b: u32): Option<u32> {
    if a + b < TWO_32 then Some(a + b) else None
  }

  function CheckedAdd64(a: u64, b: u64): Option<u64> {
    if a + b < TWO_64 then Some(a + b) else None
  }

  function CheckedSub64(a: u64, b: u64): Option<u64> {
    if b <= a then Some(a - b) else None
  }

  function SaturatingSub64(a: u64, b: u64): u64 {
    if b <= a then a - b else 0
  }

  function CheckedAdd128(a: u128, b: u128): Option<u128> {
    if a + b < TWO_128 then Some(a + b) else None
  }

  function CheckedSub128(a: u128, b: u128): Option<u128> {
    if b <= a then Some(a - b) else None
  }

  function CheckedMul128(a: u128, b: u128): Option<u128> {
    MulMono(0, a, b);
    if a * b < TWO_128 then Some(a * b) else None
  }

  function CheckedDiv128(a: u128, b: u128): Option<u128> {
    if b == 0 then None else
      DivBounds(a, b);
      Some(a / b)
  }

  /** `u64::try_from` on a `u128`. */
  function NarrowTo64(a: u128): Option<u64> {
    if a < TWO_64 then Some(a) else None
  }
}
