/** The fixed-width Rust integers of the projection and the narrowing `usize -> u8`. */
module RustInts {
  import opened Options

  newtype u8 = x: int | 0 <= x < 0x100
  newtype usize = x: int | 0 <= x < 0x1_0000_0000_0000_0000
  newtype i64 = x: int | -0x8000_0000_0000_0000 <= x < 0x8000_0000_0000_0000

  /** `<u8 as TryFrom<usize>>::try_from`: succeeds exactly when the value fits in a byte. */
  function TryIntoU8(n: usize): (r: Option<u8>)
    ensures r.Some? <==> n < 0x100
    ensures r.Some? ==> r.value as int == n as int
  {
    if n < 0x100 then Some(n as int as u8) else None
  }

  /** `n.try_into().unwrap_or(0)`: a length that does not fit in a byte becomes 0. */
  function NarrowToU8(n: usize): (r: u8)
    ensures n <= 255 ==> r as int == n as int
    ensures n > 255 ==> r == 0
  {
    TryIntoU8(n).UnwrapOr(0)
  }

  /** A nonzero narrowed length is the library's length itself, and never more than it. */
  lemma NarrowedNonzeroIsExact(n: usize)
    ensures NarrowToU8(n) != 0 ==> NarrowToU8(n) as int == n as int
    ensures NarrowToU8(n) as int <= n as int
  {
  }
}
