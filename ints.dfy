/** The fixed-width integers of the loader (Rust's `u16`, `i16` and `i64`) as ranges of `int`,
    with the two conversions the statement builders apply to them. */
module Ints {
  import opened Results

  type U16 = x: int | 0 <= x < 0x1_0000
  type I16 = x: int | -0x8000 <= x < 0x8000
  type I64 = x: int | -0x8000_0000_0000_0000 <= x < 0x8000_0000_0000_0000

  const I16Max: int := 0x7FFF

  /** Rust's `TryInto<i16>`: fails (None) when the value lies outside the `i16` range. */
  function TryIntoI16(x: int): (r: Option<I16>)
    ensures r.Some? <==> -0x8000 <= x <= I16Max
    ensures r.Some? ==> r.value == x
  {
    if -0x8000 <= x <= I16Max then Some(x) else None
  }

  /** Rust's lossless `Into<i64>` from `u16`: total, so it can never fail. */
  function IntoI64(x: U16): (r: I64)
    ensures r == x as int
  {
    x
  }
}
