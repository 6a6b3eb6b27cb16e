/** The C integer widths the preference codec works with. A tree integer is a
    64-bit signed value; every integer field of the records is a 32-bit `int`,
    and reading one back goes through the cast `(int)value`. */
module CInts {
  newtype int32 = x: int | -0x8000_0000 <= x < 0x8000_0000
  newtype int64 = x: int | -0x8000_0000_0000_0000 <= x < 0x8000_0000_0000_0000

  /** INT_MAX for a 32-bit `int`. */
  const IntMax: int := 0x7fff_ffff

  /** The cast `(int)x` on a two's-complement machine: the low 32 bits of `x`,
      read as a signed value. */
  function ToInt32(x: int): (r: int32)
    ensures (x - r as int) % 0x1_0000_0000 == 0
    ensures -0x8000_0000 <= x < 0x8000_0000 ==> r as int == x
    ensures 0 <= x ==> r as int <= x
  {
    var low := (x + 0x8000_0000) % 0x1_0000_0000;
    assert x + 0x8000_0000 == 0x1_0000_0000 * ((x + 0x8000_0000) / 0x1_0000_0000) + low;
    (low - 0x8000_0000) as int32
  }
}
