/** Go's fixed-width integer types and the conversions between them, as the
    rest of the model uses them. Dafny integers are unbounded, so every Go
    conversion that can wrap is written out here. */
module GoTypes {

  datatype Option<+T> = None | Some(value: T)

  /** Go's int16. */
  newtype Int16 = x: int | -0x8000 <= x < 0x8000

  /** Go's uint8 (also called byte). */
  newtype Uint8 = x: int | 0 <= x < 0x100

  /** Go's conversion int16(v) of a wider integer: it keeps the low 16 bits of
      v and reads them as a two's-complement number. Go's int16 addition wraps
      the same way, so `a + b` on int16 is ToInt16(a + b). */
  function ToInt16(v: int): (r: Int16)
    ensures (r as int - v) % 0x1_0000 == 0
    ensures -0x8000 <= v < 0x8000 ==> r as int == v
  {
    ((v + 0x8000) % 0x1_0000 - 0x8000) as Int16
  }

  /** Go's conversion uint8(v): it keeps the low 8 bits of v. */
  function ToUint8(v: int): (r: Uint8)
    ensures (r as int - v) % 0x100 == 0
    ensures 0 <= v < 0x100 ==> r as int == v
  {
    (v % 0x100) as Uint8
  }
}
