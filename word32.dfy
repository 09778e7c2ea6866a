/**
 * `ulong` (`unsigned long`) of the ESP32 toolchain: 32 bits wide, with
 * arithmetic that wraps modulo 2^32.  Both `millis()` and the fields of the
 * trigger state have this type.
 */
module Word32 {
  const Modulus: int := 0x1_0000_0000

  newtype ULong = x: int | 0 <= x < 0x1_0000_0000

  /** `a - b` on `ulong`: the unique 32-bit value that, added to `b`, gives `a` modulo 2^32. */
  function Sub(a: ULong, b: ULong): (r: ULong)
    ensures (b as int + r as int) % Modulus == a as int
    ensures b <= a ==> r == a - b
    ensures a < b ==> r as int == a as int - b as int + Modulus
  {
    ((a as int - b as int) % Modulus) as ULong
  }

  /** `a + b` on `ulong`: exact while the sum fits, otherwise it wraps once. */
  function Add(a: ULong, b: ULong): (r: ULong)
    ensures a as int + b as int < Modulus ==> r as int == a as int + b as int
    ensures a as int + b as int >= Modulus ==> r as int == a as int + b as int - Modulus
  {
    ((a as int + b as int) % Modulus) as ULong
  }

  /** The reading of a wrapping 32-bit millisecond counter `d` ms after it read `base`. */
  function Advance(base: ULong, d: nat): ULong {
    ((base as int + d) % Modulus) as ULong
  }

  /**
   * Measuring a delay by wrapping subtraction is exact across a counter
   * roll-over, and exact ONLY for delays below 2^32 ms (about 49.7 days).
   */
  lemma SubMeasuresDelay(base: ULong, d: nat)
    ensures Sub(Advance(base, d), base) as int == d <==> d < Modulus
  {
  }
}
