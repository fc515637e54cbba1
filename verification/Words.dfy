/** Machine-word constants and the one fact about products that several models use. */
module Words {

  const TWO31: int := 0x8000_0000
  const TWO32: int := 0x1_0000_0000
  const TWO44: int := 0x1000_0000_0000
  const TWO63: int := 0x8000_0000_0000_0000
  const TWO64: int := 0x1_0000_0000_0000_0000

  /** `RUNTIME_INF`, the largest unsigned 64-bit number. */
  const RUNTIME_INF: int := 0xFFFF_FFFF_FFFF_FFFF

  lemma Scale(a: int, b: int, c: int)
    requires a <= b && 0 <= c
    ensures a * c <= b * c
  {
    assert b * c - a * c == (b - a) * c;
  }
}
