/**
 * The per-pixel term of the texture score: the squared deviation of the
 * smoothed image from its 15x15 box mean. Both images are 8-bit, so the
 * subtraction and the square are taken modulo 256.
 */
module Texture {

  newtype Byte = x: int | 0 <= x < 256

  /** The term as computed: difference and square both wrap modulo 256. */
  function SquaredDeviationAsWritten(pixel: Byte, mean: Byte): (r: Byte)
    ensures r as int == (pixel as int - mean as int) * (pixel as int - mean as int) % 256
  {
    var d := (pixel as int - mean as int) % 256;
    WrappedSquare(pixel as int - mean as int);
    (d * d % 256) as Byte
  }

  /** Squaring commutes with reduction modulo 256. */
  lemma WrappedSquare(x: int)
    ensures (x % 256) * (x % 256) % 256 == x * x % 256
  {
    var q := x / 256;
    var d := x % 256;
    assert x == 256 * q + d;
    assert x * x == 256 * (256 * q * q + 2 * q * d) + d * d;
    ModuloOfMultiplePlus(256 * q * q + 2 * q * d, d * d);
  }

  lemma ModuloOfMultiplePlus(k: int, r: int)
    ensures (256 * k + r) % 256 == r % 256
  {
  }

  /** The intended term: the true squared deviation. */
  function SquaredDeviation(pixel: Byte, mean: Byte): (r: nat)
    ensures r == 0 <==> pixel == mean
    ensures r <= 255 * 255
  {
    var d := pixel as int - mean as int;
    assert d * d <= 255 * 255 by {
      if d >= 0 { BoundedSquare(d); } else { BoundedSquare(-d); }
    }
    d * d
  }

  lemma BoundedSquare(d: nat)
    requires d <= 255
    ensures d * d <= 255 * 255
  {
  }

  /** The true squared deviation grows with the distance from the mean. */
  lemma SquaredDeviationMonotone(p1: Byte, m1: Byte, p2: Byte, m2: Byte)
    requires Distance(p1, m1) <= Distance(p2, m2)
    ensures SquaredDeviation(p1, m1) <= SquaredDeviation(p2, m2)
  {
    SquareMonotone(Distance(p1, m1), Distance(p2, m2));
  }

  lemma SquareMonotone(a: nat, b: nat)
    requires a <= b
    ensures a * a <= b * b
  {
  }

  function Distance(pixel: Byte, mean: Byte): (n: nat)
    ensures n * n == (pixel as int - mean as int) * (pixel as int - mean as int)
  {
    if pixel >= mean then (pixel - mean) as nat else (mean - pixel) as nat
  }

  /** The computed term keeps only the low eight bits of the true one. */
  lemma AsWrittenKeepsLowBits(pixel: Byte, mean: Byte)
    ensures SquaredDeviationAsWritten(pixel, mean) as int == SquaredDeviation(pixel, mean) % 256
  {
  }

  /**
   * A pixel 16 levels above its local mean contributes nothing to the computed
   * score, and less than a pixel one level above it.
   */
  lemma AsWrittenLosesDeviation()
    ensures SquaredDeviation(16, 0) == 256 && SquaredDeviationAsWritten(16, 0) == 0
    ensures SquaredDeviation(1, 0) == 1 && SquaredDeviationAsWritten(1, 0) == 1
  {
  }
}
