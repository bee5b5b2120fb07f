/** Java's 32-bit `int`: its range, two's-complement wrap-around on `+` and `-`, and `Math.min`. */
module JavaInt {
  const MinValue: int := -0x8000_0000
  const MaxValue: int := 0x7fff_ffff
  const Modulus: int := 0x1_0000_0000

  /** The values a Java `int` can hold. */
  type Int32 = x: int | MinValue <= x <= MaxValue

  /** Reduces a mathematical integer to the Java `int` with the same low 32 bits. */
  function Wrap(x: int): (r: Int32)
    ensures (x - r) % Modulus == 0
    ensures MinValue <= x <= MaxValue ==> r == x
    ensures MaxValue < x <= MaxValue + Modulus ==> r == x - Modulus
    ensures MinValue - Modulus <= x < MinValue ==> r == x + Modulus
  {
    var r := (x - MinValue) % Modulus + MinValue;
    assert x - r == ((x - MinValue) / Modulus) * Modulus;
    r
  }

  /** Java `a + b` on two `int`s. */
  function Add(a: Int32, b: Int32): (r: Int32)
    ensures MinValue <= a + b <= MaxValue ==> r == a + b
    ensures a + b > MaxValue ==> r == a + b - Modulus
    ensures a + b < MinValue ==> r == a + b + Modulus
  {
    Wrap(a + b)
  }

  /** Java `a - b` on two `int`s. */
  function Sub(a: Int32, b: Int32): (r: Int32)
    ensures MinValue <= a - b <= MaxValue ==> r == a - b
    ensures a - b > MaxValue ==> r == a - b - Modulus
    ensures a - b < MinValue ==> r == a - b + Modulus
  {
    Wrap(a - b)
  }

  /** `Math.min(a, b)`: the smaller of the two, which is one of them. */
  function Min(a: int, b: int): (r: int)
    ensures r <= a && r <= b
    ensures r == a || r == b
  {
    if a <= b then a else b
  }
}
