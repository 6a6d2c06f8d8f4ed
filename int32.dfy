/** Java `int`/`Integer` arithmetic: two's-complement 32-bit values that wrap around. */
module Int32 {

  const Modulus: int := 0x1_0000_0000
  const Min: int := -0x8000_0000
  const Max: int := 0x7fff_ffff

  predicate InRange(x: int) {
    Min <= x <= Max
  }

  /** The 32-bit value that Java's `+` or `-` produces for the exact result `x`. */
  function Wrap(x: int): (r: int)
    ensures InRange(r)
    ensures (r - x) % Modulus == 0
    ensures InRange(x) ==> r == x
  {
    (x - Min) % Modulus + Min
  }

  /** Java `a + b` on two ints. */
  function Add(a: int, b: int): (r: int)
    ensures InRange(r)
    ensures InRange(a + b) ==> r == a + b
  {
    Wrap(a + b)
  }

  /** Java `a - b` on two ints. */
  function Sub(a: int, b: int): (r: int)
    ensures InRange(r)
    ensures InRange(a - b) ==> r == a - b
  {
    Wrap(a - b)
  }

  /** Euclidean division by the modulus: a quotient and remainder in range are the ones `/` and `%` give. */
  lemma ModUnique(z: int, q: int, r: int)
    requires 0 <= r < Modulus && z == Modulus * q + r
    ensures z % Modulus == r
  {
    var q' := z / Modulus;
    assert z == Modulus * q' + z % Modulus;
  }

  /** Subtracting in two wrapped steps gives the wrap of the exact difference. */
  lemma SubOfWrap(x: int, q: int)
    ensures Sub(Wrap(x), q) == Wrap(x - q)
  {
    var a := x - Min;
    var z := a - q;
    assert a == Modulus * (a / Modulus) + a % Modulus;
    assert z == Modulus * (z / Modulus) + z % Modulus;
    ModUnique(a % Modulus - q, z / Modulus - a / Modulus, z % Modulus);
  }
}
