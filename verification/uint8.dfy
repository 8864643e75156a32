/** Go's `uint8` arithmetic: every result is reduced modulo 256. */
module Uint8 {
  import opened Arith

  newtype u8 = x: int | 0 <= x < 256

  /** The `uint8` value a Go integer expression of this type evaluates to. */
  function Wrap(x: int): (r: u8)
    ensures 0 <= x < 256 ==> r as int == x
    ensures (x - r as int) % 256 == 0
  {
    (x % 256) as u8
  }

  /** `x++` on a `uint8`: 255 wraps to 0. */
  function Inc(x: u8): (r: u8)
    ensures x < 255 ==> r as int == x as int + 1
    ensures x == 255 ==> r == 0
  {
    Wrap(x as int + 1)
  }

  /** `x--` on a `uint8`: 0 wraps to 255. */
  function Dec(x: u8): (r: u8)
    ensures x > 0 ==> r as int == x as int - 1
    ensures x == 0 ==> r == 255
  {
    Wrap(x as int - 1)
  }

  /** `a*b` on two `uint8` operands: the product modulo 256. */
  function Mul(a: u8, b: u8): (r: u8)
    ensures r as int <= a as int * b as int
    ensures a as int * b as int < 256 ==> r as int == a as int * b as int
    ensures (a as int * b as int - r as int) % 256 == 0
  {
    Wrap(a as int * b as int)
  }

  /** `Dec` undoes `Inc` and `Inc` undoes `Dec`, across the wrap as well. */
  lemma IncDecInverse(x: u8)
    ensures Dec(Inc(x)) == x
    ensures Inc(Dec(x)) == x
  {
  }

  /** Doubling in `uint8` drops the top bit of the operand: `2*x` wraps to `2*(x mod 128)`. */
  lemma DoubleWraps(x: u8)
    ensures Mul(2, x) as int == 2 * (x as int % 128)
  {
    if x >= 128 {
      assert 2 * x as int - 256 == 2 * (x as int - 128);
    }
  }

  /** The `uint8` value of `x` is its Euclidean remainder modulo 256. */
  lemma WrapIsMod(x: int)
    ensures Wrap(x) as int == x % 256
  {
  }

  /** Wrapping an intermediate sum does not change the `uint8` result. */
  lemma WrapAdd(a: int, b: int)
    ensures Wrap(Wrap(a) as int + b) == Wrap(a + b)
  {
    WrapIsMod(a);
    WrapIsMod(Wrap(a) as int + b);
    WrapIsMod(a + b);
    ModAdd(a, b, 256);
  }

  /** The `uint8` value of `n`, reduced modulo 128, is `n` modulo 128. */
  lemma WrapMod128(n: int)
    ensures Wrap(n) as int == n % 256
    ensures Wrap(n) as int % 128 == n % 128
  {
    WrapIsMod(n);
    ModMod(n);
  }
}
