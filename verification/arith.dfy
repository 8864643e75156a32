/** Facts about integer multiplication and Euclidean remainder that the solver does not find alone. */
module Arith {

  lemma MulMono(a: nat, b: nat, c: nat)
    requires b <= c
    ensures a * b <= a * c
  {
  }

  lemma ModShift(i: int, m: int)
    requires 0 < m <= i
    ensures (i - m) % m == i % m
  {
    var q, r := i / m, i % m;
    assert i == q * m + r;
    assert i - m == (q - 1) * m + r;
    ModUnique(i - m, m, q - 1, r);
  }

  /** Euclidean division has one remainder. */
  lemma ModUnique(x: int, m: int, q: int, r: int)
    requires 0 <= r < m && x == q * m + r
    ensures x % m == r
  {
    var q', r' := x / m, x % m;
    assert x == q' * m + r';
    var d := q - q';
    assert d * m == r' - r by {
      assert q * m - q' * m == (q - q') * m;
    }
    MultipleBounds(d, m);
  }

  /** A non-zero multiple of `m` is at least `m` away from zero. */
  lemma MultipleBounds(d: int, m: int)
    requires m >= 0
    ensures d >= 1 ==> d * m >= m
    ensures d <= -1 ==> d * m <= -m
  {
    if d >= 1 {
      MulMono(m, 1, d);
    } else if d <= -1 {
      MulMono(m, 1, -d);
    }
  }

  /** Reducing modulo 256 first does not change the remainder modulo 128. */
  lemma ModMod(n: int)
    ensures (n % 256) % 128 == n % 128
  {
    var q, r := n / 256, n % 256;
    assert n == 256 * q + r;
    assert r == 128 * (r / 128) + r % 128;
    assert n == (2 * q + r / 128) * 128 + r % 128;
    ModUnique(n, 128, 2 * q + r / 128, r % 128);
  }

  /** A number below the modulus is its own remainder. */
  lemma SmallMod(x: int, m: int)
    requires 0 <= x < m
    ensures x % m == x
  {
    ModUnique(x, m, 0, x);
  }

  /** Reducing the first addend modulo `m` does not change the sum's remainder. */
  lemma ModAdd(a: int, b: int, m: int)
    requires m > 0
    ensures (a % m + b) % m == (a + b) % m
  {
    var x := a % m + b;
    assert a == (a / m) * m + a % m;
    assert x == (x / m) * m + x % m;
    assert a + b == (x / m + a / m) * m + x % m;
    ModUnique(a + b, m, x / m + a / m, x % m);
  }
}
