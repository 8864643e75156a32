/** Go strings as the byte sequences they are, and `strings.Repeat`. */
module Text {
  import opened Arith

  newtype byte = b: int | 0 <= b < 256

  /** A Go `string`: indexing, `len` and slicing all work on bytes. */
  type Str = seq<byte>

  const Space: byte := 32
  const LineFeed: byte := 10

  /** `strings.Repeat(u, n)`: `n` copies of `u` back to back. */
  function Repeat(u: Str, n: nat): (r: Str)
    ensures |r| == |u| * n
  {
    if n == 0 then [] else u + Repeat(u, n - 1)
  }

  /** Byte `i` of a repeated unit is byte `i mod |u|` of the unit. */
  lemma {:induction false} RepeatAt(u: Str, n: nat, i: nat)
    requires i < |Repeat(u, n)|
    ensures Repeat(u, n)[i] == u[i % |u|]
    decreases n
  {
    if i >= |u| {
      RepeatAt(u, n - 1, i - |u|);
      ModShift(i, |u|);
    }
  }

  /** The first `k` units of `n` repeated units are `k` repeated units. */
  lemma RepeatPrefix(u: Str, n: nat, k: nat)
    requires k <= n
    ensures |u| * k <= |Repeat(u, n)|
    ensures Repeat(u, n)[..|u| * k] == Repeat(u, k)
  {
    MulMono(|u|, k, n);
    var a, b := Repeat(u, n)[..|u| * k], Repeat(u, k);
    forall i | 0 <= i < |b|
      ensures a[i] == b[i]
    {
      RepeatAt(u, n, i);
      RepeatAt(u, k, i);
    }
  }
}
