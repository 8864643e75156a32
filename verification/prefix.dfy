/**
 * When the prefix slice `cache[:inLen*level]` in `clipIndent` is in bounds,
 * and when the prefix is the unit repeated `level` times.
 */
module Prefix {
  import opened Arith
  import opened Uint8
  import opened Text
  import opened TreeLog

  /**
   * The state between two calls when no unit shorter than `inLen` was set:
   * the cache covers `chLen >= level` units of `inLen` bytes and the prefix
   * is the slice the last `clipIndent` took.
   */
  predicate Fits(t: TreeLogger) {
    && t.level <= t.chLen
    && |t.indent| >= t.inLen as int
    && |t.cache| >= t.inLen as int * t.chLen as int
    && SliceEnd(t) as int <= |t.cache|
    && t.current == t.cache[..SliceEnd(t)]
  }

  /**
   * The state between two calls when the unit never changed width or
   * content: the cache is `chLen` copies of the two-byte unit, and the
   * prefix is the unit repeated `level` times, modulo 128 because the slice
   * end `2*level` is computed in `uint8`.
   */
  predicate Exact(t: TreeLogger) {
    && t.inLen == DefInLen
    && |t.indent| == DefInLen as int
    && t.level <= t.chLen
    && t.cache == Repeat(t.indent, t.chLen as nat)
    && t.current == Repeat(t.indent, t.level as nat % 128)
  }

  lemma ExactFits(t: TreeLogger)
    requires Exact(t)
    ensures Fits(t)
  {
    DoubleWraps(t.level);
    RepeatPrefix(t.indent, t.chLen as nat, t.level as nat % 128);
  }

  /** The literal default cache is ten default units. */
  lemma FreshIsExact()
    ensures Exact(NewTreeLogger())
  {
    var t := NewTreeLogger();
    var c := Repeat(t.indent, 10);
    forall i | 0 <= i < 20
      ensures c[i] == t.cache[i]
    {
      RepeatAt(t.indent, 10, i);
    }
  }

  /** `clipIndent` never panics while the unit is at least `inLen` bytes and the cache covers `chLen` units. */
  lemma ClipFits(t: TreeLogger)
    requires |t.indent| >= t.inLen as int
    requires |t.cache| >= t.inLen as int * t.chLen as int
    ensures ClipIndent(t).Ok? && Fits(ClipIndent(t).t)
  {
    var r := ClipIndent(t);
    if t.level > t.chLen {
      MulMono(t.level as nat, t.inLen as nat, |t.indent|);
      assert |r.t.cache| >= t.inLen as int * t.level as int;
    } else {
      MulMono(t.inLen as nat, t.level as nat, t.chLen as nat);
    }
  }

  /** `clipIndent` on a cache of whole two-byte units yields the unit repeated `level mod 128` times. */
  lemma ClipExact(t: TreeLogger)
    requires t.inLen == DefInLen && |t.indent| == DefInLen as int
    requires t.cache == Repeat(t.indent, t.chLen as nat)
    ensures ClipIndent(t).Ok? && Exact(ClipIndent(t).t)
  {
    var s := if t.level > t.chLen then ResizeCache(t) else t;
    DoubleWraps(t.level);
    RepeatPrefix(t.indent, s.chLen as nat, t.level as nat % 128);
  }

  lemma IndentFits(t: TreeLogger)
    requires Fits(t)
    ensures Indent(t).Ok? && Fits(Indent(t).t)
  {
    ClipFits(t.(level := Inc(t.level)));
  }

  lemma UnIndentFits(t: TreeLogger)
    requires Fits(t)
    ensures UnIndent(t).Ok? && Fits(UnIndent(t).t)
  {
    ClipFits(t.(level := Dec(t.level)));
  }

  lemma IndentExact(t: TreeLogger)
    requires Exact(t)
    ensures Indent(t).Ok? && Exact(Indent(t).t)
  {
    ClipExact(t.(level := Inc(t.level)));
  }

  lemma UnIndentExact(t: TreeLogger)
    requires Exact(t)
    ensures UnIndent(t).Ok? && Exact(UnIndent(t).t)
  {
    ClipExact(t.(level := Dec(t.level)));
  }

  /**
   * `UnIndent` on a fresh logger wraps the level to 255, which exceeds the
   * cached 10 units: the cache is rebuilt as 255 units (510 bytes), and the
   * slice end `2*255` wraps to 254, so the prefix is 127 units.
   */
  lemma UnIndentAtZero()
    ensures UnIndent(NewTreeLogger()).Ok?
    ensures UnIndent(NewTreeLogger()).t.level == 255
    ensures UnIndent(NewTreeLogger()).t.chLen == 255
    ensures |UnIndent(NewTreeLogger()).t.cache| == 510
    ensures UnIndent(NewTreeLogger()).t.current == Repeat(DefIndent, 127)
  {
    UnIndentExact(NewTreeLogger());
  }

  /**
   * A unit shorter than `inLen` set by `IndentString` panics at the first
   * `Indent` that rebuilds the cache: the rebuilt cache holds `level` short
   * units, fewer bytes than the `inLen*level` end of the slice.
   */
  lemma ShortUnitPanics(t: TreeLogger)
    requires |t.indent| < t.inLen as int
    requires t.level == t.chLen
    requires t.inLen as int * (t.level as int + 1) < 256
    ensures Indent(t).Panic?
  {
    var l := t.level as int + 1;
    MulMono(l, |t.indent|, t.inLen as nat - 1);
    assert |t.indent| * l < t.inLen as int * l;
  }

  /**
   * A one-byte unit at level 0 with `inLen` 2 and a cache shorter than 255
   * units: `UnIndent` rebuilds a 255-byte cache and slices it at the wrapped
   * end `2*255 mod 256 = 254`, inside the cache.
   */
  lemma ShortUnitUnIndentAtZero(t: TreeLogger)
    requires |t.indent| == 1 && t.inLen == 2 && t.level == 0 && t.chLen < 255
    ensures UnIndent(t).Ok? && UnIndent(t).t.current == Repeat(t.indent, 254)
  {
    DoubleWraps(255);
    RepeatPrefix(t.indent, 255, 254);
  }

  /**
   * Within the cache, `UnIndent` after `Indent` gives back the very state it
   * started from: no rebuild happens and the same slice is taken again.
   */
  lemma IndentUnIndentWithinCache(t: TreeLogger)
    requires Fits(t) && t.level < t.chLen
    ensures Indent(t).Ok? && UnIndent(Indent(t).t) == Ok(t)
  {
    IndentFits(t);
    var a := Indent(t).t;
    UnIndentFits(a);
    IncDecInverse(t.level);
    assert UnIndent(a).t.level == t.level && UnIndent(a).t.cache == t.cache;
  }
}
