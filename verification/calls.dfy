/**
 * Chains of calls on one `treeLogger`, as a caller writes them fluently:
 * each call's effect on the state and on the events sent to fmt, with a
 * panic ending the chain.
 */
module Calls {
  import opened Arith
  import opened Uint8
  import opened Text
  import T = TreeLog
  import P = Prefix

  /** The methods of `treeLogger` that a chain can call. */
  datatype Op =
    | IndentString(txt: Str)
    | Indent
    | UnIndent
    | Write(args: seq<T.Value>)
    | WriteLn(args: seq<T.Value>)
    | WriteChild(args: seq<T.Value>)
    | WriteChildLn(args: seq<T.Value>)
    | Append(args: seq<T.Value>)
    | NewLine

  /** A chain so far: the logger, every event sent to fmt, and whether a panic has unwound it. */
  datatype Run = Run(t: T.TreeLogger, out: seq<T.Event>, panicked: bool)

  /** A chain that starts at `NewTreeLogger()`. */
  function Fresh(): Run
  {
    Run(T.NewTreeLogger(), [], false)
  }

  /** `n` calls of `Indent` in a row. */
  function Indents(n: nat): (ops: seq<Op>)
    ensures |ops| == n && forall i :: 0 <= i < n ==> ops[i] == Indent
  {
    seq(n, _ => Indent)
  }

  function After(r: Run, s: T.Step): Run
  {
    Run(s.t, r.out, s.Panic?)
  }

  /**
   * `WriteChild` / `WriteChildLn`: `Indent`, then `Write` / `WriteLn` with the
   * whole argument slice as its single operand, then `UnIndent`.
   */
  function Child(r: Run, line: bool, args: seq<T.Value>): (s: Run)
    ensures r.out <= s.out && s.t.indent == r.t.indent && s.t.inLen == r.t.inLen && s.t.chLen >= r.t.chLen
    ensures T.Indent(r.t).Panic? ==> s.panicked && s.out == r.out && s.t.level == Inc(r.t.level)
    ensures T.Indent(r.t).Ok? ==>
              |s.out| == |r.out| + 2 && s.out[|r.out|] == T.PrefixEvent(T.Indent(r.t).t)
              && s.out[|r.out| + 1].args == [T.Values(args)] && (s.out[|r.out| + 1].Fprintln? <==> line)
    ensures !s.panicked ==> s.t.level == r.t.level
  {
    var a := T.Indent(r.t);
    if a.Panic? then After(r, a)
    else
      var w := if line then T.WriteLn(a.t, [T.Values(args)]) else T.Write(a.t, [T.Values(args)]);
      After(r.(out := r.out + w), T.UnIndent(a.t))
  }

  /** One call: a panicked chain does nothing more. */
  function Apply(r: Run, op: Op): (s: Run)
    ensures r.panicked ==> s == r
    ensures s.t.chLen >= r.t.chLen && s.t.inLen == r.t.inLen
    ensures r.out <= s.out
    ensures !op.IndentString? ==> s.t.indent == r.t.indent
    ensures op.IndentString? || op.Write? || op.WriteLn? || op.Append? || op.NewLine? ==>
              s.t.level == r.t.level && s.t.cache == r.t.cache && s.t.current == r.t.current
              && s.panicked == r.panicked
  {
    if r.panicked then r
    else
      match op
      case IndentString(txt) => r.(t := T.IndentString(r.t, txt))
      case Indent => After(r, T.Indent(r.t))
      case UnIndent => After(r, T.UnIndent(r.t))
      case Write(args) => r.(out := r.out + T.Write(r.t, args))
      case WriteLn(args) => r.(out := r.out + T.WriteLn(r.t, args))
      case WriteChild(args) => Child(r, false, args)
      case WriteChildLn(args) => Child(r, true, args)
      case Append(args) => r.(out := r.out + T.Append(args))
      case NewLine => r.(out := r.out + T.NewLine())
  }

  /** A chain of calls, left to right. `chLen` never decreases, `inLen` never changes, output only grows. */
  function Exec(r: Run, ops: seq<Op>): (s: Run)
    ensures s.t.chLen >= r.t.chLen && s.t.inLen == r.t.inLen
    ensures r.out <= s.out
    ensures r.panicked ==> s == r
    decreases |ops|
  {
    if ops == [] then r else Exec(Apply(r, ops[0]), ops[1..])
  }

  /** How far one call moves the level: `Indent` one deeper, `UnIndent` one shallower, everything else nowhere. */
  function Delta(op: Op): int
  {
    if op.Indent? then 1 else if op.UnIndent? then -1 else 0
  }

  /** The net number of `Indent` calls in a chain: each `UnIndent` cancels one, child writes count zero. */
  function Net(ops: seq<Op>): int
    decreases |ops|
  {
    if ops == [] then 0 else Delta(ops[0]) + Net(ops[1..])
  }

  /** The net count of a chain split in two is the sum of the net counts of its parts. */
  lemma {:induction false} NetConcat(a: seq<Op>, b: seq<Op>)
    ensures Net(a + b) == Net(a) + Net(b)
    decreases |a|
  {
    if a == [] {
      assert a + b == b;
    } else {
      assert (a + b)[0] == a[0] && (a + b)[1..] == a[1..] + b;
      NetConcat(a[1..], b);
    }
  }

  /** Every unit a chain sets is at least `w` bytes long. */
  predicate UnitsAtLeast(ops: seq<Op>, w: nat)
  {
    forall i :: 0 <= i < |ops| && ops[i].IndentString? ==> |ops[i].txt| >= w
  }

  /** Every unit a chain sets is `u` itself. */
  predicate KeepsUnit(ops: seq<Op>, u: Str)
  {
    forall i :: 0 <= i < |ops| && ops[i].IndentString? ==> ops[i].txt == u
  }

  lemma {:induction false} ExecConcat(r: Run, a: seq<Op>, b: seq<Op>)
    ensures Exec(r, a + b) == Exec(Exec(r, a), b)
    decreases |a|
  {
    if a == [] {
      assert a + b == b;
    } else {
      assert (a + b)[1..] == a[1..] + b;
      ExecConcat(Apply(r, a[0]), a[1..], b);
    }
  }

  lemma ThreeCalls(r: Run, a: Op, b: Op, c: Op)
    ensures Exec(r, [a, b, c]) == Apply(Apply(Apply(r, a), b), c)
  {
    var ops := [a, b, c];
    assert ops[1..] == [b, c] && ops[1..][1..] == [c] && ops[1..][1..][1..] == [];
    var r1 := Apply(r, a);
    var r2 := Apply(r1, b);
    assert Exec(r, ops) == Exec(r1, [b, c]);
    assert Exec(r1, [b, c]) == Exec(r2, [c]);
    assert Exec(r2, [c]) == Exec(Apply(r2, c), []);
  }

  /** `WriteChild(args)` is `Indent`, `Write` of the slice `args` as one operand, `UnIndent`. */
  lemma WriteChildIsIndentWriteUnIndent(r: Run, args: seq<T.Value>)
    ensures Apply(r, WriteChild(args)) == Exec(r, [Indent, Write([T.Values(args)]), UnIndent])
  {
    ThreeCalls(r, Indent, Write([T.Values(args)]), UnIndent);
  }

  /** `WriteChildLn(args)` is `Indent`, `WriteLn` of the slice `args` as one operand, `UnIndent`. */
  lemma WriteChildLnIsIndentWriteLnUnIndent(r: Run, args: seq<T.Value>)
    ensures Apply(r, WriteChildLn(args)) == Exec(r, [Indent, WriteLn([T.Values(args)]), UnIndent])
  {
    ThreeCalls(r, Indent, WriteLn([T.Values(args)]), UnIndent);
  }

  /**
   * A `WriteChild` / `WriteChildLn` that does not panic leaves the level
   * where it was, also at 255 where its `Indent` wraps to 0.
   */
  lemma ChildRestoresLevel(r: Run, op: Op)
    requires op.WriteChild? || op.WriteChildLn?
    ensures !Apply(r, op).panicked ==> Apply(r, op).t.level == r.t.level
  {
  }

  /**
   * A child write that stays within the cache leaves the logger exactly as
   * it found it: level, cache and prefix included.
   */
  lemma ChildWithinCacheKeepsState(r: Run, args: seq<T.Value>)
    requires !r.panicked && P.Fits(r.t) && r.t.level < r.t.chLen
    ensures !Apply(r, WriteChild(args)).panicked && Apply(r, WriteChild(args)).t == r.t
    ensures !Apply(r, WriteChildLn(args)).panicked && Apply(r, WriteChildLn(args)).t == r.t
  {
    P.IndentUnIndentWithinCache(r.t);
  }

  /** Every call keeps `Fits` when the unit it may set is not shorter than `inLen`. */
  lemma ApplyFits(r: Run, op: Op)
    requires !r.panicked && P.Fits(r.t)
    requires op.IndentString? ==> |op.txt| >= r.t.inLen as int
    ensures !Apply(r, op).panicked && P.Fits(Apply(r, op).t)
  {
    match op
    case Indent => P.IndentFits(r.t);
    case UnIndent => P.UnIndentFits(r.t);
    case WriteChild(_) =>
      P.IndentFits(r.t);
      P.UnIndentFits(T.Indent(r.t).t);
    case WriteChildLn(_) =>
      P.IndentFits(r.t);
      P.UnIndentFits(T.Indent(r.t).t);
    case _ =>
  }

  /** Every call keeps `Exact` when the unit it may set is the current one. */
  lemma ApplyExact(r: Run, op: Op)
    requires !r.panicked && P.Exact(r.t)
    requires op.IndentString? ==> op.txt == r.t.indent
    ensures !Apply(r, op).panicked && P.Exact(Apply(r, op).t)
  {
    match op
    case Indent => P.IndentExact(r.t);
    case UnIndent => P.UnIndentExact(r.t);
    case WriteChild(_) =>
      P.IndentExact(r.t);
      P.UnIndentExact(T.Indent(r.t).t);
    case WriteChildLn(_) =>
      P.IndentExact(r.t);
      P.UnIndentExact(T.Indent(r.t).t);
    case _ =>
  }

  lemma {:induction false} ExecFits(r: Run, ops: seq<Op>)
    requires !r.panicked && P.Fits(r.t)
    requires UnitsAtLeast(ops, r.t.inLen as nat)
    ensures !Exec(r, ops).panicked && P.Fits(Exec(r, ops).t)
    decreases |ops|
  {
    if ops != [] {
      ApplyFits(r, ops[0]);
      ExecFits(Apply(r, ops[0]), ops[1..]);
    }
  }

  lemma {:induction false} ExecExact(r: Run, ops: seq<Op>)
    requires !r.panicked && P.Exact(r.t)
    requires KeepsUnit(ops, r.t.indent)
    ensures !Exec(r, ops).panicked && P.Exact(Exec(r, ops).t)
    ensures Exec(r, ops).t.indent == r.t.indent
    decreases |ops|
  {
    if ops != [] {
      ApplyExact(r, ops[0]);
      ExecExact(Apply(r, ops[0]), ops[1..]);
    }
  }

  /**
   * From a fresh logger, a chain that never sets a unit shorter than two
   * bytes never panics, and the prefix is always the slice
   * `cache[:inLen*level]` of a cache that holds it.
   */
  lemma NeverPanics(ops: seq<Op>)
    requires UnitsAtLeast(ops, 2)
    ensures !Exec(Fresh(), ops).panicked
    ensures Exec(Fresh(), ops).t.level <= Exec(Fresh(), ops).t.chLen
    ensures T.SliceEnd(Exec(Fresh(), ops).t) as int <= |Exec(Fresh(), ops).t.cache|
    ensures Exec(Fresh(), ops).t.current == Exec(Fresh(), ops).t.cache[..T.SliceEnd(Exec(Fresh(), ops).t)]
  {
    P.ExactFits(T.NewTreeLogger());
    ExecFits(Fresh(), ops);
  }

  /**
   * From a fresh logger, a chain that keeps the default unit never panics,
   * and its prefix is the unit repeated `level mod 128` times: `level`
   * times up to 127, none at 128.
   */
  lemma PrefixIsRepeatedUnit(ops: seq<Op>)
    requires KeepsUnit(ops, T.DefIndent)
    ensures !Exec(Fresh(), ops).panicked
    ensures Exec(Fresh(), ops).t.current == Repeat(T.DefIndent, Exec(Fresh(), ops).t.level as nat % 128)
    ensures Exec(Fresh(), ops).t.level <= 127 ==>
              Exec(Fresh(), ops).t.current == Repeat(T.DefIndent, Exec(Fresh(), ops).t.level as nat)
  {
    var f := Fresh();
    P.FreshIsExact();
    ExecExact(f, ops);
    var e := Exec(f, ops);
    if e.t.level <= 127 {
      SmallMod(e.t.level as int, 128);
    }
  }

  /** `n` `Indent` calls that do not panic move the level by `n`, modulo 256. */
  lemma IndentsMoveLevel(r: Run, n: nat)
    requires !r.panicked
    ensures !Exec(r, Indents(n)).panicked ==> Exec(r, Indents(n)).t.level == Wrap(r.t.level as int + n)
  {
    ExecLevel(r, Indents(n));
    NetIndents(n);
  }

  /** One more `Indent` is one more call at the end of the chain. */
  lemma IndentsSnoc(n: nat)
    ensures Indents(n + 1) == Indents(n) + [Indent]
  {
  }

  /** `n` `Indent` calls have a net count of `n`. */
  lemma {:induction false} NetIndents(n: nat)
    ensures Net(Indents(n)) == n
  {
    if n == 0 {
      assert Indents(0) == [];
    } else {
      IndentsSnoc(n - 1);
      NetConcat(Indents(n - 1), [Indent]);
      NetIndents(n - 1);
      assert [Indent][1..] == [];
    }
  }

  /** A call that does not panic moves the level by its `Delta`, modulo 256. */
  lemma ApplyLevel(r: Run, op: Op)
    requires !r.panicked
    ensures !Apply(r, op).panicked ==> Apply(r, op).t.level == Wrap(r.t.level as int + Delta(op))
  {
    if op.WriteChild? || op.WriteChildLn? {
      ChildRestoresLevel(r, op);
    }
  }

  /**
   * A chain that does not panic ends at its starting level plus the net
   * number of `Indent` calls, modulo 256, whatever else it calls in between.
   */
  lemma {:induction false} ExecLevel(r: Run, ops: seq<Op>)
    ensures !Exec(r, ops).panicked ==> Exec(r, ops).t.level == Wrap(r.t.level as int + Net(ops))
    decreases |ops|
  {
    if ops == [] {
      assert Exec(r, ops) == r && Net(ops) == 0;
    } else {
      var s := Apply(r, ops[0]);
      ExecCons(r, ops);
      if !Exec(s, ops[1..]).panicked {
        ApplyLevel(r, ops[0]);
        ExecLevel(s, ops[1..]);
        LevelsAdd(r.t.level, s.t.level, Exec(s, ops[1..]).t.level, Delta(ops[0]), Net(ops[1..]));
      }
    }
  }

  /** A non-empty chain is its first call followed by the rest. */
  lemma ExecCons(r: Run, ops: seq<Op>)
    requires ops != []
    ensures Exec(r, ops) == Exec(Apply(r, ops[0]), ops[1..])
    ensures Net(ops) == Delta(ops[0]) + Net(ops[1..])
    ensures !Exec(r, ops).panicked ==> !Apply(r, ops[0]).panicked && !r.panicked
  {
  }

  /** Two level moves in `uint8` add up. */
  lemma LevelsAdd(a: u8, b: u8, c: u8, d: int, n: int)
    requires b == Wrap(a as int + d) && c == Wrap(b as int + n)
    ensures c == Wrap(a as int + (d + n))
  {
    WrapAdd(a as int + d, n);
    assert a as int + d + n == a as int + (d + n);
  }

  /**
   * From a fresh logger, a chain that keeps the default unit writes, before
   * its next line, the unit repeated as many times as the chain's net number
   * of `Indent` calls, modulo 128: exactly that many for a net count from 0
   * to 127, none for 128, and 127 after one `UnIndent` too many.
   */
  lemma PrefixFollowsNet(ops: seq<Op>)
    requires KeepsUnit(ops, T.DefIndent)
    ensures !Exec(Fresh(), ops).panicked
    ensures Exec(Fresh(), ops).t.level as int == Net(ops) % 256
    ensures Exec(Fresh(), ops).t.current == Repeat(T.DefIndent, Net(ops) % 128)
    ensures 0 <= Net(ops) < 128 ==> Exec(Fresh(), ops).t.current == Repeat(T.DefIndent, Net(ops))
  {
    var n := Net(ops);
    PrefixIsRepeatedUnit(ops);
    FreshLevel(ops);
    if 0 <= n < 128 {
      SmallMod(n, 128);
    }
  }

  /** From a fresh logger, a chain that does not panic ends at its net count of `Indent` calls, in `uint8`. */
  lemma FreshLevel(ops: seq<Op>)
    ensures !Exec(Fresh(), ops).panicked ==> Exec(Fresh(), ops).t.level as int == Net(ops) % 256
    ensures !Exec(Fresh(), ops).panicked ==> Exec(Fresh(), ops).t.level as nat % 128 == Net(ops) % 128
  {
    var f, n := Fresh(), Net(ops);
    assert f.t.level == 0;
    ExecLevel(f, ops);
    assert !Exec(f, ops).panicked ==> Exec(f, ops).t.level == Wrap(n);
    WrapMod128(n);
  }

  /**
   * `n` `Indent` calls on a fresh logger reach level `n mod 256` without a
   * panic, with `n mod 128` units of prefix: at depth 128 the `uint8` slice
   * end `2*128` wraps to 0 and no indentation is written.
   */
  lemma IndentsFromFresh(n: nat)
    ensures !Exec(Fresh(), Indents(n)).panicked
    ensures Exec(Fresh(), Indents(n)).t.level as nat == n % 256
    ensures Exec(Fresh(), Indents(n)).t.current == Repeat(T.DefIndent, n % 128)
    ensures n % 128 == 0 ==> Exec(Fresh(), Indents(n)).t.current == []
  {
    var f := Fresh();
    P.FreshIsExact();
    ExecExact(f, Indents(n));
    IndentsMoveLevel(f, n);
    var e := Exec(f, Indents(n));
    assert e.t.level == Wrap(n);
    WrapIsMod(n);
    ModMod(n);
    assert e.t.level as nat % 128 == n % 128;
  }

  /**
   * `IndentString` does not reach the prefix until a later `Indent` or
   * `UnIndent` moves the level above `chLen`: after `IndentString("> ")` and
   * one `Indent`, `WriteLn` still writes the old two-space prefix.
   */
  lemma StaleUnitAfterIndentString(args: seq<T.Value>)
    ensures Exec(Fresh(), [IndentString([62, 32]), Indent, WriteLn(args)]).out
         == [T.Fprint([T.Chars(T.DefIndent)]), T.Fprintln(args)]
  {
    ThreeCalls(Fresh(), IndentString([62, 32]), Indent, WriteLn(args));
    var t := T.IndentString(T.NewTreeLogger(), [62, 32]);
    assert T.Indent(t).t.current == T.DefCache[..2] == T.DefIndent;
  }

  /**
   * A unit shorter than two bytes set on a fresh logger panics at the
   * eleventh `Indent`, the first one that rebuilds the ten-unit cache.
   */
  lemma ShortUnitPanicsAtEleven(u: Str)
    requires |u| < 2
    ensures !Exec(Fresh(), [IndentString(u)] + Indents(10)).panicked
    ensures Exec(Fresh(), [IndentString(u)] + Indents(11)).panicked
  {
    var f := Fresh();
    var r := Apply(f, IndentString(u));
    assert Exec(f, [IndentString(u)]) == Exec(r, []) == r;
    ExecConcat(f, [IndentString(u)], Indents(10));
    ExecConcat(f, [IndentString(u)], Indents(11));
    ShortUnitFromLevelZero(r);
  }

  /**
   * A short unit does not always panic: `UnIndent` on a fresh logger
   * rebuilds a 255-byte cache of one-byte units, and the slice end `2*255`
   * wraps to 254, which is inside it.
   */
  lemma ShortUnitWrapsInsideCache(u: Str)
    requires |u| == 1
    ensures !Exec(Fresh(), [IndentString(u), UnIndent]).panicked
    ensures Exec(Fresh(), [IndentString(u), UnIndent]).t.current == Repeat(u, 254)
  {
    var ops := [IndentString(u), UnIndent];
    var r := Apply(Fresh(), ops[0]);
    ExecCons(Fresh(), ops);
    ExecCons(r, ops[1..]);
    assert ops[1..][1..] == [];
    P.ShortUnitUnIndentAtZero(r.t);
  }

  lemma ShortUnitFromLevelZero(r: Run)
    requires !r.panicked && |r.t.indent| < 2 && r.t.inLen == 2
    requires r.t.level == 0 && r.t.chLen == 10 && |r.t.cache| == 20
    ensures !Exec(r, Indents(10)).panicked
    ensures Exec(r, Indents(11)).panicked
  {
    IndentsWithinCache(r, 10);
    IndentsSnoc(10);
    ExecConcat(r, Indents(10), [Indent]);
    assert [Indent][1..] == [];
    P.ShortUnitPanics(Exec(r, Indents(10)).t);
  }

  /** `Indent` calls that stay within `chLen` only move the level: the cache is not touched. */
  lemma {:induction false} IndentsWithinCache(r: Run, k: nat)
    requires !r.panicked
    requires r.t.level as int + k <= r.t.chLen as int
    requires |r.t.cache| >= r.t.inLen as int * r.t.chLen as int
    ensures !Exec(r, Indents(k)).panicked
    ensures Exec(r, Indents(k)).t.level as int == r.t.level as int + k
    ensures Exec(r, Indents(k)).t == r.t.(level := Exec(r, Indents(k)).t.level, current := Exec(r, Indents(k)).t.current)
    decreases k
  {
    if k > 0 {
      var s := Apply(r, Indent);
      MulMono(r.t.inLen as nat, r.t.level as nat + 1, r.t.chLen as nat);
      assert !s.panicked && s.t.level as int == r.t.level as int + 1;
      assert Indents(k)[1..] == Indents(k - 1);
      IndentsWithinCache(s, k - 1);
    }
  }
}
