/**
 * The text a chain of calls writes, for a given behaviour of fmt. How
 * `fmt.Fprint` and `fmt.Fprintln` render and space their operands is a
 * parameter; the lemmas say which assumptions about it they need.
 */
module Render {
  import opened Text
  import T = TreeLog
  import P = Prefix
  import C = Calls

  /**
   * What fmt makes of a list of operands: `fprint` as `fmt.Fprint` renders
   * them, `fprintln` as `fmt.Fprintln` renders them before its line break.
   */
  datatype Fmt = Fmt(fprint: seq<T.Value> -> Str, fprintln: seq<T.Value> -> Str)

  /** `fmt.Fprint` writes a lone string operand exactly as it is. */
  ghost predicate PrintsStringsVerbatim(f: Fmt)
  {
    forall s: Str :: f.fprint([T.Chars(s)]) == s
  }

  /** `fmt.Fprintln` with no operands writes nothing before its line break. */
  ghost predicate BareLineBreak(f: Fmt)
  {
    f.fprintln([]) == []
  }

  /** The bytes one `forcePush` writes. */
  function Emit(f: Fmt, e: T.Event): (r: Str)
    ensures e.Fprint? ==> r == f.fprint(e.args)
    ensures e.Fprintln? ==> |r| > 0 && r[|r| - 1] == LineFeed && r[..|r| - 1] == f.fprintln(e.args)
  {
    match e
    case Fprint(args) => f.fprint(args)
    case Fprintln(args) => f.fprintln(args) + [LineFeed]
  }

  /** One line of output: a prefix, rendered operands, a line break. */
  function Line(prefix: Str, text: Str): Str
  {
    prefix + text + [LineFeed]
  }

  /** The prefix push writes exactly the prefix, whatever the state. */
  lemma PrefixEventWritesPrefix(f: Fmt, t: T.TreeLogger)
    requires PrintsStringsVerbatim(f)
    ensures Emit(f, T.PrefixEvent(t)) == t.current
  {
  }

  /** The bytes a sequence of events writes, in order. */
  function Output(f: Fmt, es: seq<T.Event>): Str
    decreases |es|
  {
    if es == [] then [] else Emit(f, es[0]) + Output(f, es[1..])
  }

  /** Output is written in order: the text of two event runs is their texts joined. */
  lemma {:induction false} OutputConcat(f: Fmt, a: seq<T.Event>, b: seq<T.Event>)
    ensures Output(f, a + b) == Output(f, a) + Output(f, b)
    decreases |a|
  {
    if a == [] {
      assert a + b == b;
    } else {
      assert (a + b)[0] == a[0] && (a + b)[1..] == a[1..] + b;
      OutputConcat(f, a[1..], b);
    }
  }

  lemma OutputPair(f: Fmt, x: T.Event, y: T.Event)
    ensures Output(f, [x, y]) == Emit(f, x) + Emit(f, y)
  {
    assert [x, y][1..] == [y] && [y][1..] == [];
    assert Output(f, [y]) == Emit(f, y) + Output(f, []);
    assert Emit(f, y) + [] == Emit(f, y);
  }

  /** `Write` writes the prefix and then the operands, with no line break. */
  lemma WriteOutput(f: Fmt, r: C.Run, args: seq<T.Value>)
    requires !r.panicked
    requires PrintsStringsVerbatim(f)
    ensures Output(f, C.Apply(r, C.Write(args)).out) == Output(f, r.out) + r.t.current + f.fprint(args)
  {
    OutputConcat(f, r.out, T.Write(r.t, args));
    OutputPair(f, T.Fprint([T.Chars(r.t.current)]), T.Fprint(args));
  }

  /** `WriteLn` writes the prefix, the operands and one line break. */
  lemma WriteLnOutput(f: Fmt, r: C.Run, args: seq<T.Value>)
    requires !r.panicked
    requires PrintsStringsVerbatim(f)
    ensures Output(f, C.Apply(r, C.WriteLn(args)).out)
         == Output(f, r.out) + Line(r.t.current, f.fprintln(args))
  {
    OutputConcat(f, r.out, T.WriteLn(r.t, args));
    OutputPair(f, T.Fprint([T.Chars(r.t.current)]), T.Fprintln(args));
  }

  /** `Append` writes the operands and never the prefix, at any level. */
  lemma AppendOutput(f: Fmt, r: C.Run, args: seq<T.Value>)
    requires !r.panicked
    ensures Output(f, C.Apply(r, C.Append(args)).out) == Output(f, r.out) + f.fprint(args)
    ensures C.Apply(r, C.Append(args)).t == r.t
  {
    OutputConcat(f, r.out, T.Append(args));
    assert [T.Fprint(args)][1..] == [];
  }

  /** `NewLine` writes exactly one line break and nothing else. */
  lemma NewLineOutput(f: Fmt, r: C.Run)
    requires !r.panicked
    requires BareLineBreak(f)
    ensures Output(f, C.Apply(r, C.NewLine).out) == Output(f, r.out) + [LineFeed]
    ensures C.Apply(r, C.NewLine).t == r.t
  {
    var nl := T.NewLine();
    assert C.Apply(r, C.NewLine).out == r.out + nl;
    OutputConcat(f, r.out, nl);
    assert nl[1..] == [] && Output(f, nl) == Emit(f, nl[0]) + Output(f, []);
    assert Emit(f, nl[0]) == f.fprintln([]) + [LineFeed] == [LineFeed];
  }

  /**
   * After any chain from a fresh logger that keeps the default unit,
   * `WriteLn` writes the unit repeated as many times as the chain's net
   * number of `Indent` calls, modulo 128, then the operands and a line break.
   */
  lemma WriteLnAtDepth(f: Fmt, ops: seq<C.Op>, args: seq<T.Value>)
    requires C.KeepsUnit(ops, T.DefIndent)
    requires PrintsStringsVerbatim(f)
    ensures Output(f, C.Exec(C.Fresh(), ops + [C.WriteLn(args)]).out)
         == Output(f, C.Exec(C.Fresh(), ops).out) + Line(Repeat(T.DefIndent, C.Net(ops) % 128), f.fprintln(args))
  {
    var r := C.Exec(C.Fresh(), ops);
    C.PrefixFollowsNet(ops);
    C.ExecConcat(C.Fresh(), ops, [C.WriteLn(args)]);
    assert C.Exec(r, [C.WriteLn(args)]) == C.Exec(C.Apply(r, C.WriteLn(args)), []);
    WriteLnOutput(f, r, args);
  }

  /**
   * `WriteChild` writes the prefix one level deeper and the whole argument
   * slice as a single operand, with no line break.
   */
  lemma WriteChildOutput(f: Fmt, r: C.Run, args: seq<T.Value>)
    requires !r.panicked && T.Indent(r.t).Ok?
    requires PrintsStringsVerbatim(f)
    ensures Output(f, C.Apply(r, C.WriteChild(args)).out)
         == Output(f, r.out) + T.Indent(r.t).t.current + f.fprint([T.Values(args)])
  {
    var a := T.Indent(r.t).t;
    var w := T.Write(a, [T.Values(args)]);
    assert C.Apply(r, C.WriteChild(args)).out == r.out + w;
    OutputConcat(f, r.out, w);
    OutputPair(f, w[0], w[1]);
    PrefixEventWritesPrefix(f, a);
  }

  /**
   * `WriteChildLn` writes the prefix one level deeper, the whole argument
   * slice as a single operand, and a line break.
   */
  lemma WriteChildLnOutput(f: Fmt, r: C.Run, args: seq<T.Value>)
    requires !r.panicked && T.Indent(r.t).Ok?
    requires PrintsStringsVerbatim(f)
    ensures Output(f, C.Apply(r, C.WriteChildLn(args)).out)
         == Output(f, r.out) + Line(T.Indent(r.t).t.current, f.fprintln([T.Values(args)]))
  {
    var a := T.Indent(r.t).t;
    var w := T.WriteLn(a, [T.Values(args)]);
    assert C.Apply(r, C.WriteChildLn(args)).out == r.out + w;
    OutputConcat(f, r.out, w);
    OutputPair(f, w[0], w[1]);
    PrefixEventWritesPrefix(f, a);
    var text := f.fprintln([T.Values(args)]);
    assert Emit(f, w[1]) == text + [LineFeed];
    assert Output(f, w) == a.current + (text + [LineFeed]) == Line(a.current, text);
  }

  /** The logger states the tree scenario passes through. */
  lemma ScenarioStates(a: T.Value, b: T.Value, c: T.Value)
    ensures var r2 := C.Apply(C.Apply(C.Fresh(), C.WriteLn([a])), C.Indent);
            var r3 := C.Apply(r2, C.WriteLn([b]));
            var r4 := C.Apply(r3, C.WriteChildLn([c]));
            && !r2.panicked && r2.t.current == T.DefIndent
            && !r3.panicked && r3.t == r2.t
            && T.Indent(r3.t).Ok? && T.Indent(r3.t).t.current == T.DefIndent + T.DefIndent
            && !r4.panicked && r4.t == r2.t
  {
    var r0 := C.Fresh();
    var r2 := C.Apply(C.Apply(r0, C.WriteLn([a])), C.Indent);
    var r3 := C.Apply(r2, C.WriteLn([b]));
    assert T.DefCache[..2] == T.DefIndent;
    assert T.DefCache[..4] == T.DefIndent + T.DefIndent;
    P.FreshIsExact();
    P.ExactFits(r0.t);
    P.IndentFits(r0.t);
    assert r3.t == r2.t == T.Indent(r0.t).t && P.Fits(r3.t) && r3.t.level < r3.t.chLen;
    C.ChildWithinCacheKeepsState(r3, [c]);
  }

  /**
   * A root line, an indented child, a `WriteChildLn` grandchild and a line
   * back at the child's level: the prefixes are none, one unit, two units
   * and one unit, and the grandchild's operand is its argument slice.
   */
  lemma TreeScenario(f: Fmt, a: T.Value, b: T.Value, c: T.Value, d: T.Value)
    requires PrintsStringsVerbatim(f)
    ensures Output(f, C.Exec(C.Fresh(), [C.WriteLn([a]), C.Indent, C.WriteLn([b]), C.WriteChildLn([c]), C.WriteLn([d])]).out)
         == Line([], f.fprintln([a]))
            + Line(T.DefIndent, f.fprintln([b]))
            + Line(T.DefIndent + T.DefIndent, f.fprintln([T.Values([c])]))
            + Line(T.DefIndent, f.fprintln([d]))
  {
    var ops := [C.WriteLn([a]), C.Indent, C.WriteLn([b]), C.WriteChildLn([c]), C.WriteLn([d])];
    var r0 := C.Fresh();
    var r1 := C.Apply(r0, ops[0]);
    var r2 := C.Apply(r1, ops[1]);
    var r3 := C.Apply(r2, ops[2]);
    var r4 := C.Apply(r3, ops[3]);
    var r5 := C.Apply(r4, ops[4]);
    C.ExecCons(r0, ops);
    C.ExecCons(r1, ops[1..]);
    C.ExecCons(r2, ops[2..]);
    C.ExecCons(r3, ops[3..]);
    C.ExecCons(r4, ops[4..]);
    assert ops[1..][1..] == ops[2..] && ops[2..][1..] == ops[3..] && ops[3..][1..] == ops[4..] && ops[4..][1..] == [];
    assert C.Exec(r0, ops) == r5;
    ScenarioStates(a, b, c);

    var dd := T.DefIndent + T.DefIndent;
    var l1 := Line([], f.fprintln([a]));
    var l2 := Line(T.DefIndent, f.fprintln([b]));
    var l3 := Line(dd, f.fprintln([T.Values([c])]));
    var l4 := Line(T.DefIndent, f.fprintln([d]));
    assert Output(f, r0.out) == [];
    WriteLnOutput(f, r0, [a]);
    assert [] + l1 == l1;
    assert Output(f, r2.out) == l1;
    WriteLnOutput(f, r2, [b]);
    assert Output(f, r3.out) == l1 + l2;
    WriteChildLnOutput(f, r3, [c]);
    assert Output(f, r4.out) == l1 + l2 + l3;
    WriteLnOutput(f, r4, [d]);
    assert Output(f, r5.out) == l1 + l2 + l3 + l4;
  }
}
