/**
 * The `treeLogger` of tree-log.go: its indentation state, the cache that
 * the prefix is sliced from, and the events each write call sends to fmt.
 */
module TreeLog {
  import opened Uint8
  import opened Text

  /** `indDefIndent`: the default unit, two spaces. */
  const DefIndent: Str := [Space, Space]
  /** `indDefInLen`: the unit length as a `uint8`. */
  const DefInLen: u8 := |DefIndent| as u8
  /** `indDefCache`: twenty spaces, written out as a literal in the source. */
  const DefCache: Str := [
    Space, Space, Space, Space, Space, Space, Space, Space, Space, Space,
    Space, Space, Space, Space, Space, Space, Space, Space, Space, Space]
  /** `indDefChLen`: how many default units the literal cache holds, divided in `uint8`. */
  const DefChLen: u8 := (|DefCache| as u8) / DefInLen

  /**
   * The fields of `treeLogger` except its `io.Writer`. `current` stands for
   * `current[0]`, the one string the source keeps in its `current` slice.
   */
  datatype TreeLogger = TreeLogger(
    cache: Str,
    indent: Str,
    current: Str,
    level: u8,
    chLen: u8,
    inLen: u8)

  /** An operand of a variadic write: a string, a whole `[]interface{}`, or any other value. */
  datatype Value = Chars(s: Str) | Values(items: seq<Value>) | Opaque(id: nat)

  /** One call of `forcePush`: `fmt.Fprint` or `fmt.Fprintln` with these operands. */
  datatype Event = Fprint(args: seq<Value>) | Fprintln(args: seq<Value>)

  /** The outcome of `clipIndent`: a new state, or a slice-bounds panic and the state it left. */
  datatype Step = Ok(t: TreeLogger) | Panic(t: TreeLogger)

  /** `NewTreeLogger`: the default unit, the literal twenty-space cache and level zero. */
  function NewTreeLogger(): (t: TreeLogger)
    ensures t.indent == [Space, Space] && t.inLen as int == |t.indent|
    ensures |t.cache| == 20 && forall i :: 0 <= i < |t.cache| ==> t.cache[i] == Space
    ensures t.chLen == 10 && t.level == 0 && t.current == []
  {
    TreeLogger(DefCache, DefIndent, [], 0, DefChLen, DefInLen)
  }

  /** `IndentString`: replaces the unit and nothing else; the cache and prefix keep the old unit. */
  function IndentString(t: TreeLogger, txt: Str): (r: TreeLogger)
    ensures r.indent == txt
    ensures r.cache == t.cache && r.current == t.current
    ensures r.level == t.level && r.chLen == t.chLen && r.inLen == t.inLen
  {
    t.(indent := txt)
  }

  /** `resizeCache`: rebuilds the cache from the unit for exactly the current level. */
  function ResizeCache(t: TreeLogger): (r: TreeLogger)
    ensures r.chLen == t.level && r.level == t.level
    ensures r.cache == Repeat(t.indent, t.level as nat)
    ensures r.indent == t.indent && r.inLen == t.inLen && r.current == t.current
  {
    t.(chLen := t.level, cache := Repeat(t.indent, t.level as nat))
  }

  /** The end of the slice `cache[:inLen*level]`, multiplied in `uint8`. */
  function SliceEnd(t: TreeLogger): (r: u8)
    ensures t.inLen as int * t.level as int < 256 ==> r as int == t.inLen as int * t.level as int
    ensures (t.inLen as int * t.level as int - r as int) % 256 == 0
  {
    Mul(t.inLen, t.level)
  }

  /**
   * `clipIndent`: grows the cache only when the level exceeds `chLen`, then
   * slices the prefix from it, which panics when the end is past the cache.
   */
  function ClipIndent(t: TreeLogger): (r: Step)
    ensures t.level > t.chLen ==> r.t.chLen == t.level && r.t.cache == Repeat(t.indent, t.level as nat)
    ensures t.level <= t.chLen ==> r.t.chLen == t.chLen && r.t.cache == t.cache
    ensures r.t.chLen >= t.chLen && r.t.chLen >= r.t.level
    ensures r.t.level == t.level && r.t.indent == t.indent && r.t.inLen == t.inLen
    ensures r.Ok? <==> SliceEnd(t) as int <= |r.t.cache|
    ensures r.Ok? ==> r.t.current == r.t.cache[..SliceEnd(t)]
    ensures r.Panic? ==> r.t.current == t.current
  {
    var s := if t.level > t.chLen then ResizeCache(t) else t;
    var end := SliceEnd(s);
    if end as int <= |s.cache| then Ok(s.(current := s.cache[..end])) else Panic(s)
  }

  /** `Indent`: one level deeper, modulo 256. */
  function Indent(t: TreeLogger): (r: Step)
    ensures r.t.level as int == (t.level as int + 1) % 256
    ensures r.t.chLen >= t.chLen && r.t.chLen >= r.t.level
    ensures r.t.indent == t.indent && r.t.inLen == t.inLen
  {
    ClipIndent(t.(level := Inc(t.level)))
  }

  /** `UnIndent`: one level shallower, modulo 256, so level 0 becomes 255. */
  function UnIndent(t: TreeLogger): (r: Step)
    ensures r.t.level as int == (t.level as int - 1) % 256
    ensures t.level == 0 ==> r.t.level == 255
    ensures r.t.chLen >= t.chLen && r.t.chLen >= r.t.level
    ensures r.t.indent == t.indent && r.t.inLen == t.inLen
  {
    ClipIndent(t.(level := Dec(t.level)))
  }

  /** The event that writes the prefix: `current[0]` as a lone string operand of `fmt.Fprint`. */
  function PrefixEvent(t: TreeLogger): (e: Event)
    ensures e.Fprint? && |e.args| == 1 && e.args[0].Chars? && e.args[0].s == t.current
  {
    Fprint([Chars(t.current)])
  }

  /**
   * `Write`: the prefix comes first, the operands last, and no event ends
   * the line.
   */
  function Write(t: TreeLogger, args: seq<Value>): (r: seq<Event>)
    ensures |r| == 2 && r[0] == PrefixEvent(t) && r[|r| - 1].args == args
    ensures forall i :: 0 <= i < |r| ==> r[i].Fprint?
  {
    [PrefixEvent(t), Fprint(args)]
  }

  /**
   * `WriteLn`: the prefix comes first, the operands last, and only the last
   * event ends the line.
   */
  function WriteLn(t: TreeLogger, args: seq<Value>): (r: seq<Event>)
    ensures |r| == 2 && r[0] == PrefixEvent(t) && r[|r| - 1].args == args
    ensures r[|r| - 1].Fprintln? && forall i :: 0 <= i < |r| - 1 ==> r[i].Fprint?
  {
    [PrefixEvent(t), Fprintln(args)]
  }

  /** `Append`: whatever the state, what `Write` sends after the prefix. */
  function Append(args: seq<Value>): (r: seq<Event>)
    ensures forall t :: Write(t, args) == [PrefixEvent(t)] + r
  {
    [Fprint(args)]
  }

  /** `NewLine`: whatever the state, what `WriteLn` with no operands sends after the prefix. */
  function NewLine(): (r: seq<Event>)
    ensures forall t :: WriteLn(t, []) == [PrefixEvent(t)] + r
  {
    [Fprintln([])]
  }
}
