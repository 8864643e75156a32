# tree-log indentation state machine, in Dafny

A model of the `treeLogger` of the Go package `tlog` (`tree-log.go`). The logger
prints verbose process logs as an indented tree. Its state is:

- the indentation unit `indent`, two spaces by default;
- a pre-built `cache` of repeated units, sized for `chLen` units;
- `inLen`, the unit length used to slice the cache;
- the nesting `level`;
- `current[0]`, the prefix written before each line.

`level`, `chLen` and `inLen` are `uint8`. `Indent` and `UnIndent` move the level
and call `clipIndent`. `clipIndent` rebuilds the cache only when the level
exceeds `chLen`. It then slices `cache[:inLen*level]`, with the end computed in
`uint8`.

The files:

- `uint8.dfy` (module `Uint8`): Go's `uint8` arithmetic. `++`, `--` and `*` wrap
  modulo 256.
- `text.dfy` (module `Text`): Go strings as byte sequences, and `strings.Repeat`.
- `arith.dfy` (module `Arith`): multiplication and remainder facts used by the
  proofs.
- `tree_log.dfy` (module `TreeLog`): the logger state and one pure function per
  method.
  - A slice past the end of the cache is Go's runtime panic. It is modelled as the
    outcome `Panic`, which carries the state the panic leaves behind.
  - A write returns the `forcePush` calls it makes, as `Fprint(args)` and
    `Fprintln(args)` events.
- `prefix.dfy` (module `Prefix`): two state invariants and the lemmas about them.
  - `Fits`: the slice is in bounds and `current` is that slice.
  - `Exact`: the prefix is the unit repeated `level mod 128` times.
  - It also holds the hazard lemmas at state level.
- `calls.dfy` (module `Calls`): fluent call chains. `Apply` runs one method call
  and `Exec` runs a sequence of them. A panic ends the chain. This module holds
  the theorems about chains that start from `NewTreeLogger()`.
- `render.dfy` (module `Render`): the text a chain writes. The behaviour of
  `fmt.Fprint` / `fmt.Fprintln` is a parameter `Fmt`. Each lemma states, as a
  `requires`, which of two facts about fmt it relies on:
  `PrintsStringsVerbatim` (`fmt.Fprint` writes a lone string operand unchanged)
  and `BareLineBreak` (`fmt.Fprintln()` with no operands writes only its line
  break).

The model follows the code exactly, including its hazards:

- On a fresh logger, `UnIndent` wraps the level from 0 to 255. This rebuilds a
  510-byte cache and gives a 127-unit prefix. Once `chLen` is 255 a later wrap
  rebuilds nothing, and with a longer unit the 254-byte prefix is fewer units.
- The slice end `inLen*level` wraps at level 128. There the prefix is empty.
- `IndentString` neither invalidates the cache nor updates `inLen`. A new unit
  therefore shows only after a later `Indent`/`UnIndent` takes the level above
  `chLen`.
- A unit shorter than `inLen` bytes makes an `Indent` that rebuilds the cache
  panic, as long as the true slice end `inLen*level` stays below 256. Past that
  the wrapped end can fall back inside the short cache: `IndentString(">")`
  followed by `UnIndent` on a fresh logger rebuilds a 255-byte cache and slices
  it at `2*255 mod 256 = 254` without a panic (`ShortUnitWrapsInsideCache`).

Three of these behaviours deserve a closer look:

- The doc comment of `WriteChildLn` (tree-log.go:52-55) calls it a shortcut
  for `Indent().WriteLn(...).UnIndent()`. But tree-log.go:147 passes the whole
  variadic slice `in` as one operand, so fmt renders the slice, not its
  elements. `WriteChild` (tree-log.go:140) does the same.
  `WriteChildIsIndentWriteUnIndent` and `WriteChildLnIsIndentWriteLnUnIndent`
  state exactly which three calls each child write amounts to.
- `IndentString` (tree-log.go:109-112) only stores the new unit. After
  `IndentString("> ")`, `Indent` and `WriteLn("x")`, the line starts with the
  old two spaces (`StaleUnitAfterIndentString`).
- `UnIndent` at level 0 does not stop at zero. The `uint8` decrement wraps to
  255 (`UnIndentAtZero`).

## Model

| member | source | states |
|---|---|---|
| Uint8.Wrap | tree-log.go:99-101 | a `uint8` result equals the integer when that integer is in 0..255, and is congruent to it modulo 256 |
| Uint8.Inc | tree-log.go:114-116 | `level++` adds one below 255 and wraps 255 to 0 |
| Uint8.Dec | tree-log.go:120-122 | `level--` subtracts one above 0 and wraps 0 to 255 |
| Uint8.Mul | tree-log.go:171 | the `uint8` product `inLen*level` is congruent to the true product modulo 256, never exceeds it, and equals it when the true product is below 256 |
| Uint8.WrapAdd | tree-log.go:114-124 | wrapping after each `++` / `--` gives the same `uint8` level as wrapping once after all of them |
| Uint8.IncDecInverse | tree-log.go:114-124 | `UnIndent`'s decrement undoes `Indent`'s increment and the reverse, across the wrap too |
| Uint8.DoubleWraps | tree-log.go:171 | with the default unit length 2, the slice end `2*level` is `2*(level mod 128)` |
| Text.Repeat | tree-log.go:164 | `strings.Repeat(u, n)` is `len(u)*n` bytes long |
| Text.RepeatAt | tree-log.go:164 | byte `i` of `strings.Repeat(u, n)` is byte `i mod len(u)` of `u` |
| Text.RepeatPrefix | tree-log.go:164-171 | the first `len(u)*k` bytes of `n` repeated units are `k` repeated units, for `k <= n`, so a shorter prefix can be sliced from a longer cache |
| TreeLog.NewTreeLogger | tree-log.go:69-78 | a fresh logger has unit `"  "` with `inLen` equal to its length, a 20-byte all-space cache, `chLen` 10, level 0 and an empty prefix |
| TreeLog.IndentString | tree-log.go:109-112 | only the unit changes; cache, prefix, level, `chLen` and `inLen` stay as they were |
| TreeLog.ResizeCache | tree-log.go:162-165 | after a rebuild `chLen` equals the level and the cache is the current unit repeated `level` times; unit, `inLen` and prefix are unchanged |
| TreeLog.ClipIndent | tree-log.go:167-172 | the cache is rebuilt exactly when `level > chLen`, otherwise cache and `chLen` are kept; afterwards `chLen >= level` and `chLen` never decreased; it succeeds exactly when the `uint8` end is within the cache, and then the prefix is that slice; on a panic the prefix is unchanged |
| TreeLog.Indent | tree-log.go:114-118 | the level becomes `level+1` modulo 256; `chLen` does not decrease and covers the new level; unit and `inLen` are unchanged |
| TreeLog.UnIndent | tree-log.go:120-124 | the level becomes `level-1` modulo 256, so 0 becomes 255; `chLen` does not decrease and covers the new level |
| TreeLog.SliceEnd | tree-log.go:171 | the slice end `inLen*level` in `uint8` is the true product when that is below 256, and otherwise congruent to it modulo 256 |
| TreeLog.PrefixEvent | tree-log.go:126-136 | the prefix push of `Write` / `WriteLn` goes through `fmt.Fprint`, so it never ends a line, and its only operand is the current prefix as one string |
| TreeLog.Write | tree-log.go:126-130 | `Write` pushes the prefix first and the operands last, and none of its pushes ends the line |
| TreeLog.WriteLn | tree-log.go:132-136 | `WriteLn` pushes the prefix first and the operands last, and only the last push ends the line |
| TreeLog.Append | tree-log.go:152-155 | for every state, `Append` pushes exactly what `Write` pushes after the prefix |
| TreeLog.NewLine | tree-log.go:157-160 | for every state, `NewLine` pushes exactly what `WriteLn` with no operands pushes after the prefix |
| Prefix.FreshIsExact | tree-log.go:11-16 | the literal twenty-space cache is the default unit repeated `chLen = 20/2 = 10` times, so a fresh logger satisfies `Exact` |
| Prefix.ExactFits | tree-log.go:167-171 | a state whose cache is whole two-byte units and whose prefix is `level mod 128` units has its prefix equal to the in-bounds slice `cache[:inLen*level]` |
| Prefix.ClipFits | tree-log.go:162-171 | `clipIndent` never panics while the unit is at least `inLen` bytes and the cache covers `chLen` units, and it leaves the slice in bounds |
| Prefix.ClipExact | tree-log.go:162-171 | on a cache of whole two-byte units, `clipIndent` succeeds and the prefix is the unit repeated `level mod 128` times |
| Prefix.IndentFits | tree-log.go:114-118 | `Indent` keeps the in-bounds invariant and does not panic |
| Prefix.UnIndentFits | tree-log.go:120-124 | `UnIndent` keeps the in-bounds invariant and does not panic, even when wrapping from 0 |
| Prefix.IndentExact | tree-log.go:114-118 | `Indent` keeps the prefix equal to the repeated unit |
| Prefix.UnIndentExact | tree-log.go:120-124 | `UnIndent` keeps the prefix equal to the repeated unit |
| Prefix.UnIndentAtZero | tree-log.go:120-124 | `UnIndent` on a fresh logger wraps to 255, rebuilds the cache as 255 units (510 bytes, `chLen` 255), and leaves a prefix of 127 units because `2*255` wraps to 254 |
| Prefix.ShortUnitPanics | tree-log.go:162-171 | with a unit shorter than `inLen`, an `Indent` that rebuilds the cache panics whenever the true slice end stays below 256 |
| Prefix.ShortUnitUnIndentAtZero | tree-log.go:120-171 | with a one-byte unit and `inLen` 2 at level 0, `UnIndent` rebuilds a 255-byte cache and slices it at the wrapped end 254 without a panic |
| Prefix.IndentUnIndentWithinCache | tree-log.go:114-171 | while the level is below `chLen` and the slice is in bounds, `UnIndent` after `Indent` returns exactly the state it started from |
| Calls.Apply | tree-log.go:109-160 | one call never decreases `chLen` and never changes `inLen`; output only grows; a panicked chain does nothing; only `IndentString` changes the unit; `IndentString` and the plain writes leave level, cache and prefix alone |
| Calls.Exec | tree-log.go:109-160 | across any chain of calls `chLen` never decreases, `inLen` never changes and earlier output is kept as a prefix of later output |
| Calls.Child | tree-log.go:138-150 | a child write that indents successfully pushes the prefix one level deeper, then its whole argument slice as one operand, with a line break exactly for `WriteChildLn`; a failed `Indent` pushes nothing and panics; without a panic the level ends where it started; unit and `inLen` are unchanged and `chLen` does not decrease |
| Calls.WriteChildIsIndentWriteUnIndent | tree-log.go:138-143 | `WriteChild(args)` has the same state and events as `Indent`, then `Write` of the single operand `args`, then `UnIndent` |
| Calls.WriteChildLnIsIndentWriteLnUnIndent | tree-log.go:145-150 | `WriteChildLn(args)` has the same state and events as `Indent`, then `WriteLn` of the single operand `args`, then `UnIndent` |
| Calls.ChildRestoresLevel | tree-log.go:138-150 | a child write that does not panic leaves the level where it was, including at 255 where its `Indent` wraps to 0 |
| Calls.ChildWithinCacheKeepsState | tree-log.go:138-150 | a child write below `chLen` with an in-bounds slice does not panic and leaves level, cache and prefix exactly as they were |
| Calls.ApplyFits | tree-log.go:109-172 | every call keeps the in-bounds invariant and does not panic, provided any unit it sets is at least `inLen` bytes |
| Calls.ApplyExact | tree-log.go:109-172 | every call keeps the prefix equal to the repeated unit, provided any unit it sets is the current one |
| Calls.ExecFits | tree-log.go:109-172 | a chain whose units are all at least `inLen` bytes never panics and keeps the slice in bounds |
| Calls.ExecExact | tree-log.go:109-172 | a chain that keeps the unit never panics and keeps the prefix equal to the repeated unit |
| Calls.NeverPanics | tree-log.go:162-171 | from a fresh logger, a chain that never sets a unit shorter than two bytes never panics; the slice end stays within the cache and the prefix is that slice |
| Calls.PrefixIsRepeatedUnit | tree-log.go:162-171 | from a fresh logger, a chain that keeps the default unit has prefix `"  "` repeated `level mod 128` times, so exactly `level` times for levels up to 127 |
| Calls.IndentsMoveLevel | tree-log.go:114-116 | `n` `Indent` calls that do not panic move the level by `n` in `uint8` |
| Calls.ApplyLevel | tree-log.go:114-150 | a call that does not panic moves the level by +1 for `Indent`, -1 for `UnIndent` and 0 for every other call, modulo 256 |
| Calls.NetConcat | tree-log.go:114-124 | the net number of `Indent` calls of a chain split in two is the sum of its parts' net counts |
| Calls.NetIndents | tree-log.go:114-118 | a run of `n` `Indent` calls has a net count of `n`, so `IndentsMoveLevel` is `ExecLevel` for that chain |
| Calls.FreshLevel | tree-log.go:114-124 | from a fresh logger, a chain that does not panic ends at level `net mod 256`, whose remainder modulo 128 is `net mod 128` |
| Calls.ExecLevel | tree-log.go:114-150 | a chain that does not panic ends at its starting level plus its net number of `Indent` calls (each `UnIndent` cancelling one), modulo 256 |
| Calls.PrefixFollowsNet | tree-log.go:114-171 | from a fresh logger, a chain that keeps the default unit never panics, ends at level `net mod 256`, and has prefix `"  "` repeated `net mod 128` times, so exactly `net` times for a net count from 0 to 127 |
| Calls.IndentsFromFresh | tree-log.go:167-171 | `n` `Indent` calls on a fresh logger reach level `n mod 256` with `n mod 128` units of prefix, so none at depth 128 |
| Calls.IndentsWithinCache | tree-log.go:167-171 | `Indent` calls that stay within `chLen` change only level and prefix, never the cache |
| Calls.StaleUnitAfterIndentString | tree-log.go:109-112 | after `IndentString("> ")` and one `Indent`, `WriteLn` still writes the old two-space prefix, because the cache is not rebuilt |
| Calls.ShortUnitPanicsAtEleven | tree-log.go:162-171 | after a unit shorter than two bytes is set on a fresh logger, ten `Indent`s succeed and the eleventh panics |
| Calls.ShortUnitWrapsInsideCache | tree-log.go:120-171 | a one-byte unit followed by `UnIndent` on a fresh logger does not panic: the 255-byte rebuilt cache is sliced at the wrapped end 254 |
| Render.WriteOutput | tree-log.go:126-130 | `Write` writes the prefix, then the rendered operands, with no line break |
| Render.WriteLnOutput | tree-log.go:132-136 | `WriteLn` writes the prefix, the rendered operands and one line break |
| Render.WriteChildOutput | tree-log.go:138-143 | `WriteChild` writes the prefix one level deeper, then its argument slice rendered as one operand |
| Render.WriteChildLnOutput | tree-log.go:145-150 | `WriteChildLn` writes the prefix one level deeper, its argument slice rendered as one operand, and a line break |
| Render.AppendOutput | tree-log.go:152-155 | `Append` writes only the rendered operands, never the prefix, and changes no state |
| Render.NewLineOutput | tree-log.go:157-160 | `NewLine` writes exactly one line break and changes no state |
| Render.OutputConcat | tree-log.go:174-180 | the text of consecutive writes is their texts in order |
| Render.Emit | tree-log.go:174-195 | one `forcePush` through `fmt.Fprint` writes exactly what fmt renders; through `fmt.Fprintln` it writes fmt's rendering followed by one line break |
| Render.PrefixEventWritesPrefix | tree-log.go:126-136 | when fmt writes a lone string unchanged, the prefix push writes exactly the current prefix |
| Render.WriteLnAtDepth | tree-log.go:114-136 | after any chain from a fresh logger that keeps the default unit, `WriteLn` writes `"  "` repeated (net number of `Indent` calls mod 128) times, then the operands and a line break |
| Render.TreeScenario | tree-log.go:132-150 | a root line, an indented child, a `WriteChildLn` grandchild and a line back at the child level are written with 0, 1, 2 and 1 units of prefix |

## Left out

- The `io.Writer` field, `Writer(out)` and the default `os.Stdout` (tree-log.go:42, 76, 104-107) are left out. They are I/O plumbing. Output is the sequence of `forcePush` calls instead.
- The rendering and spacing of `fmt.Fprint` / `fmt.Fprintln` (tree-log.go:174-180) are left out. That is foreign library code. It is the parameter `Fmt`, and the text lemmas state as `requires` what they assume of it.
- The panic in `forcePush` when the writer fails (tree-log.go:184-195) is left out. It is I/O failure handling. The only panic modelled is the slice-bounds panic in `clipIndent`.
- `defLogger` and `DefaultLogger` (tree-log.go:81-89) are left out. They are process-wide wiring, and no code path makes them differ from `NewTreeLogger`.
- Concurrent use of one logger is left out. The source has no synchronisation, and the model is sequential.
- The `TreeLogger` interface declaration (tree-log.go:21-65) has no separate model. Its methods other than `Writer` are the `Op` cases. `WriteChild` is in the model although only the struct declares it.
- What a Go caller that recovers from the slice-bounds panic sees next is left out. In the model a panic ends the chain. After a recovered panic the level has already moved and the cache may have been rebuilt, but `current` still holds the old prefix. Further calls would build on that mismatched state, and the model does not follow them.
- `current` is a one-element `[]interface{}` in the source. The model keeps only its element, `current[0]`, because nothing else is ever stored in it.
