/** What both programs print: the options that drive it, the tokens of
    standard output, the diagnostics of standard error, and the per-file
    output policy they share. */
module Report {
  import opened FsModel

  const BLOCK_SIZE: nat := 512

  /** The `Options` struct of both programs. */
  datatype Options = Options(
    printSize: bool,          // size before each path
    printAllFiles: bool,      // tab, exact size and unit word after each path
    printOnlyFullsize: bool,  // no path and no newline per file
    printFullsize: bool,      // print the total line
    blockSize: bool,          // the unit is 512-byte blocks
    fromFile: bool)           // the roots come from a list file

  datatype Unit = Blocks | Bytes

  /** Standard output, one token per item written. `UnitWord` is the
      " blocks" / " bytes" word, `TotalLabel` the "Total size: " text. */
  datatype Token =
    | Num(n: nat)
    | Tab
    | PathText(path: string)
    | UnitWord(unit: Unit)
    | TotalLabel
    | Newline

  /** Standard error, one value per diagnostic line. */
  datatype Diag =
    | PathDoesNotExist(path: string)
    | ErrorProcessing(path: string)
    | ErrorProcessingFile(path: string)
    | UnableToOpen(path: string)
    | ErrorReading

  function UnitOf(o: Options): Unit
  {
    if o.blockSize then Blocks else Bytes
  }

  /** `(fileSize + BLOCK_SIZE - 1) / BLOCK_SIZE` on `uint64`: the number of
      512-byte blocks, rounded up. The sum cannot wrap for a real size. */
  function CeilBlocks(s: FileSize): (r: nat)
    ensures s <= r * BLOCK_SIZE < s + BLOCK_SIZE
  {
    AddU64Wraps(s, BLOCK_SIZE - 1);
    AddU64(s, BLOCK_SIZE - 1) / BLOCK_SIZE
  }

  lemma CeilBlocksBoundaries()
    ensures CeilBlocks(0) == 0 && CeilBlocks(1) == 1
    ensures CeilBlocks(512) == 1 && CeilBlocks(513) == 2
  {
  }

  /** The size shown before the path: blocks or exact bytes. */
  function ShownSize(s: FileSize, o: Options): nat
  {
    if o.blockSize then CeilBlocks(s) else s
  }

  function SizePrefix(s: FileSize, o: Options): seq<Token>
  {
    if o.printSize then [Num(ShownSize(s, o)), Tab] else []
  }

  /** The suffix always carries the exact byte count, whatever the word. */
  function SizeSuffix(s: FileSize, o: Options): seq<Token>
  {
    if o.printAllFiles then [Tab, Num(s), UnitWord(UnitOf(o))] else []
  }

  /** Everything written to standard output for one regular file. */
  function FileLine(path: string, s: FileSize, o: Options): seq<Token>
  {
    SizePrefix(s, o)
    + (if o.printOnlyFullsize then [] else [PathText(path)])
    + SizeSuffix(s, o)
    + (if o.printOnlyFullsize then [] else [Newline])
  }

  /** With `printSize` the line opens with the size in the active unit and a
      tab; without it the line never opens with a number. */
  lemma PrefixShowsActiveUnit(path: string, s: FileSize, o: Options)
    ensures var line := FileLine(path, s, o);
      && (o.printSize ==>
            |line| >= 2 && line[1] == Tab
            && line[0] == Num(if o.blockSize then (s + 511) / 512 else s))
      && (!o.printSize ==> line == [] || !line[0].Num?)
  {
  }

  /** Summary-only mode drops exactly the path and the newline: what is left
      is the size prefix followed by the suffix. */
  lemma SummaryOnlyDropsPathAndNewline(path: string, s: FileSize, o: Options)
    ensures var line := FileLine(path, s, o);
      && (PathText(path) in line <==> !o.printOnlyFullsize)
      && (Newline in line <==> !o.printOnlyFullsize)
      && (o.printOnlyFullsize ==> line == SizePrefix(s, o) + SizeSuffix(s, o))
      && (!o.printOnlyFullsize ==> line[|line| - 1] == Newline)
  {
    var line := FileLine(path, s, o);
    if o.printOnlyFullsize {
      assert line == SizePrefix(s, o) + SizeSuffix(s, o);
    } else {
      assert line[|SizePrefix(s, o)|] == PathText(path);
    }
  }

  /** With `printAllFiles` the three tokens before the end of line are a tab,
      the exact size in bytes, and the word of the active unit: the number is
      never converted, even when the word says "blocks". Without it, no unit
      word is written at all. */
  lemma SuffixIsRawBytes(path: string, s: FileSize, o: Options)
    ensures var line := FileLine(path, s, o);
      var end := if o.printOnlyFullsize then |line| else |line| - 1;
      && (o.printAllFiles ==>
            3 <= end <= |line| && line[end - 3..end] == [Tab, Num(s), UnitWord(UnitOf(o))])
      && (!o.printAllFiles ==> forall k :: 0 <= k < |line| ==> !line[k].UnitWord?)
  {
  }

  /** The "Total size: N unit" line. */
  function TotalLine(total: Uint64, o: Options): seq<Token>
  {
    [TotalLabel, Num(total), UnitWord(UnitOf(o)), Newline]
  }

  /** Both programs print the total line exactly when `-s` or `-c` is set. */
  predicate PrintsTotal(o: Options)
  {
    o.printOnlyFullsize || o.printFullsize
  }

  /** What part of a run leaves behind: the exact bytes added to the total
      (before any wrap-around), the tokens written to standard output, and
      the diagnostics written to standard error. */
  datatype Effect = Effect(bytes: nat, out: seq<Token>, diags: seq<Diag>)

  const NoEffect := Effect(0, [], [])

  function Emit(d: Diag): Effect
  {
    Effect(0, [], [d])
  }

  /** `a`, then `b`. */
  function Then(a: Effect, b: Effect): Effect
  {
    Effect(a.bytes + b.bytes, a.out + b.out, a.diags + b.diags)
  }

  lemma ThenAssociative(a: Effect, b: Effect, c: Effect)
    ensures Then(Then(a, b), c) == Then(a, Then(b, c))
  {
    assert (a.out + b.out) + c.out == a.out + (b.out + c.out);
    assert (a.diags + b.diags) + c.diags == a.diags + (b.diags + c.diags);
  }

  lemma ThenNoEffect(e: Effect)
    ensures Then(NoEffect, e) == e && Then(e, NoEffect) == e
  {
    assert [] + e.out == e.out && e.out + [] == e.out;
    assert [] + e.diags == e.diags && e.diags + [] == e.diags;
  }

  /** A step that does nothing between two others can be dropped. */
  lemma SkipMiddle(a: Effect, b: Effect)
    ensures Then(Then(a, NoEffect), b) == Then(a, b)
  {
    assert a.out + [] == a.out && a.diags + [] == a.diags;
  }

  /** A single diagnostic between two steps adds to standard error only. */
  lemma EmitMiddle(a: Effect, d: Diag, b: Effect)
    ensures var w, wo := Then(Then(a, Emit(d)), b), Then(a, b);
      && w.bytes == wo.bytes && w.out == wo.out
      && w.diags == a.diags + [d] + b.diags
  {
    assert a.out + [] == a.out;
  }

  /** A step that ends with one diagnostic, between two others. */
  lemma EmitAfterMiddle(a: Effect, m: Effect, d: Diag, b: Effect)
    ensures var w := Then(Then(a, Then(m, Emit(d))), b);
      && w.bytes == a.bytes + m.bytes + b.bytes && w.out == a.out + m.out + b.out
      && w.diags == a.diags + m.diags + [d] + b.diags
  {
    assert m.out + [] == m.out;
    assert a.out + m.out + b.out == (a.out + m.out) + b.out;
    assert a.diags + (m.diags + [d]) + b.diags == a.diags + m.diags + [d] + b.diags;
  }

  /** The effect of a regular file of size `s` reached at `path`. */
  function FileEffect(path: string, s: FileSize, o: Options): Effect
  {
    Effect(s, FileLine(path, s, o), [])
  }

  /** How a run of either program ends. `Aborted` is an uncaught exception. */
  datatype Status = Exited(code: int) | Aborted

  datatype RunResult = RunResult(out: seq<Token>, diags: seq<Diag>, status: Status)

  /** No token of `ts` belongs to a total line. */
  predicate NoTotal(ts: seq<Token>)
  {
    TotalLabel !in ts
  }

  /** `ts` holds no per-file line break. */
  predicate NoNewline(ts: seq<Token>)
  {
    Newline !in ts
  }

  /** Every unit word in `ts` is the word of `u`. */
  predicate OnlyUnit(ts: seq<Token>, u: Unit)
  {
    UnitWord(if u == Blocks then Bytes else Blocks) !in ts
  }

  /** `ts` names no path. */
  predicate NoPaths(ts: seq<Token>)
  {
    forall t | t in ts :: !t.PathText?
  }

  /** A file line never holds a total, uses only the active unit word, and
      in summary-only mode holds neither a path nor a line break. */
  lemma FileLineTokens(path: string, s: FileSize, o: Options)
    ensures PerFileTokens(FileLine(path, s, o), o)
  {
  }

  /** What only per-file lines written under `o` can contain. */
  predicate PerFileTokens(ts: seq<Token>, o: Options)
  {
    && NoTotal(ts) && OnlyUnit(ts, UnitOf(o))
    && (o.printOnlyFullsize ==> NoNewline(ts) && NoPaths(ts))
  }
}
