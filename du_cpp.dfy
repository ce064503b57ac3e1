/** The C++ program: `processFile`, the recursive `processDirectory`, the
    argument loop `processCommandLineArguments` (with its `--files-from=`
    branch), `processPaths` and `main`. The running total is an in/out
    parameter, as the `uint64_t &` it models; each method returns the
    tokens it writes to standard output and the diagnostics it writes to
    standard error. An exception that nothing catches ends the run as
    `Aborted`. */
module DuCpp {
  import opened FsModel
  import opened Report

  const FILE_PATH_INDEX: nat := 13
  const FILES_FROM: string := "--files-from="

  /** The field initialisers of the `Options` struct. */
  const Defaults := Options(false, false, false, false, true, false)

  // ---------------------------------------------------------------------
  // processFile

  /** Adds the exact size to the total, whatever the display unit, and
      writes the line the options ask for. */
  method ProcessFile(filePath: string, size: FileSize, totalSize: Uint64, options: Options)
    returns (newTotal: Uint64, out: seq<Token>)
    ensures newTotal == AddU64(totalSize, size)
    ensures out == FileLine(filePath, size, options)
  {
    var fileSize := size;
    newTotal := AddU64(totalSize, fileSize);
    out := [];
    if options.printSize {
      var shown := if options.blockSize then AddU64(fileSize, BLOCK_SIZE - 1) / BLOCK_SIZE else fileSize;
      out := out + [Num(shown), Tab];
    }
    if !options.printOnlyFullsize {
      out := out + [PathText(filePath)];
    }
    if options.printAllFiles {
      out := out + [Tab, Num(fileSize), UnitWord(if options.blockSize then Blocks else Bytes)];
    }
    if !options.printOnlyFullsize {
      out := out + [Newline];
    }
  }

  // ---------------------------------------------------------------------
  // processDirectory: specification

  /** What `processDirectory(n)` leaves behind, whether or not it throws in
      the end: the effects of the entries its listing yields. */
  function Listing(n: Node, o: Options): Effect
    decreases n, 0
  {
    if n.Dir? then Entries(n.entries, o) else NoEffect
  }

  /** The loop over a listing, each entry inside its own `try`. */
  function Entries(es: seq<Node>, o: Options): Effect
    decreases es
  {
    if es == [] then NoEffect
    else Then(Entries(es[..|es| - 1], o), Entry(es[|es| - 1], o))
  }

  /** One entry: a regular file is processed; a directory is walked, and if
      its walk throws, what it did stays and one diagnostic follows; an
      entry whose status query throws gets one diagnostic; anything else is
      passed over without a word. */
  function Entry(e: Node, o: Options): Effect
    decreases e, 1
  {
    match e
    case File(p, s) => FileEffect(p, s, o)
    case Dir(p, _, complete) =>
      Then(Listing(e, o), if complete then NoEffect else Emit(ErrorProcessing(p)))
    case Faulty(p) => Emit(ErrorProcessing(p))
    case _ => NoEffect
  }

  // ---------------------------------------------------------------------
  // processDirectory

  /** The loop over a listing one entry further along. */
  lemma EntriesStep(es: seq<Node>, i: nat, o: Options)
    requires i < |es|
    ensures Entries(es[..i + 1], o) == Then(Entries(es[..i], o), Entry(es[i], o))
  {
    assert es[..i + 1][..i] == es[..i];
  }

  /** The body of the `try` for one entry, with its `catch`. */
  method ProcessEntry(entry: Node, totalSize: Uint64, options: Options)
    returns (newTotal: Uint64, out: seq<Token>, diags: seq<Diag>)
    ensures newTotal == AddU64(totalSize, Entry(entry, options).bytes)
    ensures out == Entry(entry, options).out && diags == Entry(entry, options).diags
    decreases entry, 1
  {
    newTotal, out, diags := totalSize, [], [];
    match entry {
      case File(p, s) =>
        newTotal, out := ProcessFile(p, s, totalSize, options);
      case Dir(p, _, _) =>
        var threw;
        newTotal, out, diags, threw := ProcessDirectory(entry, totalSize, options);
        if threw {
          diags := diags + [ErrorProcessing(p)];
        }
      case Faulty(p) =>
        // `is_regular_file` throws
        diags := [ErrorProcessing(p)];
      case _ =>
    }
  }

  /** `directory_iterator(path)` throws at once unless `path` is a
      directory, and its increment throws when the listing fails part-way:
      both lie outside the `try`, so `threw` reports them to the caller. */
  method ProcessDirectory(path: Node, totalSize: Uint64, options: Options)
    returns (newTotal: Uint64, out: seq<Token>, diags: seq<Diag>, threw: bool)
    ensures newTotal == AddU64(totalSize, Listing(path, options).bytes)
    ensures out == Listing(path, options).out
    ensures diags == Listing(path, options).diags
    ensures threw <==> !Listable(path)
    decreases path, 0
  {
    newTotal, out, diags := totalSize, [], [];
    if !path.Dir? {
      threw := true;
      return;
    }
    var entries := path.entries;
    var i := 0;
    ghost var done := NoEffect;
    while i < |entries|
      invariant 0 <= i <= |entries|
      invariant done == Entries(entries[..i], options)
      invariant newTotal == AddU64(totalSize, done.bytes)
      invariant out == done.out && diags == done.diags
    {
      var entry := entries[i];
      ghost var step := Entry(entry, options);
      var entryOut, entryDiags;
      AddU64Twice(totalSize, done.bytes, step.bytes);
      newTotal, entryOut, entryDiags := ProcessEntry(entry, newTotal, options);
      out := out + entryOut;
      diags := diags + entryDiags;
      EntriesStep(entries, i, options);
      done := Then(done, step);
      i := i + 1;
    }
    assert entries[..i] == entries;
    threw := !path.complete;
  }

  // ---------------------------------------------------------------------
  // Roots

  /** The outcome of a run that may have been cut short by an exception. */
  datatype Partial = Partial(effect: Effect, crashed: bool)

  /** One root. With `checked`, the `exists` test of `processPaths` comes
      first: a missing root gets one diagnostic (a dangling link, and a path
      through a regular file, which the filesystem library reports as not
      found, included), and a root whose status cannot be read makes
      `exists` throw. Then `processDirectory` runs. */
  function Root(p: string, fs: FileSystem, o: Options, checked: bool): Partial
  {
    var n := Lookup(fs, p);
    if checked && (n.Missing? || n.Dangling? || n.NotADir?) then Partial(Emit(PathDoesNotExist(p)), false)
    else if checked && n.Faulty? then Partial(NoEffect, true)
    else Partial(Listing(n, o), !Listable(n))
  }

  /** Roots in order, until one of them throws. */
  function Roots(ps: seq<string>, fs: FileSystem, o: Options, checked: bool): Partial
    decreases |ps|
  {
    if ps == [] then Partial(NoEffect, false)
    else
      var before := Roots(ps[..|ps| - 1], fs, o, checked);
      if before.crashed then before
      else
        var last := Root(ps[|ps| - 1], fs, o, checked);
        Partial(Then(before.effect, last.effect), last.crashed)
  }

  /** A root after roots that did not throw adds its own effect. */
  lemma RootsSnoc(ps: seq<string>, p: string, fs: FileSystem, o: Options, checked: bool)
    requires !Roots(ps, fs, o, checked).crashed
    ensures var r := Root(p, fs, o, checked);
      Roots(ps + [p], fs, o, checked) == Partial(Then(Roots(ps, fs, o, checked).effect, r.effect), r.crashed)
  {
    assert (ps + [p])[..|ps|] == ps;
  }

  /** Once a root has thrown, later roots change nothing. */
  lemma {:induction false} RootsStopAtCrash(ps: seq<string>, qs: seq<string>, fs: FileSystem, o: Options, checked: bool)
    requires Roots(ps, fs, o, checked).crashed
    ensures Roots(ps + qs, fs, o, checked) == Roots(ps, fs, o, checked)
    decreases |qs|
  {
    if qs != [] {
      var init := qs[..|qs| - 1];
      assert (ps + qs)[..|ps + qs| - 1] == ps + init;
      RootsStopAtCrash(ps, init, fs, o, checked);
    } else {
      assert ps + qs == ps;
    }
  }

  /** The root loop one step further along `roots`. */
  lemma RootsStep(roots: seq<string>, i: nat, fs: FileSystem, o: Options)
    requires i < |roots| && !Roots(roots[..i], fs, o, true).crashed
    ensures var r := Root(roots[i], fs, o, true);
      Roots(roots[..i + 1], fs, o, true) == Partial(Then(Roots(roots[..i], fs, o, true).effect, r.effect), r.crashed)
  {
    assert roots[..i + 1] == roots[..i] + [roots[i]];
    RootsSnoc(roots[..i], roots[i], fs, o, true);
  }

  /** A loop that throws after `i` roots ends as the whole loop does. */
  lemma RootsCrashAt(roots: seq<string>, i: nat, fs: FileSystem, o: Options)
    requires i <= |roots| && Roots(roots[..i], fs, o, true).crashed
    ensures Roots(roots, fs, o, true) == Roots(roots[..i], fs, o, true)
  {
    RootsStopAtCrash(roots[..i], roots[i..], fs, o, true);
    assert roots[..i] + roots[i..] == roots;
  }

  /** `processPaths` starts at index 2 when `-s` or `-c` is set and at 1
      otherwise, however many flag tokens there were. */
  function FirstRootIndex(o: Options): nat
  {
    if o.printOnlyFullsize || o.printFullsize then 2 else 1
  }

  /** The tokens `processPaths` treats as roots. */
  function Operands(argv: seq<string>, o: Options): seq<string>
  {
    if FirstRootIndex(o) <= |argv| then argv[FirstRootIndex(o)..] else []
  }

  /** One pass of the `processPaths` loop: the `exists` test, then
      `processDirectory` on the root. */
  method ProcessRoot(targetPath: string, fs: FileSystem, options: Options, totalSize: Uint64)
    returns (newTotal: Uint64, out: seq<Token>, diags: seq<Diag>, crashed: bool)
    ensures var r := Root(targetPath, fs, options, true);
      && newTotal == AddU64(totalSize, r.effect.bytes)
      && out == r.effect.out && diags == r.effect.diags
      && crashed == r.crashed
  {
    var node := Lookup(fs, targetPath);
    if node.Missing? || node.Dangling? || node.NotADir? {
      return totalSize, [], [PathDoesNotExist(targetPath)], false;
    }
    if node.Faulty? {
      // `exists` throws
      return totalSize, [], [], true;
    }
    newTotal, out, diags, crashed := ProcessDirectory(node, totalSize, options);
  }

  method ProcessPaths(argv: seq<string>, fs: FileSystem, options: Options, totalSize: Uint64)
    returns (newTotal: Uint64, out: seq<Token>, diags: seq<Diag>, crashed: bool)
    ensures var r := Roots(Operands(argv, options), fs, options, true);
      && newTotal == AddU64(totalSize, r.effect.bytes)
      && out == r.effect.out && diags == r.effect.diags
      && crashed == r.crashed
  {
    newTotal, out, diags, crashed := totalSize, [], [], false;
    var start := if options.printOnlyFullsize || options.printFullsize then 2 else 1;
    var roots := if start <= |argv| then argv[start..] else [];
    assert roots == Operands(argv, options);
    var i := 0;
    ghost var done := NoEffect;
    while i < |roots|
      invariant i <= |roots|
      invariant !Roots(roots[..i], fs, options, true).crashed
      invariant Roots(roots[..i], fs, options, true).effect == done
      invariant newTotal == AddU64(totalSize, done.bytes)
      invariant out == done.out && diags == done.diags
    {
      var targetPath := roots[i];
      ghost var step := Root(targetPath, fs, options, true);
      var subOut, subDiags, threw;
      AddU64Twice(totalSize, done.bytes, step.effect.bytes);
      newTotal, subOut, subDiags, threw := ProcessRoot(targetPath, fs, options, newTotal);
      out := out + subOut;
      diags := diags + subDiags;
      RootsStep(roots, i, fs, options);
      done := Then(done, step.effect);
      if threw {
        crashed := true;
        RootsCrashAt(roots, i + 1, fs, options);
        return;
      }
      i := i + 1;
    }
    assert roots[..i] == roots;
  }

  // ---------------------------------------------------------------------
  // processCommandLineArguments: specification

  predicate IsSimpleFlag(t: string)
  {
    t == "-b" || t == "-a" || t == "-c" || t == "-s"
  }

  /** `arg.find("--files-from=") == 0`: the token starts with the prefix. */
  predicate IsListFlag(t: string)
  {
    |t| >= |FILES_FROM| && t[..|FILES_FROM|] == FILES_FROM
  }

  /** The index of the first token from `i` on that is not a simple flag:
      where the argument loop stops (or `|argv|`). */
  function FlagEnd(argv: seq<string>, i: nat): (j: nat)
    requires i <= |argv|
    ensures i <= j <= |argv|
    ensures forall k | i <= k < j :: IsSimpleFlag(argv[k])
    ensures j < |argv| ==> !IsSimpleFlag(argv[j])
    decreases |argv| - i
  {
    if i == |argv| || !IsSimpleFlag(argv[i]) then i else FlagEnd(argv, i + 1)
  }

  /** The flag tokens the argument loop consumes, from index 1 on. */
  function Flags(argv: seq<string>): seq<string>
  {
    if |argv| == 0 then [] else argv[1..FlagEnd(argv, 1)]
  }

  /** One step of the argument loop for a simple flag. */
  function Apply(o: Options, flag: string): Options
  {
    if flag == "-b" then o.(printSize := true, blockSize := false)
    else if flag == "-a" then o.(printAllFiles := true)
    else if flag == "-c" then o.(printFullsize := true)
    else if flag == "-s" then o.(printOnlyFullsize := true)
    else o
  }

  /** The options after the loop has consumed `flags` from the defaults:
      each field depends only on whether its flag occurs, in any order and
      any number of times; `-b` alone turns the display unit to bytes. */
  function FlagOptions(flags: seq<string>): (o: Options)
    ensures o.printSize <==> "-b" in flags
    ensures o.blockSize <==> "-b" !in flags
    ensures o.printAllFiles <==> "-a" in flags
    ensures o.printFullsize <==> "-c" in flags
    ensures o.printOnlyFullsize <==> "-s" in flags
    ensures !o.fromFile
  {
    if flags == [] then Defaults
    else
      var init, last := flags[..|flags| - 1], flags[|flags| - 1];
      assert flags == init + [last];
      assert "-b" in flags <==> "-b" in init || last == "-b";
      assert "-a" in flags <==> "-a" in init || last == "-a";
      assert "-c" in flags <==> "-c" in init || last == "-c";
      assert "-s" in flags <==> "-s" in init || last == "-s";
      Apply(FlagOptions(init), last)
  }

  /** `--files-from=<list>`: each line is handed straight to
      `processDirectory` (no `exists` test), with the parser's own copy of
      the total, and the process then exits with status 1, or aborts when a
      line's walk throws. A list that cannot be opened: one diagnostic and
      exit status 1. */
  function ListRun(listPath: string, fs: FileSystem, lists: map<string, seq<string>>, o: Options): RunResult
  {
    if listPath !in lists then RunResult([], [UnableToOpen(listPath)], Exited(1))
    else
      var r := Roots(lists[listPath], fs, o, false);
      RunResult(r.effect.out, r.effect.diags, if r.crashed then Aborted else Exited(1))
  }

  /** Either the options, or the end of the process inside the parser. */
  datatype ParseResult = Parsed(options: Options) | Stopped(result: RunResult)

  function Parse(argv: seq<string>, fs: FileSystem, lists: map<string, seq<string>>): ParseResult
  {
    var o := FlagOptions(Flags(argv));
    if |argv| > 1 && FlagEnd(argv, 1) < |argv| && IsListFlag(argv[FlagEnd(argv, 1)]) then
      Stopped(ListRun(argv[FlagEnd(argv, 1)][FILE_PATH_INDEX..], fs, lists, o.(fromFile := true)))
    else Parsed(o)
  }

  // ---------------------------------------------------------------------
  // processCommandLineArguments

  /** The `while (std::getline(...))` loop of the `--files-from=` branch
      and the `exit(1)` calls around it. */
  method WalkListFile(filePath: string, fs: FileSystem, lists: map<string, seq<string>>,
                      options: Options, totalSize: Uint64)
    returns (r: RunResult)
    ensures r == ListRun(filePath, fs, lists, options)
  {
    if filePath !in lists {
      return RunResult([], [UnableToOpen(filePath)], Exited(1));
    }
    var lines := lists[filePath];
    var total, out, diags := totalSize, [], [];
    var i := 0;
    while i < |lines|
      invariant 0 <= i <= |lines|
      invariant var p := Roots(lines[..i], fs, options, false);
        out == p.effect.out && diags == p.effect.diags && !p.crashed
    {
      var line := lines[i];
      assert lines[..i + 1][..i] == lines[..i];
      var subOut, subDiags, threw;
      total, subOut, subDiags, threw := ProcessDirectory(Lookup(fs, line), total, options);
      out := out + subOut;
      diags := diags + subDiags;
      if threw {
        RootsStopAtCrash(lines[..i + 1], lines[i + 1..], fs, options, false);
        assert lines[..i + 1] + lines[i + 1..] == lines;
        return RunResult(out, diags, Aborted);
      }
      i := i + 1;
    }
    assert lines[..i] == lines;
    return RunResult(out, diags, Exited(1));
  }

  /** The branches of the argument loop for `-b`, `-a`, `-c` and `-s`. */
  method ApplyFlag(options: Options, arg: string) returns (o: Options)
    requires IsSimpleFlag(arg)
    ensures o == Apply(options, arg)
  {
    o := options;
    if arg == "-b" {
      o := o.(printSize := true, blockSize := false);
    } else if arg == "-a" {
      o := o.(printAllFiles := true);
    } else if arg == "-c" {
      o := o.(printFullsize := true);
    } else if arg == "-s" {
      o := o.(printOnlyFullsize := true);
    }
  }

  /** The left-to-right loop over `argv` from index 1. `startIndex`, where
      it stops, is recorded and never read. */
  method ProcessCommandLineArguments(argv: seq<string>, fs: FileSystem,
                                     lists: map<string, seq<string>>, totalSize: Uint64)
    returns (r: ParseResult)
    ensures r == Parse(argv, fs, lists)
  {
    var options := Defaults;
    var startIndex := 1;
    var i := 1;
    while i < |argv|
      invariant 1 <= i && (|argv| > 0 ==> i <= |argv|)
      invariant forall k | 1 <= k < i && k < |argv| :: IsSimpleFlag(argv[k])
      invariant |argv| > 0 ==> options == FlagOptions(argv[1..i])
      invariant |argv| == 0 ==> options == Defaults
    {
      var arg := argv[i];
      FlagOptionsStep(argv, i);
      if IsSimpleFlag(arg) {
        options := ApplyFlag(options, arg);
      } else if IsListFlag(arg) {
        r := ListFlag(argv, i, fs, lists, options, totalSize);
        return;
      } else {
        startIndex := i;
        FlagEndAt(argv, 1, i);
        break;
      }
      i := i + 1;
    }
    if i >= |argv| && |argv| > 0 {
      FlagEndAt(argv, 1, |argv|);
    }
    return Parsed(options);
  }

  /** The `--files-from=` branch of the argument loop, reached at `argv[i]`
      after simple flags only: the rest of the command line is ignored. */
  method ListFlag(argv: seq<string>, i: nat, fs: FileSystem, lists: map<string, seq<string>>,
                  options: Options, totalSize: Uint64)
    returns (r: ParseResult)
    requires 1 <= i < |argv| && !IsSimpleFlag(argv[i]) && IsListFlag(argv[i])
    requires forall k | 1 <= k < i :: IsSimpleFlag(argv[k])
    requires options == FlagOptions(argv[1..i])
    ensures r == Parse(argv, fs, lists)
  {
    var filePath := argv[i][FILE_PATH_INDEX..];
    FlagEndAt(argv, 1, i);
    var result := WalkListFile(filePath, fs, lists, options.(fromFile := true), totalSize);
    return Stopped(result);
  }

  /** One more pass of the argument loop applies one more flag. */
  lemma FlagOptionsStep(argv: seq<string>, i: nat)
    requires 1 <= i < |argv|
    ensures FlagOptions(argv[1..i + 1]) == Apply(FlagOptions(argv[1..i]), argv[i])
  {
    assert argv[1..i + 1][..i - 1] == argv[1..i];
  }

  /** `FlagEnd` from `i` is the `j` the loop reaches: every token in between
      is a simple flag and the one at `j` (if any) is not. */
  lemma {:induction false} FlagEndAt(argv: seq<string>, i: nat, j: nat)
    requires i <= j <= |argv|
    requires forall k | i <= k < j :: IsSimpleFlag(argv[k])
    requires j < |argv| ==> !IsSimpleFlag(argv[j])
    ensures FlagEnd(argv, i) == j
    decreases j - i
  {
    if i < j {
      FlagEndAt(argv, i + 1, j);
    }
  }

  // ---------------------------------------------------------------------
  // main

  function CppMain(argv: seq<string>, fs: FileSystem, lists: map<string, seq<string>>): RunResult
  {
    match Parse(argv, fs, lists)
    case Stopped(r) => r
    case Parsed(o) =>
      var roots := Roots(Operands(argv, o), fs, o, true);
      if roots.crashed then RunResult(roots.effect.out, roots.effect.diags, Aborted)
      else
        RunResult(roots.effect.out
                  + (if PrintsTotal(o) then TotalLine(AddU64(0, roots.effect.bytes), o) else []),
                  roots.effect.diags, Exited(0))
  }

  method Run(argv: seq<string>, fs: FileSystem, lists: map<string, seq<string>>)
    returns (r: RunResult)
    ensures r == CppMain(argv, fs, lists)
  {
    var totalSize: Uint64 := 0;
    var parsed := ProcessCommandLineArguments(argv, fs, lists, totalSize);
    if parsed.Stopped? {
      return parsed.result;
    }
    var options := parsed.options;
    var out, diags := [], [];
    if !options.fromFile {
      var crashed;
      totalSize, out, diags, crashed := ProcessPaths(argv, fs, options, totalSize);
      if crashed {
        return RunResult(out, diags, Aborted);
      }
    }
    if options.printOnlyFullsize || options.printFullsize {
      out := out + [TotalLabel, Num(totalSize), UnitWord(if options.blockSize then Blocks else Bytes), Newline];
    }
    return RunResult(out, diags, Exited(0));
  }
}
