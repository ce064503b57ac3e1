/** The Go program: `processFile`, `processDirectory` as a callback over
    the entries `filepath.Walk` visits, `processPaths`,
    `processFileFromOptions` and `main`. The running total is an in/out
    parameter, as the `*uint64` it models; each method returns the tokens
    it writes to standard output and the diagnostics it writes to standard
    error. */
module DuGo {
  import opened FsModel
  import opened Report
  import opened WalkOrder

  /** `&Options{blockSize: true}` after `flag.Parse()` has bound `-b`, `-a`,
      `-c` and `-s`: `-b` sets `printSize` and leaves `blockSize` alone. */
  function GoOptions(b: bool, a: bool, c: bool, s: bool): Options
  {
    Options(printSize := b, printAllFiles := a, printOnlyFullsize := s,
            printFullsize := c, blockSize := true, fromFile := false)
  }

  /** What `os.Stat` reports for a path that `Lstat` found. */
  datatype Stat = Stat(size: FileSize) | StatError

  /** One invocation of the walk callback. */
  datatype Visit =
      /** `info.IsDir()` with no error. */
    | DirVisit(path: string)
      /** Not a directory, and what `os.Stat(path)` then reports. */
    | LeafVisit(path: string, stat: Stat)
      /** `err != nil`: `Lstat` failed, or the directory could not be read. */
    | ErrorVisit(path: string)

  // ---------------------------------------------------------------------
  // filepath.Walk (library behaviour)

  /** The callback invocations `filepath.Walk` makes for the tree at `n`, in
      order: the root itself first; for a directory read without error, then
      the walk of each entry in turn, in the order of `entries`. A directory
      whose read fails gets one invocation that carries the error, and none
      of its entries is walked. The walk sorts every listing by name before
      using it, so the tree handed to `Walk` is `ReadSorted` of the host's
      tree. */
  function Walk(n: Node): seq<Visit>
    decreases n, 1
  {
    match n
    case File(p, s) => [LeafVisit(p, Stat(s))]
    case Special(p, s) => [LeafVisit(p, Stat(s))]
    case Dangling(p) => [LeafVisit(p, StatError)]
    case Faulty(p) => [ErrorVisit(p)]
    case Missing(p) => [ErrorVisit(p)]
    case NotADir(p) => [ErrorVisit(p)]
    case Dir(p, es, complete) => if complete then [DirVisit(p)] + WalkAll(es) else [ErrorVisit(p)]
  }

  function WalkAll(es: seq<Node>): seq<Visit>
    decreases es
  {
    if es == [] then [] else WalkAll(es[..|es| - 1]) + Walk(es[|es| - 1])
  }

  // ---------------------------------------------------------------------
  // Specification

  /** What the callback does for one visit. */
  function Callback(v: Visit, o: Options): Effect
  {
    match v
    case ErrorVisit(p) => Emit(ErrorProcessing(p))
    case DirVisit(_) => NoEffect
    case LeafVisit(p, StatError) => Emit(ErrorProcessingFile(p))
    case LeafVisit(p, Stat(s)) => FileEffect(p, s, o)
  }

  function Callbacks(vs: seq<Visit>, o: Options): Effect
  {
    if vs == [] then NoEffect else Then(Callbacks(vs[..|vs| - 1], o), Callback(vs[|vs| - 1], o))
  }

  /** The walk of `n`, stated on the tree: every entry that is not a
      directory is counted with what `os.Stat` reports, directories add
      nothing of their own, and every entry that cannot be read costs one
      diagnostic. */
  function Tree(n: Node, o: Options): Effect
    decreases n, 1
  {
    match n
    case File(p, s) => FileEffect(p, s, o)
    case Special(p, s) => FileEffect(p, s, o)
    case Dangling(p) => Emit(ErrorProcessingFile(p))
    case Faulty(p) => Emit(ErrorProcessing(p))
    case Missing(p) => Emit(ErrorProcessing(p))
    case NotADir(p) => Emit(ErrorProcessing(p))
    case Dir(p, es, complete) => if complete then Forest(es, o) else Emit(ErrorProcessing(p))
  }

  function Forest(es: seq<Node>, o: Options): Effect
    decreases es
  {
    if es == [] then NoEffect else Then(Forest(es[..|es| - 1], o), Tree(es[|es| - 1], o))
  }

  lemma {:induction false} CallbacksAppend(a: seq<Visit>, b: seq<Visit>, o: Options)
    ensures Callbacks(a + b, o) == Then(Callbacks(a, o), Callbacks(b, o))
    decreases |b|
  {
    if b == [] {
      assert a + b == a;
    } else {
      var init := b[..|b| - 1];
      assert (a + b)[..|a + b| - 1] == a + init;
      assert (a + b)[|a + b| - 1] == b[|b| - 1];
      CallbacksAppend(a, init, o);
      ThenAssociative(Callbacks(a, o), Callbacks(init, o), Callback(b[|b| - 1], o));
    }
  }

  /** Size additivity through the callback: what the callback accumulates
      over the visits `filepath.Walk` makes is the walk stated on the
      tree. */
  lemma {:induction false} CallbacksFollowTree(n: Node, o: Options)
    ensures Callbacks(Walk(n), o) == Tree(n, o)
    decreases n, 1
  {
    if n.Dir? && n.complete {
      CallbacksFollowDir(n, o);
    } else {
      CallbacksFollowLeaf(n, o);
    }
  }

  /** A directory read to its end adds nothing of its own: its walk is the
      walk of its entries. */
  lemma {:induction false} CallbacksFollowDir(n: Node, o: Options)
    requires n.Dir? && n.complete
    ensures Callbacks(Walk(n), o) == Tree(n, o)
    decreases n, 0
  {
    var p, es := n.path, n.entries;
    var rest := WalkAll(es);
    assert Walk(n) == [DirVisit(p)] + rest;
    assert Tree(n, o) == Forest(es, o);
    CallbacksFollowForest(es, o);
    CallbacksAppend([DirVisit(p)], rest, o);
    CallbacksSingle(DirVisit(p), o);
    ThenNoEffect(Forest(es, o));
  }

  /** An entry the walk does not descend into is one callback. */
  lemma CallbacksFollowLeaf(n: Node, o: Options)
    requires !(n.Dir? && n.complete)
    ensures Callbacks(Walk(n), o) == Tree(n, o)
  {
    var v := match n
      case File(p, s) => LeafVisit(p, Stat(s))
      case Special(p, s) => LeafVisit(p, Stat(s))
      case Dangling(p) => LeafVisit(p, StatError)
      case _ => ErrorVisit(n.path);
    assert Walk(n) == [v];
    CallbacksSingle(v, o);
  }

  lemma CallbacksSingle(v: Visit, o: Options)
    ensures Callbacks([v], o) == Callback(v, o)
  {
    var c := Callback(v, o);
    assert [v][..0] == [];
    assert Callbacks([v], o) == Then(Callbacks([], o), c);
    ThenNoEffect(c);
  }

  lemma {:induction false} CallbacksFollowForest(es: seq<Node>, o: Options)
    ensures Callbacks(WalkAll(es), o) == Forest(es, o)
    decreases es
  {
    if es != [] {
      var init, last := es[..|es| - 1], es[|es| - 1];
      CallbacksFollowForest(init, o);
      CallbacksFollowTree(last, o);
      CallbacksAppend(WalkAll(init), Walk(last), o);
    }
  }

  // ---------------------------------------------------------------------
  // processFile

  /** A failing `os.Stat` gives one diagnostic and leaves the total and
      standard output alone; otherwise the exact size is added, whatever
      the display unit, and the line the options ask for is written. */
  method ProcessFile(filePath: string, stat: Stat, totalSize: Uint64, options: Options)
    returns (newTotal: Uint64, out: seq<Token>, diags: seq<Diag>)
    ensures stat.StatError? ==>
      newTotal == totalSize && out == [] && diags == [ErrorProcessingFile(filePath)]
    ensures stat.Stat? ==>
      newTotal == AddU64(totalSize, stat.size) && diags == []
      && out == FileLine(filePath, stat.size, options)
  {
    if stat.StatError? {
      return totalSize, [], [ErrorProcessingFile(filePath)];
    }
    var fileSize := stat.size;
    newTotal := AddU64(totalSize, fileSize);
    out, diags := [], [];
    if options.printSize {
      if options.blockSize {
        out := out + [Num(AddU64(fileSize, BLOCK_SIZE - 1) / BLOCK_SIZE), Tab];
      } else {
        out := out + [Num(fileSize), Tab];
      }
    }
    if !options.printOnlyFullsize {
      out := out + [PathText(filePath)];
    }
    if options.printAllFiles {
      out := out + [Tab, Num(fileSize), UnitWord(if options.blockSize then Blocks else Bytes)];
    }
    if !options.printOnlyFullsize {
      out := out + [Newline];
    }
  }

  // ---------------------------------------------------------------------
  // processDirectory

  /** The callback `processDirectory` hands to `filepath.Walk`, for one
      visit. */
  method WalkCallback(v: Visit, totalSize: Uint64, options: Options)
    returns (newTotal: Uint64, out: seq<Token>, diags: seq<Diag>)
    ensures newTotal == AddU64(totalSize, Callback(v, options).bytes)
    ensures out == Callback(v, options).out && diags == Callback(v, options).diags
  {
    match v {
      case ErrorVisit(entry) =>
        return totalSize, [], [ErrorProcessing(entry)];
      case DirVisit(_) =>
        return totalSize, [], [];
      case LeafVisit(entry, stat) =>
        newTotal, out, diags := ProcessFile(entry, stat, totalSize, options);
    }
  }

  /** What `processDirectory(path)` leaves behind: the walk of the tree at
      `path` as `filepath.Walk` reads it. */
  function DirectoryWalk(path: string, fs: FileSystem, o: Options): Effect
  {
    Tree(ReadSorted(Lookup(fs, path)), o)
  }

  /** `filepath.Walk(path, callback)`: the callback reports errors and
      hands every entry that is not a directory, the root included, to
      `processFile`. It always returns nil, so the walk never stops early
      and "Error walking directory" is never written. */
  method ProcessDirectory(path: string, fs: FileSystem, totalSize: Uint64, options: Options)
    returns (newTotal: Uint64, out: seq<Token>, diags: seq<Diag>)
    ensures var e := DirectoryWalk(path, fs, options);
      newTotal == AddU64(totalSize, e.bytes) && out == e.out && diags == e.diags
  {
    var visits := Walk(ReadSorted(Lookup(fs, path)));
    newTotal, out, diags := totalSize, [], [];
    var i := 0;
    ghost var done := NoEffect;
    while i < |visits|
      invariant 0 <= i <= |visits|
      invariant done == Callbacks(visits[..i], options)
      invariant newTotal == AddU64(totalSize, done.bytes)
      invariant out == done.out && diags == done.diags
    {
      var v := visits[i];
      ghost var step := Callback(v, options);
      var visitOut, visitDiags;
      AddU64Twice(totalSize, done.bytes, step.bytes);
      newTotal, visitOut, visitDiags := WalkCallback(v, newTotal, options);
      out := out + visitOut;
      diags := diags + visitDiags;
      assert visits[..i + 1][..i] == visits[..i];
      done := Then(done, step);
      i := i + 1;
    }
    assert visits[..i] == visits;
    CallbacksFollowTree(ReadSorted(Lookup(fs, path)), options);
  }

  // ---------------------------------------------------------------------
  // processPaths

  /** One root: `os.Stat` first; a root that does not exist (a dangling
      link included) gets one diagnostic; any other root is walked, a path
      through a regular file too, since `os.IsNotExist` is false for its
      "not a directory" error. */
  function PathRoot(p: string, fs: FileSystem, o: Options): Effect
  {
    var n := Lookup(fs, p);
    if n.Missing? || n.Dangling? then Emit(PathDoesNotExist(p)) else Tree(ReadSorted(n), o)
  }

  function Paths(ps: seq<string>, fs: FileSystem, o: Options): Effect
  {
    if ps == [] then NoEffect else Then(Paths(ps[..|ps| - 1], fs, o), PathRoot(ps[|ps| - 1], fs, o))
  }

  /** One pass of the `processPaths` loop: the `os.Stat` test, then
      `processDirectory` on the root. */
  method ProcessRoot(targetPath: string, fs: FileSystem, options: Options, totalSize: Uint64)
    returns (newTotal: Uint64, out: seq<Token>, diags: seq<Diag>)
    ensures var e := PathRoot(targetPath, fs, options);
      newTotal == AddU64(totalSize, e.bytes) && out == e.out && diags == e.diags
  {
    var node := Lookup(fs, targetPath);
    if node.Missing? || node.Dangling? {
      return totalSize, [], [PathDoesNotExist(targetPath)];
    }
    newTotal, out, diags := ProcessDirectory(targetPath, fs, totalSize, options);
  }

  method ProcessPaths(paths: seq<string>, fs: FileSystem, options: Options, totalSize: Uint64)
    returns (newTotal: Uint64, out: seq<Token>, diags: seq<Diag>)
    ensures var e := Paths(paths, fs, options);
      newTotal == AddU64(totalSize, e.bytes) && out == e.out && diags == e.diags
  {
    newTotal, out, diags := totalSize, [], [];
    var i := 0;
    ghost var done := NoEffect;
    while i < |paths|
      invariant 0 <= i <= |paths|
      invariant done == Paths(paths[..i], fs, options)
      invariant newTotal == AddU64(totalSize, done.bytes)
      invariant out == done.out && diags == done.diags
    {
      var targetPath := paths[i];
      ghost var step := PathRoot(targetPath, fs, options);
      var subOut, subDiags;
      AddU64Twice(totalSize, done.bytes, step.bytes);
      newTotal, subOut, subDiags := ProcessRoot(targetPath, fs, options, newTotal);
      out := out + subOut;
      diags := diags + subDiags;
      PathsStep(paths, i, fs, options);
      done := Then(done, step);
      i := i + 1;
    }
    assert paths[..i] == paths;
  }

  /** The root loop one root further along. */
  lemma PathsStep(ps: seq<string>, i: nat, fs: FileSystem, o: Options)
    requires i < |ps|
    ensures Paths(ps[..i + 1], fs, o) == Then(Paths(ps[..i], fs, o), PathRoot(ps[i], fs, o))
  {
    assert ps[..i + 1][..i] == ps[..i];
  }

  // ---------------------------------------------------------------------
  // processFileFromOptions

  /** A list file as `fmt.Fscanf(file, "%s", &line)` reads it: the words it
      yields, and whether reading then stopped on an error rather than at
      the end of the file. */
  datatype ListFile = ListFile(words: seq<string>, readError: bool)

  /** Every word is handed to `processDirectory` as it stands (no existence
      test), then a read error gets one diagnostic. A list that cannot be
      opened: one diagnostic and `os.Exit(1)` (`exited`). */
  datatype ListOutcome = ListOutcome(effect: Effect, exited: bool)

  function Trees(ws: seq<string>, fs: FileSystem, o: Options): Effect
  {
    if ws == [] then NoEffect else Then(Trees(ws[..|ws| - 1], fs, o), DirectoryWalk(ws[|ws| - 1], fs, o))
  }

  function FromList(filePath: string, fs: FileSystem, lists: map<string, ListFile>, o: Options): ListOutcome
  {
    if filePath !in lists then ListOutcome(Emit(UnableToOpen(filePath)), true)
    else
      var l := lists[filePath];
      ListOutcome(Then(Trees(l.words, fs, o), if l.readError then Emit(ErrorReading) else NoEffect), false)
  }

  method ProcessFileFromOptions(filePath: string, fs: FileSystem, lists: map<string, ListFile>,
                                options: Options, totalSize: Uint64)
    returns (newTotal: Uint64, out: seq<Token>, diags: seq<Diag>, exited: bool)
    ensures var l := FromList(filePath, fs, lists, options);
      && exited == l.exited
      && out == l.effect.out && diags == l.effect.diags
      && (!exited ==> newTotal == AddU64(totalSize, l.effect.bytes))
  {
    if filePath !in lists {
      return totalSize, [], [UnableToOpen(filePath)], true;
    }
    var file := lists[filePath];
    newTotal, out, diags := WalkWords(file.words, fs, options, totalSize);
    exited := false;
    if file.readError {
      diags := diags + [ErrorReading];
    }
    ThenNoEffect(Trees(file.words, fs, options));
  }

  /** The `Fscanf` loop: every word read is handed to `processDirectory`. */
  method WalkWords(words: seq<string>, fs: FileSystem, options: Options, totalSize: Uint64)
    returns (newTotal: Uint64, out: seq<Token>, diags: seq<Diag>)
    ensures var e := Trees(words, fs, options);
      newTotal == AddU64(totalSize, e.bytes) && out == e.out && diags == e.diags
  {
    newTotal, out, diags := totalSize, [], [];
    var i := 0;
    ghost var done := NoEffect;
    while i < |words|
      invariant 0 <= i <= |words|
      invariant done == Trees(words[..i], fs, options)
      invariant newTotal == AddU64(totalSize, done.bytes)
      invariant out == done.out && diags == done.diags
    {
      var line := words[i];
      ghost var step := DirectoryWalk(line, fs, options);
      var subOut, subDiags;
      AddU64Twice(totalSize, done.bytes, step.bytes);
      newTotal, subOut, subDiags := ProcessDirectory(line, fs, newTotal, options);
      out := out + subOut;
      diags := diags + subDiags;
      TreesStep(words, i, fs, options);
      done := Then(done, step);
      i := i + 1;
    }
    assert words[..i] == words;
  }

  /** The list loop one word further along. */
  lemma TreesStep(ws: seq<string>, i: nat, fs: FileSystem, o: Options)
    requires i < |ws|
    ensures Trees(ws[..i + 1], fs, o) == Then(Trees(ws[..i], fs, o), DirectoryWalk(ws[i], fs, o))
  {
    assert ws[..i + 1][..i] == ws[..i];
  }

  // ---------------------------------------------------------------------
  // main

  /** The process after the walks: the total line when `-s` or `-c` is set,
      then exit status 0. */
  function Finish(e: Effect, o: Options): RunResult
  {
    RunResult(e.out + (if PrintsTotal(o) then TotalLine(AddU64(0, e.bytes), o) else []), e.diags, Exited(0))
  }

  /** `main` given the four boolean flags, the `-files-from` value and
      `flag.Args()`. An empty `-files-from` value counts as not given. */
  function GoMain(b: bool, a: bool, c: bool, s: bool, filesFrom: string, args: seq<string>,
                  fs: FileSystem, lists: map<string, ListFile>): RunResult
  {
    var o := GoOptions(b, a, c, s);
    if filesFrom != "" then
      var l := FromList(filesFrom, fs, lists, o.(fromFile := true));
      if l.exited then RunResult(l.effect.out, l.effect.diags, Exited(1))
      else Finish(l.effect, o.(fromFile := true))
    else Finish(Paths(args, fs, o), o)
  }

  method Run(b: bool, a: bool, c: bool, s: bool, filesFrom: string, args: seq<string>,
             fs: FileSystem, lists: map<string, ListFile>)
    returns (r: RunResult)
    ensures r == GoMain(b, a, c, s, filesFrom, args, fs, lists)
  {
    var totalSize: Uint64 := 0;
    var options := Options(printSize := b, printAllFiles := a, printOnlyFullsize := s,
                           printFullsize := c, blockSize := true, fromFile := false);
    var out, diags;
    if filesFrom != "" {
      options := options.(fromFile := true);
      var exited;
      totalSize, out, diags, exited := ProcessFileFromOptions(filesFrom, fs, lists, options, totalSize);
      if exited {
        return RunResult(out, diags, Exited(1));
      }
    } else {
      totalSize, out, diags := ProcessPaths(args, fs, options, totalSize);
    }
    if options.printOnlyFullsize || options.printFullsize {
      out := out + [TotalLabel, Num(totalSize), UnitWord(if options.blockSize then Blocks else Bytes), Newline];
    }
    return RunResult(out, diags, Exited(0));
  }
}
