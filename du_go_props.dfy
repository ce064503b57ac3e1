/** Properties of the Go model: the walk's totals and output, per-entry
    error isolation, the root loop, and whole runs. */
module DuGoProps {
  import opened FsModel
  import opened Report
  import opened DuGo
  import opened WalkOrder

  // ---------------------------------------------------------------------
  // The walk

  /** The total a walk adds does not depend on any display option. */
  lemma {:induction false} TotalIgnoresDisplayOptions(n: Node, o1: Options, o2: Options)
    ensures Tree(n, o1).bytes == Tree(n, o2).bytes
    decreases n, 1
  {
    if n.Dir? && n.complete {
      ForestIgnoresDisplayOptions(n.entries, o1, o2);
    }
  }

  lemma {:induction false} ForestIgnoresDisplayOptions(es: seq<Node>, o1: Options, o2: Options)
    ensures Forest(es, o1).bytes == Forest(es, o2).bytes
    decreases es
  {
    if es != [] {
      ForestIgnoresDisplayOptions(es[..|es| - 1], o1, o2);
      TotalIgnoresDisplayOptions(es[|es| - 1], o1, o2);
    }
  }

  /** The walk writes per-file lines only: no total, only the active unit
      word, and in summary-only mode no path and no line break. */
  lemma {:induction false} TreeWritesPerFileTokens(n: Node, o: Options)
    ensures PerFileTokens(Tree(n, o).out, o)
    decreases n, 1
  {
    match n
    case File(p, s) => FileLineTokens(p, s, o);
    case Special(p, s) => FileLineTokens(p, s, o);
    case Dir(_, es, complete) =>
      if complete {
        ForestWritesPerFileTokens(es, o);
      }
    case _ =>
  }

  lemma {:induction false} ForestWritesPerFileTokens(es: seq<Node>, o: Options)
    ensures PerFileTokens(Forest(es, o).out, o)
    decreases es
  {
    if es != [] {
      ForestWritesPerFileTokens(es[..|es| - 1], o);
      TreeWritesPerFileTokens(es[|es| - 1], o);
    }
  }

  // ---------------------------------------------------------------------
  // One entry at a time

  lemma {:induction false} ForestAppend(a: seq<Node>, b: seq<Node>, o: Options)
    ensures Forest(a + b, o) == Then(Forest(a, o), Forest(b, o))
    decreases |b|
  {
    if b == [] {
      assert a + b == a;
      ThenNoEffect(Forest(a, o));
    } else {
      var init := b[..|b| - 1];
      assert (a + b)[..|a + b| - 1] == a + init;
      assert (a + b)[|a + b| - 1] == b[|b| - 1];
      ForestAppend(a, init, o);
      ThenAssociative(Forest(a, o), Forest(init, o), Tree(b[|b| - 1], o));
    }
  }

  lemma ForestSingle(x: Node, o: Options)
    ensures Forest([x], o) == Tree(x, o)
  {
    assert [x][..0] == [];
    ThenNoEffect(Tree(x, o));
  }

  // ---------------------------------------------------------------------
  // Name order

  /** Placing one entry among sorted siblings adds its bytes, wherever it
      lands. */
  lemma {:induction false} InsertKeepsTotal(x: Node, s: seq<Node>, o: Options)
    ensures Forest(Insert(x, s), o).bytes == Tree(x, o).bytes + Forest(s, o).bytes
  {
    ForestSingle(x, o);
    if s == [] || NameLeq(x.path, s[0].path) {
      ForestAppend([x], s, o);
    } else {
      InsertKeepsTotal(x, s[1..], o);
      ForestSingle(s[0], o);
      ForestAppend([s[0]], Insert(x, s[1..]), o);
      ForestAppend([s[0]], s[1..], o);
      assert [s[0]] + s[1..] == s;
    }
  }

  /** Sorting a listing by name does not change what its walk adds. */
  lemma {:induction false} ByNameKeepsTotal(es: seq<Node>, o: Options)
    ensures Forest(ByName(es), o).bytes == Forest(es, o).bytes
  {
    if es != [] {
      ByNameKeepsTotal(es[1..], o);
      InsertKeepsTotal(es[0], ByName(es[1..]), o);
      ForestSingle(es[0], o);
      ForestAppend([es[0]], es[1..], o);
      assert [es[0]] + es[1..] == es;
    }
  }

  /** The total of the Go walk does not depend on the order in which the
      host lists any directory. */
  lemma {:induction false} SortedTotal(n: Node, o: Options)
    ensures Tree(ReadSorted(n), o).bytes == Tree(n, o).bytes
    decreases n, 1
  {
    if n.Dir? && n.complete {
      SortedAllTotal(n.entries, o);
      ByNameKeepsTotal(ReadSortedAll(n.entries), o);
    }
  }

  lemma {:induction false} SortedAllTotal(es: seq<Node>, o: Options)
    ensures Forest(ReadSortedAll(es), o).bytes == Forest(es, o).bytes
    decreases es
  {
    if es != [] {
      var init, last := es[..|es| - 1], es[|es| - 1];
      var r := ReadSortedAll(es);
      SortedAllTotal(init, o);
      SortedTotal(last, o);
      assert r[..|r| - 1] == ReadSortedAll(init);
      assert r[|r| - 1] == ReadSorted(last);
    }
  }

  /** An entry the walk cannot read costs one diagnostic and nothing else;
      a directory that cannot be read has none of its entries walked. The
      siblings after it are walked as if it were not there. */
  lemma FailingEntryReportedOnce(a: seq<Node>, e: Node, b: seq<Node>, o: Options)
    requires e.Faulty? || e.Missing? || e.NotADir? || e.Dangling? || (e.Dir? && !e.complete)
    ensures var w, wo := Forest(a + [e] + b, o), Forest(a + b, o);
      && w.bytes == wo.bytes && w.out == wo.out
      && w.diags == Forest(a, o).diags
                    + [if e.Dangling? then ErrorProcessingFile(e.path) else ErrorProcessing(e.path)]
                    + Forest(b, o).diags
  {
    var d := if e.Dangling? then ErrorProcessingFile(e.path) else ErrorProcessing(e.path);
    assert Tree(e, o) == Emit(d);
    ForestAppend(a + [e], b, o);
    ForestAppend(a, [e], o);
    assert [e][..0] == [];
    ThenNoEffect(Tree(e, o));
    ForestAppend(a, b, o);
    EmitMiddle(Forest(a, o), d, Forest(b, o));
  }

  /** Every entry that is not a directory, special files included, is
      counted with the size `os.Stat` reports. */
  lemma NonDirectoryCounted(a: seq<Node>, e: Node, b: seq<Node>, o: Options)
    requires e.File? || e.Special?
    ensures var w := Forest(a + [e] + b, o);
      && w.bytes == Forest(a, o).bytes + e.size + Forest(b, o).bytes
      && w.out == Forest(a, o).out + FileLine(e.path, e.size, o) + Forest(b, o).out
  {
    ForestAppend(a + [e], b, o);
    ForestAppend(a, [e], o);
    assert [e][..0] == [];
    ThenNoEffect(Tree(e, o));
  }

  // ---------------------------------------------------------------------
  // Roots

  lemma {:induction false} PathsAppend(ps: seq<string>, qs: seq<string>, fs: FileSystem, o: Options)
    ensures Paths(ps + qs, fs, o) == Then(Paths(ps, fs, o), Paths(qs, fs, o))
    decreases |qs|
  {
    if qs == [] {
      assert ps + qs == ps;
      ThenNoEffect(Paths(ps, fs, o));
    } else {
      var init := qs[..|qs| - 1];
      assert (ps + qs)[..|ps + qs| - 1] == ps + init;
      assert (ps + qs)[|ps + qs| - 1] == qs[|qs| - 1];
      PathsAppend(ps, init, fs, o);
      ThenAssociative(Paths(ps, fs, o), Paths(init, fs, o), PathRoot(qs[|qs| - 1], fs, o));
    }
  }

  lemma PathsSingle(p: string, fs: FileSystem, o: Options)
    ensures Paths([p], fs, o) == PathRoot(p, fs, o)
  {
    assert [p][..0] == [];
    ThenNoEffect(PathRoot(p, fs, o));
  }

  /** A root that does not exist gets one diagnostic and adds nothing; the
      roots after it are processed as if it were not there. */
  lemma MissingRootSkipped(ps: seq<string>, p: string, qs: seq<string>, fs: FileSystem, o: Options)
    requires Lookup(fs, p).Missing? || Lookup(fs, p).Dangling?
    ensures var w, wo := Paths(ps + [p] + qs, fs, o), Paths(ps + qs, fs, o);
      && w.bytes == wo.bytes && w.out == wo.out
      && w.diags == Paths(ps, fs, o).diags + [PathDoesNotExist(p)] + Paths(qs, fs, o).diags
  {
    assert PathRoot(p, fs, o) == Emit(PathDoesNotExist(p));
    PathsAppend(ps + [p], qs, fs, o);
    PathsAppend(ps, [p], fs, o);
    PathsSingle(p, fs, o);
    PathsAppend(ps, qs, fs, o);
    EmitMiddle(Paths(ps, fs, o), PathDoesNotExist(p), Paths(qs, fs, o));
  }

  /** A root that runs through a regular file passes the `os.IsNotExist`
      test, and the walk's first `Lstat` fails on it: one "Error processing"
      diagnostic, and the roots after it are processed as if it were not
      there. */
  lemma NotADirRootReported(ps: seq<string>, p: string, qs: seq<string>, fs: FileSystem, o: Options)
    requires Lookup(fs, p) == NotADir(p)
    ensures var w, wo := Paths(ps + [p] + qs, fs, o), Paths(ps + qs, fs, o);
      && w.bytes == wo.bytes && w.out == wo.out
      && w.diags == Paths(ps, fs, o).diags + [ErrorProcessing(p)] + Paths(qs, fs, o).diags
  {
    assert ReadSorted(Lookup(fs, p)) == Lookup(fs, p);
    assert PathRoot(p, fs, o) == Emit(ErrorProcessing(p));
    PathsAppend(ps + [p], qs, fs, o);
    PathsAppend(ps, [p], fs, o);
    PathsSingle(p, fs, o);
    PathsAppend(ps, qs, fs, o);
    EmitMiddle(Paths(ps, fs, o), ErrorProcessing(p), Paths(qs, fs, o));
  }

  /** A regular file given as a root is walked as a file: its size is
      counted and its line written. */
  lemma RegularFileRootCounted(p: string, fs: FileSystem, o: Options)
    requires Lookup(fs, p).File?
    ensures var n := Lookup(fs, p);
      Paths([p], fs, o) == Effect(n.size, FileLine(n.path, n.size, o), [])
    ensures WellFormed(fs) ==> Paths([p], fs, o).out == FileLine(p, Lookup(fs, p).size, o)
  {
    PathsSingle(p, fs, o);
  }

  lemma {:induction false} PathsWritePerFileTokens(ps: seq<string>, fs: FileSystem, o: Options)
    ensures PerFileTokens(Paths(ps, fs, o).out, o)
    decreases |ps|
  {
    if ps != [] {
      PathsWritePerFileTokens(ps[..|ps| - 1], fs, o);
      TreeWritesPerFileTokens(ReadSorted(Lookup(fs, ps[|ps| - 1])), o);
    }
  }

  lemma {:induction false} TreesWritePerFileTokens(ws: seq<string>, fs: FileSystem, o: Options)
    ensures PerFileTokens(Trees(ws, fs, o).out, o)
    decreases |ws|
  {
    if ws != [] {
      TreesWritePerFileTokens(ws[..|ws| - 1], fs, o);
      TreeWritesPerFileTokens(ReadSorted(Lookup(fs, ws[|ws| - 1])), o);
    }
  }

  // ---------------------------------------------------------------------
  // Whole runs

  /** The walks' output of a run: from the list file when `-files-from` is
      given and opens, from the arguments otherwise. */
  function Walked(b: bool, a: bool, c: bool, s: bool, filesFrom: string, args: seq<string>,
                  fs: FileSystem, lists: map<string, ListFile>): Effect
  {
    var o := GoOptions(b, a, c, s);
    if filesFrom != "" then FromList(filesFrom, fs, lists, o.(fromFile := true)).effect
    else Paths(args, fs, o)
  }

  /** A run exits with status 1 exactly when the list file cannot be opened,
      writing one diagnostic and nothing else. Otherwise it prints the total
      line exactly when `-s` or `-c` is set, list file or not, once, as the
      last line, holding the exact byte sum (modulo 2^64); everything before
      it is per-file output. */
  lemma TotalLineExactlyWhenAsked(b: bool, a: bool, c: bool, s: bool, filesFrom: string, args: seq<string>,
                                  fs: FileSystem, lists: map<string, ListFile>)
    ensures var r := GoMain(b, a, c, s, filesFrom, args, fs, lists);
      var w := Walked(b, a, c, s, filesFrom, args, fs, lists);
      && (r.status == Exited(1) <==> filesFrom != "" && filesFrom !in lists)
      && (r.status == Exited(1) ==> r == RunResult([], [UnableToOpen(filesFrom)], Exited(1)))
      && (r.status != Exited(1) ==>
            && r.status == Exited(0)
            && PerFileTokens(w.out, GoOptions(b, a, c, s))
            && r.out == w.out + (if s || c then TotalLine(w.bytes % U64_LIMIT, GoOptions(b, a, c, s)) else []))
  {
    var o := GoOptions(b, a, c, s);
    WrapIsMod(Walked(b, a, c, s, filesFrom, args, fs, lists).bytes);
    if filesFrom != "" {
      if filesFrom in lists {
        var l := lists[filesFrom];
        TreesWritePerFileTokens(l.words, fs, o.(fromFile := true));
        var t := Trees(l.words, fs, o.(fromFile := true));
        assert t.out + [] == t.out;
      }
    } else {
      PathsWritePerFileTokens(args, fs, o);
    }
  }

  /** `-b` never clears `blockSize`: every size prefix is a block count and
      every unit word a run writes is "blocks", with or without `-b`. */
  lemma BlocksAlwaysShown(b: bool, a: bool, c: bool, s: bool, filesFrom: string, args: seq<string>,
                          fs: FileSystem, lists: map<string, ListFile>, size: FileSize)
    ensures ShownSize(size, GoOptions(b, a, c, s)) == CeilBlocks(size)
    ensures OnlyUnit(GoMain(b, a, c, s, filesFrom, args, fs, lists).out, Blocks)
  {
    TotalLineExactlyWhenAsked(b, a, c, s, filesFrom, args, fs, lists);
  }
}
