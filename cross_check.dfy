/** The two programs side by side: where their walks agree, where they
    part, and a worked `-s` run on which both print 610 bytes labelled as
    blocks. */
module CrossCheck {
  import opened FsModel
  import opened Report
  import opened WalkOrder
  import DuCpp
  import DuGo
  import DuGoProps

  /** A tree of regular files, directories read to the end and entries
      whose status cannot be read: the trees both programs walk alike. */
  predicate Plain(n: Node)
  {
    match n
    case File(_, _) => true
    case Faulty(_) => true
    case Dir(_, es, complete) => complete && forall i | 0 <= i < |es| :: Plain(es[i])
    case _ => false
  }

  /** On a plain tree, when both walks meet the entries of every directory
      in the same order, the C++ walk of an entry and the Go walk give the
      same total, the same lines and the same diagnostics. */
  lemma {:induction false} SameOrderAgrees(n: Node, o: Options)
    requires Plain(n)
    ensures DuCpp.Entry(n, o) == DuGo.Tree(n, o)
    ensures n.Dir? ==> DuCpp.Listing(n, o) == DuGo.Tree(n, o)
    decreases n, 1
  {
    if n.Dir? {
      SameOrderEntriesAgree(n.entries, o);
      ThenNoEffect(DuCpp.Listing(n, o));
    }
  }

  lemma {:induction false} SameOrderEntriesAgree(es: seq<Node>, o: Options)
    requires forall i | 0 <= i < |es| :: Plain(es[i])
    ensures DuCpp.Entries(es, o) == DuGo.Forest(es, o)
    decreases es
  {
    if es != [] {
      SameOrderEntriesAgree(es[..|es| - 1], o);
      SameOrderAgrees(es[|es| - 1], o);
    }
  }

  /** C++ walks the host's listing order and Go sorts every listing by
      name. On a plain tree whose every directory the host already lists in
      name order, the two programs give the same total, lines and
      diagnostics. */
  lemma EntryAgrees(n: Node, o: Options)
    requires Plain(n) && InNameOrder(n)
    ensures DuCpp.Entry(n, o) == DuGo.Tree(ReadSorted(n), o)
    ensures n.Dir? ==> DuCpp.Listing(n, o) == DuGo.Tree(ReadSorted(n), o)
  {
    ReadSortedKeepsInNameOrder(n);
    SameOrderAgrees(n, o);
  }

  /** Whatever the host's listing order, the two walks of a plain tree add
      the same bytes to the total. */
  lemma TotalAgrees(n: Node, o: Options)
    requires Plain(n)
    ensures DuCpp.Entry(n, o).bytes == DuGo.Tree(ReadSorted(n), o).bytes
  {
    SameOrderAgrees(n, o);
    DuGoProps.SortedTotal(n, o);
  }

  /** A root through a regular file (`f/x` where `f` is a file) is "not
      found" to the C++ `exists` test, which reports that it does not
      exist, while Go's `os.IsNotExist` lets it through and the walk
      reports an error processing it. Neither adds to the total. */
  lemma NotADirRootDiverges(p: string, fs: FileSystem, o: Options)
    requires Lookup(fs, p) == NotADir(p)
    ensures DuCpp.Root(p, fs, o, true) == DuCpp.Partial(Emit(PathDoesNotExist(p)), false)
    ensures DuGo.PathRoot(p, fs, o) == Emit(ErrorProcessing(p))
    ensures DuCpp.Root(p, fs, o, true).effect != DuGo.PathRoot(p, fs, o)
  {
    assert ReadSorted(Lookup(fs, p)) == Lookup(fs, p);
  }

  /** The lines need not agree: a directory the host lists as `d/b`, `d/a`
      is printed in that order by C++ and as `d/a`, `d/b` by Go. */
  lemma OrderDiverges(o: Options)
    ensures var fa, fb := File("d/a", 1), File("d/b", 1);
      var n := Dir("d", [fb, fa], true);
      && DuCpp.Listing(n, o).out == FileLine("d/b", 1, o) + FileLine("d/a", 1, o)
      && DuGo.Tree(ReadSorted(n), o).out == FileLine("d/a", 1, o) + FileLine("d/b", 1, o)
  {
    var fa, fb := File("d/a", 1), File("d/b", 1);
    var n := Dir("d", [fb, fa], true);
    assert Plain(n);
    SameOrderAgrees(n, o);
    ForestPair(fb, fa, o);
    assert !NameLeq("b", "a");
    assert !NameLeq("/b", "/a");
    assert !NameLeq("d/b", "d/a");
    ReadPair(fb, fa);
    SortPair(fb, fa);
    assert ReadSorted(n) == Dir("d", [fa, fb], true);
    ForestPair(fa, fb, o);
  }

  /** What the Go walk reads of two siblings. */
  lemma ReadPair(x: Node, y: Node)
    ensures ReadSortedAll([x, y]) == [ReadSorted(x), ReadSorted(y)]
  {
    assert [x, y][..1] == [x];
    assert [x][..0] == [];
  }

  /** The order the Go walk gives two siblings. */
  lemma SortPair(x: Node, y: Node)
    ensures ByName([x, y]) == if NameLeq(x.path, y.path) then [x, y] else [y, x]
  {
    assert [x, y][1..] == [y];
    assert [y][1..] == [];
  }

  /** The Go walk of two siblings. */
  lemma ForestPair(x: Node, y: Node, o: Options)
    ensures DuGo.Forest([x, y], o) == Then(DuGo.Tree(x, o), DuGo.Tree(y, o))
  {
    DuGoProps.ForestAppend([x], [y], o);
    DuGoProps.ForestSingle(x, o);
    DuGoProps.ForestSingle(y, o);
    assert [x] + [y] == [x, y];
  }

  /** Outside plain trees the walks part: C++ passes over special files and
      dangling links without a word where Go counts the first and reports
      the second, and C++ keeps what it read of a directory whose listing
      fails part-way where Go walks none of it. */
  lemma WalksDiverge(p: string, s: FileSize, es: seq<Node>, o: Options)
    ensures DuCpp.Entry(Special(p, s), o) == NoEffect
    ensures DuGo.Tree(Special(p, s), o) == FileEffect(p, s, o)
    ensures DuCpp.Entry(Dangling(p), o) == NoEffect
    ensures DuGo.Tree(Dangling(p), o) == Emit(ErrorProcessingFile(p))
    ensures DuCpp.Entry(Dir(p, es, false), o) == Then(DuCpp.Entries(es, o), Emit(ErrorProcessing(p)))
    ensures DuGo.Tree(Dir(p, es, false), o) == Emit(ErrorProcessing(p))
  {
  }

  // ---------------------------------------------------------------------
  // Worked runs

  /** What `-s` prints for a tree of 610 bytes: the exact byte sum, labelled
      with the unit word "blocks". */
  const SummaryOf610: seq<Token> := [TotalLabel, Num(610), UnitWord(Blocks), Newline]

  /** Directory `d` holds a 600-byte file and a subdirectory holding a
      10-byte file. With `-s` on `d`, both programs print only the total
      line, and it carries the byte sum 610, not a block count. */
  lemma SummaryRun(prog: string, d: string, a: string, sub: string, b: string,
                   fs: FileSystem, lists: map<string, seq<string>>, goLists: map<string, DuGo.ListFile>)
    requires !DuCpp.IsSimpleFlag(d) && !DuCpp.IsListFlag(d)
    requires Lookup(fs, d) == Dir(d, [File(a, 600), Dir(sub, [File(b, 10)], true)], true)
    ensures DuCpp.CppMain([prog, "-s", d], fs, lists) == RunResult(SummaryOf610, [], Exited(0))
    ensures DuGo.GoMain(false, false, false, true, "", [d], fs, goLists) == RunResult(SummaryOf610, [], Exited(0))
  {
    SummaryRunCpp(prog, d, a, sub, b, fs, lists);
    SummaryRunGo(d, a, sub, b, fs, goLists);
  }

  lemma SummaryRunCpp(prog: string, d: string, a: string, sub: string, b: string,
                      fs: FileSystem, lists: map<string, seq<string>>)
    requires !DuCpp.IsSimpleFlag(d) && !DuCpp.IsListFlag(d)
    requires Lookup(fs, d) == Dir(d, [File(a, 600), Dir(sub, [File(b, 10)], true)], true)
    ensures DuCpp.CppMain([prog, "-s", d], fs, lists) == RunResult(SummaryOf610, [], Exited(0))
  {
    var o := DuCpp.FlagOptions(["-s"]);
    ParseSummary(prog, d, fs, lists);
    SummaryTree(Lookup(fs, d), a, sub, b, o);
    DuCpp.RootsSnoc([], d, fs, o, true);
    assert [] + [d] == [d];
  }

  lemma SummaryRunGo(d: string, a: string, sub: string, b: string,
                     fs: FileSystem, goLists: map<string, DuGo.ListFile>)
    requires Lookup(fs, d) == Dir(d, [File(a, 600), Dir(sub, [File(b, 10)], true)], true)
    ensures DuGo.GoMain(false, false, false, true, "", [d], fs, goLists) == RunResult(SummaryOf610, [], Exited(0))
  {
    var g := DuGo.GoOptions(false, false, false, true);
    SummaryTreeSorted(Lookup(fs, d), a, sub, b, g);
    DuGoProps.PathsSingle(d, fs, g);
  }

  lemma ParseSummary(prog: string, d: string, fs: FileSystem, lists: map<string, seq<string>>)
    requires !DuCpp.IsSimpleFlag(d) && !DuCpp.IsListFlag(d)
    ensures DuCpp.Parse([prog, "-s", d], fs, lists) == DuCpp.Parsed(DuCpp.FlagOptions(["-s"]))
    ensures DuCpp.Operands([prog, "-s", d], DuCpp.FlagOptions(["-s"])) == [d]
  {
    var argv := [prog, "-s", d];
    DuCpp.FlagEndAt(argv, 1, 2);
    assert DuCpp.Flags(argv) == ["-s"];
  }

  /** The walk of the example tree in summary-only mode, in either program. */
  lemma SummaryTree(n: Node, a: string, sub: string, b: string, o: Options)
    requires n.Dir? && n.complete && n.entries == [File(a, 600), Dir(sub, [File(b, 10)], true)]
    requires o.printOnlyFullsize && !o.printSize && !o.printAllFiles
    ensures DuCpp.Listing(n, o) == Effect(610, [], [])
    ensures DuGo.Tree(n, o) == Effect(610, [], [])
  {
    var fa, fb := File(a, 600), File(b, 10);
    var inner := Dir(sub, [fb], true);
    assert Plain(n);
    SameOrderAgrees(n, o);
    DuGoProps.ForestSingle(fb, o);
    assert DuGo.Tree(inner, o) == Effect(10, [], []);
    ForestPair(fa, inner, o);
  }

  /** Go reads the example directory with `a` and `sub` in name order;
      either order gives the same summary. */
  lemma SummaryTreeSorted(n: Node, a: string, sub: string, b: string, o: Options)
    requires n.Dir? && n.complete && n.entries == [File(a, 600), Dir(sub, [File(b, 10)], true)]
    requires o.printOnlyFullsize && !o.printSize && !o.printAllFiles
    ensures DuGo.Tree(ReadSorted(n), o) == Effect(610, [], [])
  {
    var fa, inner := File(a, 600), Dir(sub, [File(b, 10)], true);
    SummaryInner(sub, b, o);
    ReadPair(fa, inner);
    assert ReadSorted(n) == Dir(n.path, ByName([fa, inner]), true);
    SortedPairWalk(fa, inner, o);
  }

  /** The example's subdirectory is read as it stands and adds 10 bytes. */
  lemma SummaryInner(sub: string, b: string, o: Options)
    requires o.printOnlyFullsize && !o.printSize && !o.printAllFiles
    ensures var inner := Dir(sub, [File(b, 10)], true);
      ReadSorted(inner) == inner && DuGo.Tree(inner, o) == Effect(10, [], [])
  {
    var fb := File(b, 10);
    var inner := Dir(sub, [fb], true);
    assert ReadSortedAll([fb]) == [fb] by { assert [fb][..0] == []; }
    assert ByName([fb]) == [fb] by { assert [fb][1..] == []; }
    assert ReadSorted(inner) == inner;
    DuGoProps.ForestSingle(fb, o);
    assert DuGo.Tree(inner, o) == DuGo.Forest([fb], o);
  }

  /** Two siblings are walked in one order or the other. */
  lemma SortedPairWalk(x: Node, y: Node, o: Options)
    ensures var w := DuGo.Forest(ByName([x, y]), o);
      w == Then(DuGo.Tree(x, o), DuGo.Tree(y, o)) || w == Then(DuGo.Tree(y, o), DuGo.Tree(x, o))
  {
    SortPair(x, y);
    ForestPair(x, y, o);
    ForestPair(y, x, o);
  }

  /** `-a -b` on a 600-byte file. The C++ program prints the exact size
      first and the word "bytes"; Go keeps counting in blocks, so it prints
      2 first, and its suffix shows 600 with the word "blocks". */
  lemma AllFilesLine(p: string)
    ensures DuCpp.FlagOptions(["-a", "-b"]).printSize
    ensures FileLine(p, 600, DuCpp.FlagOptions(["-a", "-b"]))
         == [Num(600), Tab, PathText(p), Tab, Num(600), UnitWord(Bytes), Newline]
    ensures FileLine(p, 600, DuGo.GoOptions(true, true, false, false))
         == [Num(2), Tab, PathText(p), Tab, Num(600), UnitWord(Blocks), Newline]
  {
    var o := DuCpp.FlagOptions(["-a", "-b"]);
    assert "-b" in ["-a", "-b"] && "-a" in ["-a", "-b"];
    assert "-s" !in ["-a", "-b"];
  }
}
