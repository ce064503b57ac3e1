/** Properties of the C++ model: the walk against an independent flattened
    description of what it reaches, per-entry error isolation, the root
    loop, and whole runs. */
module DuCppProps {
  import opened FsModel
  import opened Report
  import opened DuCpp

  // ---------------------------------------------------------------------
  // Reference: the entries a walk reaches, flattened

  /** Every entry the C++ walk of `n` examines, in the order it examines
      them: each entry a listing yields, followed by what the walk of that
      entry reaches. */
  function Reached(n: Node): seq<Node>
    decreases n, 0
  {
    if n.Dir? then ReachedAll(n.entries) else []
  }

  function ReachedAll(es: seq<Node>): seq<Node>
    decreases es
  {
    if es == [] then []
    else ReachedAll(es[..|es| - 1]) + [es[|es| - 1]] + Reached(es[|es| - 1])
  }

  /** The sum of the sizes of the regular files among `ms`. */
  function RegularBytes(ms: seq<Node>): nat
  {
    if ms == [] then 0
    else RegularBytes(ms[..|ms| - 1]) + (if ms[|ms| - 1].File? then ms[|ms| - 1].size else 0)
  }

  /** The lines of the regular files among `ms`, in order. */
  function RegularLines(ms: seq<Node>, o: Options): seq<Token>
  {
    if ms == [] then []
    else
      var m := ms[|ms| - 1];
      RegularLines(ms[..|ms| - 1], o) + (if m.File? then FileLine(m.path, m.size, o) else [])
  }

  /** Entries whose processing throws inside the `try`: a status query that
      fails, or a directory whose listing fails. */
  predicate Fails(m: Node)
  {
    m.Faulty? || (m.Dir? && !m.complete)
  }

  function FailureCount(ms: seq<Node>): nat
  {
    if ms == [] then 0
    else FailureCount(ms[..|ms| - 1]) + (if Fails(ms[|ms| - 1]) then 1 else 0)
  }

  lemma {:induction false} BytesAppend(a: seq<Node>, b: seq<Node>)
    ensures RegularBytes(a + b) == RegularBytes(a) + RegularBytes(b)
    decreases |b|
  {
    if b == [] {
      assert a + b == a;
    } else {
      var init := b[..|b| - 1];
      assert (a + b)[..|a + b| - 1] == a + init;
      assert (a + b)[|a + b| - 1] == b[|b| - 1];
      BytesAppend(a, init);
    }
  }

  lemma {:induction false} LinesAppend(a: seq<Node>, b: seq<Node>, o: Options)
    ensures RegularLines(a + b, o) == RegularLines(a, o) + RegularLines(b, o)
    decreases |b|
  {
    if b == [] {
      assert a + b == a;
    } else {
      var init := b[..|b| - 1];
      assert (a + b)[..|a + b| - 1] == a + init;
      assert (a + b)[|a + b| - 1] == b[|b| - 1];
      LinesAppend(a, init, o);
    }
  }

  lemma {:induction false} FailuresAppend(a: seq<Node>, b: seq<Node>)
    ensures FailureCount(a + b) == FailureCount(a) + FailureCount(b)
    decreases |b|
  {
    if b == [] {
      assert a + b == a;
    } else {
      var init := b[..|b| - 1];
      assert (a + b)[..|a + b| - 1] == a + init;
      assert (a + b)[|a + b| - 1] == b[|b| - 1];
      FailuresAppend(a, init);
    }
  }

  lemma ReferenceAppend(a: seq<Node>, b: seq<Node>, o: Options)
    ensures RegularBytes(a + b) == RegularBytes(a) + RegularBytes(b)
    ensures RegularLines(a + b, o) == RegularLines(a, o) + RegularLines(b, o)
    ensures FailureCount(a + b) == FailureCount(a) + FailureCount(b)
  {
    BytesAppend(a, b);
    LinesAppend(a, b, o);
    FailuresAppend(a, b);
  }

  lemma {:induction false} LinesArePerFile(ms: seq<Node>, o: Options)
    ensures PerFileTokens(RegularLines(ms, o), o)
    decreases |ms|
  {
    if ms != [] {
      var m := ms[|ms| - 1];
      LinesArePerFile(ms[..|ms| - 1], o);
      if m.File? {
        FileLineTokens(m.path, m.size, o);
      }
    }
  }

  // ---------------------------------------------------------------------
  // The walk against the reference

  /** Size additivity: the bytes a listing's walk adds are exactly the sizes
      of the regular files it reaches; its output is their lines, in order;
      and it writes exactly one "Error processing" diagnostic per entry
      that fails, and nothing else to standard error. */
  lemma {:induction false} EntriesMatchReached(es: seq<Node>, o: Options)
    ensures Entries(es, o).bytes == RegularBytes(ReachedAll(es))
    ensures Entries(es, o).out == RegularLines(ReachedAll(es), o)
    ensures |Entries(es, o).diags| == FailureCount(ReachedAll(es))
    ensures forall d | d in Entries(es, o).diags :: d.ErrorProcessing?
    decreases es
  {
    if es != [] {
      var init, last := es[..|es| - 1], es[|es| - 1];
      var before, mine := ReachedAll(init), [last] + Reached(last);
      assert ReachedAll(es) == before + mine;
      EntriesMatchReached(init, o);
      EntryMatchesReached(last, o);
      ReferenceAppend(before, mine, o);
    }
  }

  /** One entry: the entry itself, then what its walk reaches. */
  lemma {:induction false} EntryMatchesReached(m: Node, o: Options)
    ensures Entry(m, o).bytes == RegularBytes([m] + Reached(m))
    ensures Entry(m, o).out == RegularLines([m] + Reached(m), o)
    ensures |Entry(m, o).diags| == FailureCount([m] + Reached(m))
    ensures forall d | d in Entry(m, o).diags :: d.ErrorProcessing?
    decreases m, 1
  {
    var here := Reached(m);
    ReferenceAppend([m], here, o);
    assert [m][..0] == [];
    assert RegularBytes([m]) == (if m.File? then m.size else 0);
    assert RegularLines([m], o) == (if m.File? then FileLine(m.path, m.size, o) else []);
    assert FailureCount([m]) == (if Fails(m) then 1 else 0);
    if m.Dir? {
      EntriesMatchReached(m.entries, o);
      assert Entry(m, o) == Then(Entries(m.entries, o), if m.complete then NoEffect else Emit(ErrorProcessing(m.path)));
    } else {
      assert here == [];
      assert RegularBytes(here) == 0 && RegularLines(here, o) == [] && FailureCount(here) == 0;
    }
  }

  lemma ListingMatchesReached(n: Node, o: Options)
    ensures Listing(n, o).bytes == RegularBytes(Reached(n))
    ensures Listing(n, o).out == RegularLines(Reached(n), o)
    ensures |Listing(n, o).diags| == FailureCount(Reached(n))
    ensures forall d | d in Listing(n, o).diags :: d.ErrorProcessing?
  {
    if n.Dir? {
      EntriesMatchReached(n.entries, o);
    }
  }

  /** The total a walk adds does not depend on any display option. */
  lemma TotalIgnoresDisplayOptions(n: Node, o1: Options, o2: Options)
    ensures Listing(n, o1).bytes == Listing(n, o2).bytes
  {
    ListingMatchesReached(n, o1);
    ListingMatchesReached(n, o2);
  }

  /** The walk writes per-file lines only: no total, only the active unit
      word, and in summary-only mode no path and no line break. */
  lemma WalkWritesPerFileTokens(n: Node, o: Options)
    ensures PerFileTokens(Listing(n, o).out, o)
  {
    ListingMatchesReached(n, o);
    LinesArePerFile(Reached(n), o);
  }

  // ---------------------------------------------------------------------
  // One entry at a time

  lemma {:induction false} EntriesAppend(a: seq<Node>, b: seq<Node>, o: Options)
    ensures Entries(a + b, o) == Then(Entries(a, o), Entries(b, o))
    decreases |b|
  {
    if b == [] {
      assert a + b == a;
    } else {
      var init := b[..|b| - 1];
      assert (a + b)[..|a + b| - 1] == a + init;
      assert (a + b)[|a + b| - 1] == b[|b| - 1];
      EntriesAppend(a, init, o);
      ThenAssociative(Entries(a, o), Entries(init, o), Entry(b[|b| - 1], o));
    }
  }

  lemma EntriesAround(a: seq<Node>, e: Node, b: seq<Node>, o: Options)
    ensures Entries(a + [e] + b, o) == Then(Then(Entries(a, o), Entry(e, o)), Entries(b, o))
  {
    EntriesAppend(a + [e], b, o);
    EntriesAppend(a, [e], o);
    assert [e][..0] == [];
  }

  /** An entry that is neither a regular file nor a directory, nor throws,
      is passed over: the listing behaves as if it were not there. */
  lemma OtherEntryIgnored(a: seq<Node>, e: Node, b: seq<Node>, o: Options)
    requires e.Special? || e.Dangling? || e.Missing? || e.NotADir?
    ensures Entries(a + [e] + b, o) == Entries(a + b, o)
  {
    assert Entry(e, o) == NoEffect;
    EntriesAround(a, e, b, o);
    EntriesAppend(a, b, o);
    SkipMiddle(Entries(a, o), Entries(b, o));
  }

  /** An entry whose status query throws costs one diagnostic and nothing
      else: the siblings after it are processed as if it were not there. */
  lemma FaultyEntryReportedOnce(a: seq<Node>, e: Node, b: seq<Node>, o: Options)
    requires e.Faulty?
    ensures var w, wo := Entries(a + [e] + b, o), Entries(a + b, o);
      && w.bytes == wo.bytes && w.out == wo.out
      && w.diags == Entries(a, o).diags + [ErrorProcessing(e.path)] + Entries(b, o).diags
  {
    assert Entry(e, o) == Emit(ErrorProcessing(e.path));
    EntriesAround(a, e, b, o);
    EntriesAppend(a, b, o);
    EmitMiddle(Entries(a, o), ErrorProcessing(e.path), Entries(b, o));
  }

  /** A subdirectory whose listing fails part-way keeps what its walk added
      and wrote, then gets one diagnostic, and the siblings after it are
      still processed. */
  lemma FailedSubdirectoryKeepsItsWork(a: seq<Node>, e: Node, b: seq<Node>, o: Options)
    requires e.Dir? && !e.complete
    ensures var w := Entries(a + [e] + b, o);
      && w.bytes == Entries(a, o).bytes + Entries(e.entries, o).bytes + Entries(b, o).bytes
      && w.out == Entries(a, o).out + Entries(e.entries, o).out + Entries(b, o).out
      && w.diags == Entries(a, o).diags + Entries(e.entries, o).diags
                    + [ErrorProcessing(e.path)] + Entries(b, o).diags
  {
    var el := Entries(e.entries, o);
    assert Entry(e, o) == Then(el, Emit(ErrorProcessing(e.path)));
    EntriesAround(a, e, b, o);
    EmitAfterMiddle(Entries(a, o), el, ErrorProcessing(e.path), Entries(b, o));
  }

  // ---------------------------------------------------------------------
  // Roots

  lemma {:induction false} RootsAppend(ps: seq<string>, qs: seq<string>, fs: FileSystem, o: Options, checked: bool)
    requires !Roots(ps, fs, o, checked).crashed
    ensures var r := Roots(qs, fs, o, checked);
      Roots(ps + qs, fs, o, checked) == Partial(Then(Roots(ps, fs, o, checked).effect, r.effect), r.crashed)
    decreases |qs|
  {
    var e := Roots(ps, fs, o, checked).effect;
    if qs == [] {
      assert ps + qs == ps;
    } else {
      var init, last := qs[..|qs| - 1], qs[|qs| - 1];
      assert (ps + qs)[..|ps + qs| - 1] == ps + init;
      assert (ps + qs)[|ps + qs| - 1] == last;
      RootsAppend(ps, init, fs, o, checked);
      if !Roots(init, fs, o, checked).crashed {
        ThenAssociative(e, Roots(init, fs, o, checked).effect, Root(last, fs, o, checked).effect);
      }
    }
  }

  /** A root that does not exist gets one diagnostic and adds nothing, and
      the roots after it are processed as if it were not there. */
  lemma MissingRootSkipped(ps: seq<string>, p: string, qs: seq<string>, fs: FileSystem, o: Options)
    requires Lookup(fs, p).Missing? || Lookup(fs, p).Dangling? || Lookup(fs, p).NotADir?
    requires !Roots(ps, fs, o, true).crashed
    ensures var w, wo := Roots(ps + [p] + qs, fs, o, true), Roots(ps + qs, fs, o, true);
      && w.effect.bytes == wo.effect.bytes && w.effect.out == wo.effect.out
      && w.crashed == wo.crashed
      && w.effect.diags == Roots(ps, fs, o, true).effect.diags + [PathDoesNotExist(p)]
                           + Roots(qs, fs, o, true).effect.diags
  {
    var before, after := Roots(ps, fs, o, true), Roots(qs, fs, o, true);
    var w, wo := Roots(ps + [p] + qs, fs, o, true), Roots(ps + qs, fs, o, true);
    assert Root(p, fs, o, true) == Partial(Emit(PathDoesNotExist(p)), false);
    RootsAround(ps, p, qs, fs, o);
    RootsAppend(ps, qs, fs, o, true);
    EmitMiddle(before.effect, PathDoesNotExist(p), after.effect);
    assert w.effect == Then(Then(before.effect, Emit(PathDoesNotExist(p))), after.effect);
    assert wo.effect == Then(before.effect, after.effect);
  }

  /** A root between others, when none before it throws: its effect comes
      after theirs; if it throws, the roots after it change nothing, and
      otherwise their effect follows and the loop throws exactly when one of
      them does. */
  lemma RootsAround(ps: seq<string>, p: string, qs: seq<string>, fs: FileSystem, o: Options)
    requires !Roots(ps, fs, o, true).crashed
    ensures var before, r, after := Roots(ps, fs, o, true).effect, Root(p, fs, o, true), Roots(qs, fs, o, true);
      Roots(ps + [p] + qs, fs, o, true)
        == if r.crashed then Partial(Then(before, r.effect), true)
           else Partial(Then(Then(before, r.effect), after.effect), after.crashed)
  {
    RootsSnoc(ps, p, fs, o, true);
    if Root(p, fs, o, true).crashed {
      RootsStopAtCrash(ps + [p], qs, fs, o, true);
    } else {
      RootsAppend(ps + [p], qs, fs, o, true);
    }
  }

  /** Every root's walk writes per-file tokens only. */
  lemma {:induction false} RootsWritePerFileTokens(ps: seq<string>, fs: FileSystem, o: Options, checked: bool)
    ensures PerFileTokens(Roots(ps, fs, o, checked).effect.out, o)
    decreases |ps|
  {
    if ps != [] {
      RootsWritePerFileTokens(ps[..|ps| - 1], fs, o, checked);
      WalkWritesPerFileTokens(Lookup(fs, ps[|ps| - 1]), o);
    }
  }

  // ---------------------------------------------------------------------
  // Whole runs

  /** A run that reaches `--files-from=` ends inside the parser: exit status
      1 or an abort, never a total line. A list that cannot be opened gives
      exactly one diagnostic and no output. */
  lemma FilesFromNeverPrintsTotal(argv: seq<string>, fs: FileSystem, lists: map<string, seq<string>>)
    requires Parse(argv, fs, lists).Stopped?
    ensures var r := CppMain(argv, fs, lists);
      && r.status != Exited(0) && NoTotal(r.out)
      && var listPath := argv[FlagEnd(argv, 1)][FILE_PATH_INDEX..];
         (listPath !in lists ==> r == RunResult([], [UnableToOpen(listPath)], Exited(1)))
  {
    var o := FlagOptions(Flags(argv)).(fromFile := true);
    var listPath := argv[FlagEnd(argv, 1)][FILE_PATH_INDEX..];
    if listPath in lists {
      RootsWritePerFileTokens(lists[listPath], fs, o, false);
    }
  }

  /** A run that finishes normally prints the total line exactly when `-s`
      or `-c` was among the flags, once, as the last line, holding the exact
      byte sum (modulo 2^64) in the unit `-b` chooses; everything before it
      is per-file output, which in summary-only mode has no path and no line
      break. */
  lemma TotalLineExactlyWhenAsked(argv: seq<string>, fs: FileSystem, lists: map<string, seq<string>>)
    requires CppMain(argv, fs, lists).status == Exited(0)
    ensures Parse(argv, fs, lists).Parsed?
    ensures var o := FlagOptions(Flags(argv));
      var roots := Roots(Operands(argv, o), fs, o, true);
      var r := CppMain(argv, fs, lists);
      && PerFileTokens(roots.effect.out, o)
      && UnitOf(o) == (if "-b" in Flags(argv) then Bytes else Blocks)
      && (if "-s" in Flags(argv) || "-c" in Flags(argv)
          then r.out == roots.effect.out + TotalLine(roots.effect.bytes % U64_LIMIT, o)
          else r.out == roots.effect.out)
  {
    var o := FlagOptions(Flags(argv));
    RootsWritePerFileTokens(Operands(argv, o), fs, o, true);
    WrapIsMod(Roots(Operands(argv, o), fs, o, true).effect.bytes);
  }

  /** A regular file given as a root goes to `processDirectory`, whose
      listing throws outside any `try`: the run aborts before writing
      anything. */
  lemma RegularFileRootAborts(prog: string, p: string, fs: FileSystem, lists: map<string, seq<string>>)
    requires !IsSimpleFlag(p) && !IsListFlag(p)
    requires Lookup(fs, p).File?
    ensures CppMain([prog, p], fs, lists) == RunResult([], [], Aborted)
  {
    var argv := [prog, p];
    FlagEndAt(argv, 1, 1);
    assert Flags(argv) == [];
    assert FlagOptions([]) == Defaults;
    assert Parse(argv, fs, lists) == Parsed(Defaults);
    assert Operands(argv, Defaults) == [p];
    RootsSnoc([], p, fs, Defaults, true);
    assert [] + [p] == [p];
    assert Root(p, fs, Defaults, true) == Partial(NoEffect, true);
  }

  /** `prog -a -b f` on a regular file `f`: `processPaths` starts at index
      1, so `-a` and `-b` are looked up as paths and reported missing, and
      then the file's directory iteration throws outside any `try`. */
  lemma AllFilesFileRootAborts(prog: string, p: string, fs: FileSystem, lists: map<string, seq<string>>)
    requires !IsSimpleFlag(p) && !IsListFlag(p)
    requires Lookup(fs, "-a").Missing? && Lookup(fs, "-b").Missing?
    requires Lookup(fs, p).File?
    ensures CppMain([prog, "-a", "-b", p], fs, lists)
         == RunResult([], [PathDoesNotExist("-a"), PathDoesNotExist("-b")], Aborted)
  {
    var o := FlagOptions(["-a", "-b"]);
    ParseAllFilesFlags(prog, p, fs, lists);
    MissingMissingFile("-a", "-b", p, fs, o);
  }

  lemma ParseAllFilesFlags(prog: string, p: string, fs: FileSystem, lists: map<string, seq<string>>)
    requires !IsSimpleFlag(p) && !IsListFlag(p)
    ensures Parse([prog, "-a", "-b", p], fs, lists) == Parsed(FlagOptions(["-a", "-b"]))
    ensures Operands([prog, "-a", "-b", p], FlagOptions(["-a", "-b"])) == ["-a", "-b", p]
  {
    var argv := [prog, "-a", "-b", p];
    FlagEndAt(argv, 1, 3);
    assert Flags(argv) == ["-a", "-b"];
    assert "-s" !in ["-a", "-b"] && "-c" !in ["-a", "-b"];
  }

  /** Two missing roots, then a regular file: two diagnostics, then a throw. */
  lemma MissingMissingFile(q1: string, q2: string, p: string, fs: FileSystem, o: Options)
    requires Lookup(fs, q1).Missing? && Lookup(fs, q2).Missing? && Lookup(fs, p).File?
    ensures Roots([q1, q2, p], fs, o, true)
         == Partial(Effect(0, [], [PathDoesNotExist(q1), PathDoesNotExist(q2)]), true)
  {
    RootsSnoc([], q1, fs, o, true);
    assert [] + [q1] == [q1];
    RootsSnoc([q1], q2, fs, o, true);
    assert [q1] + [q2] == [q1, q2];
    assert Roots([q1, q2], fs, o, true) == Partial(Effect(0, [], [PathDoesNotExist(q1), PathDoesNotExist(q2)]), false);
    RootsSnoc([q1, q2], p, fs, o, true);
    assert [q1, q2] + [p] == [q1, q2, p];
    assert Root(p, fs, o, true) == Partial(NoEffect, true);
  }

  /** The index where the argument loop stops is never used: with `-a`
      before a root, `processPaths` still starts at index 1 and looks the
      flag up as a path. */
  lemma FlagTokenTakenAsRoot(prog: string, p: string, fs: FileSystem, lists: map<string, seq<string>>)
    requires !IsSimpleFlag(p) && !IsListFlag(p)
    requires Lookup(fs, "-a").Missing?
    ensures FlagEnd([prog, "-a", p], 1) == 2
    ensures var r := CppMain([prog, "-a", p], fs, lists);
      |r.diags| > 0 && r.diags[0] == PathDoesNotExist("-a")
  {
    ParseFlagThenRoot(prog, p, fs, lists);
    MissingFirstRoot("-a", p, fs, FlagOptions(["-a"]));
  }

  /** A missing first root is reported first, whatever follows it. */
  lemma MissingFirstRoot(q: string, p: string, fs: FileSystem, o: Options)
    requires Lookup(fs, q).Missing?
    ensures var r := Roots([q, p], fs, o, true);
      |r.effect.diags| > 0 && r.effect.diags[0] == PathDoesNotExist(q)
  {
    RootsSnoc([], q, fs, o, true);
    assert [] + [q] == [q];
    RootsAppend([q], [p], fs, o, true);
    assert [q] + [p] == [q, p];
  }

  lemma ParseFlagThenRoot(prog: string, p: string, fs: FileSystem, lists: map<string, seq<string>>)
    requires !IsSimpleFlag(p) && !IsListFlag(p)
    ensures FlagEnd([prog, "-a", p], 1) == 2
    ensures Parse([prog, "-a", p], fs, lists) == Parsed(FlagOptions(["-a"]))
    ensures Operands([prog, "-a", p], FlagOptions(["-a"])) == ["-a", p]
  {
    var argv := [prog, "-a", p];
    FlagEndAt(argv, 1, 2);
    assert Flags(argv) == ["-a"];
  }
}
