# du, modelled in Dafny

A `du`-style disk-usage tool exists in two versions, one in C++ (`main.cpp`) and one in Go (`main.go`). This project models the core of both.

Each version walks the trees named on its command line, or listed in a file given with `--files-from`. It adds every counted file's exact byte size (regular files in C++; regular and special files in Go) to one unsigned 64-bit running total. Depending on four flags it prints:

- a line per file: an optional size prefix in 512-byte blocks or bytes, the path, and an optional tab, exact size and unit word;
- a final `Total size:` line.

Modules:

- `FsModel` (`fs_model.dfy`) is the host file system as an inductive tree:
  - regular files;
  - directories, whose listing may fail part-way;
  - special files;
  - dangling links;
  - entries whose status cannot be read;
  - missing entries;
  - paths that run through a regular file (`f/x` where `f` is a file), whose status query fails with "not a directory".

  It also holds the `uint64` counter, with explicit wrap-around modulo 2^64.
- `Report` (`report.dfy`) holds what both versions share:
  - the `Options` record;
  - standard output as a sequence of tokens and standard error as a sequence of diagnostics;
  - the per-file output policy;
  - the `Effect` a step leaves behind: bytes added, tokens written, diagnostics written.
- `DuCpp` (`du_cpp.dfy`) is the C++ program, written as imperative methods. The total is an in/out parameter, as the `uint64_t &` it models. Each method is proved against a specification function:
  - `Listing`, `Entries` and `Entry` for the directory walk;
  - `Roots` for the root loop;
  - `Parse` and `ListRun` for the argument loop and `--files-from=`;
  - `CppMain` for `main`.

  An exception that escapes to `main` is the status `Aborted`.
- `WalkOrder` (`walk_order.dfy`) is the order in which Go's `filepath.Walk` takes a directory's entries: it reads all the names and sorts them, so every directory is walked in lexical order of names (`ReadSorted`). The C++ `directory_iterator` keeps the host's order.
- `DuGo` (`du_go.dfy`) is the Go program. Its `processDirectory` is a loop of callback invocations over the visits `filepath.Walk` makes (`Walk`). It is proved equal to a tree-shaped specification (`Tree`, `Forest`). `processPaths`, `processFileFromOptions` and `main` are proved against `Paths`, `FromList` and `GoMain`.
- `DuCppProps`, `DuGoProps` and `CrossCheck` (`du_cpp_props.dfy`, `du_go_props.dfy`, `cross_check.dfy`) prove what each program promises:
  - size additivity against an independent flattening of the tree;
  - per-entry error isolation;
  - root handling;
  - when the total line is printed;
  - where the two programs agree and where they differ.

Two runs behave differently from what one might expect, and the model follows the code:

- One might expect `-s` on a directory holding 600 + 10 bytes to print a block count. Both programs print `Total size: 610 blocks` instead. The total is the raw byte sum, labelled with the unit word (`CrossCheck.SummaryRun`).
- One might expect `-a -b` on a single 600-byte file to print `600 <path> 600 bytes`. Neither program does:
  - the C++ program starts its roots at index 1, so it first reports `-a` and `-b` as paths that do not exist, then aborts, because a regular-file root goes to directory iteration (`DuCppProps.AllFilesFileRootAborts`);
  - the Go program prints `2 <path> 600 blocks`, because `-b` never clears `blockSize` (`CrossCheck.AllFilesLine`).

  The C++ line `600 <path> 600 bytes` does appear when the file is found inside a walked directory.

## Model

Rows marked "(proof helper)" are facts about the model's own effect algebra or sorting helpers that the other proofs use; the cited lines are where they are applied, not a promise of the source.

| member | source | states |
|---|---|---|
| FsModel.AddU64Wraps | main.cpp:25 | adding to the `uint64_t` total is exact below 2^64 and wraps around once above it |
| FsModel.WrapIsMod | main.go:35 | the wrapped counter is the exact sum modulo 2^64 |
| FsModel.AddU64Twice | main.go:35 | adding two sizes one after the other wraps exactly like adding their sum once, so a walk's total is the wrapped byte sum |
| FsModel.WrapPlus | main.go:35 | wrapping a partial sum before adding more gives the same counter as wrapping once at the end |
| FsModel.Lookup | main.go:84-88 | in a well-formed file system, where every root path names an entry carrying that path, the entry found for a root carries the very path given on the command line; a path the map lacks is a missing entry |
| Report.CeilBlocks | main.cpp:28 | `(S + 511) / 512` is the least block count covering S bytes: S <= r*512 < S + 512 |
| Report.CeilBlocksBoundaries | main.cpp:9 | the block rounding maps 0 to 0, 1 to 1, 512 to 1 and 513 to 2 |
| Report.PrefixShowsActiveUnit | main.cpp:27-28 | with `printSize` a file's line opens with `(S+511)/512` when `blockSize` is set and with S otherwise, then a tab; without it the line never opens with a number |
| Report.SummaryOnlyDropsPathAndNewline | main.cpp:30-40 | with `printOnlyFullsize` neither the path nor the newline is written and the line is just prefix + suffix; without it both appear and the line ends with the newline |
| Report.SuffixIsRawBytes | main.cpp:36-37 | the `printAllFiles` suffix is a tab, the exact byte size never converted to blocks, and the word of the active unit; without the flag no unit word is written |
| Report.FileLineTokens | main.go:45-61 | a file's output never holds a total, uses only the active unit word, and in summary-only mode holds no path and no line break |
| Report.ThenAssociative | main.cpp:45-62 | (proof helper) effects written one after another compose associatively |
| Report.ThenNoEffect | main.cpp:45-62 | (proof helper) a step that does nothing leaves the effect of the others unchanged |
| Report.SkipMiddle | main.cpp:49-56 | (proof helper) an entry that does nothing can be dropped from between its siblings |
| Report.EmitMiddle | main.cpp:58-61 | (proof helper) one diagnostic between two steps adds to standard error only, in that position |
| Report.EmitAfterMiddle | main.cpp:53-61 | (proof helper) a step followed by one diagnostic, between two others, keeps its bytes and output and puts the diagnostic right after its own |
| WalkOrder.NameLeqTotal | main.go:65 | any two names are ordered one way or the other by lexical comparison |
| WalkOrder.Insert | main.go:65 | placing an entry among sorted siblings keeps every entry and adds that one, and the result starts with it or with the old first entry |
| WalkOrder.ByName | main.go:65 | the sort `filepath.Walk` applies to a listing is a permutation of it |
| WalkOrder.InsertInOrder | main.go:65 | placing an entry among siblings in name order leaves them in name order |
| WalkOrder.ByNameInOrder | main.go:65 | the sorted listing is in name order |
| WalkOrder.ByNameKeepsInOrder | main.go:65 | a listing already in name order is left as it is |
| WalkOrder.ReadSortedInNameOrder | main.go:64-80 | the tree the Go walk reads has every directory in name order |
| WalkOrder.ReadSortedKeepsInNameOrder | main.go:64-80 | a tree whose directories are already in name order is read as it stands |
| WalkOrder.ReadSortedAllInNameOrder | main.go:64-80 | every sibling tree the Go walk reads is in name order |
| WalkOrder.ReadSortedAllKeeps | main.go:64-80 | sibling trees already in name order are read as they stand |
| DuCpp.ProcessFile | main.cpp:22-41 | adds exactly the file's byte size to the total (wrapping modulo 2^64), whatever `blockSize` is, and writes exactly the file's line under the options |
| DuCpp.ProcessEntry | main.cpp:47-61 | one pass of the directory loop: a regular file is processed, a subdirectory walked with its throw caught and reported once, an entry whose status throws reported once, anything else skipped; the results match `Entry` |
| DuCpp.EntriesStep | main.cpp:45 | the directory loop one entry further is the walk so far followed by that entry |
| DuCpp.ProcessDirectory | main.cpp:43-63 | leaves the total, output and diagnostics that `Listing` assigns to the node: regular files are processed, subdirectories walked, entries that throw reported once, others skipped; it throws to the caller exactly when the node is not a directory read to its end |
| DuCpp.RootsSnoc | main.cpp:125-136 | a root after roots that did not throw adds exactly its own effect |
| DuCpp.RootsStopAtCrash | main.cpp:135 | once a root's walk has thrown, later roots change nothing |
| DuCpp.RootsStep | main.cpp:125-136 | the root loop one root further adds that root's effect and throws exactly when that root does |
| DuCpp.RootsCrashAt | main.cpp:125-136 | a root loop that throws after some prefix of the roots ends as the loop over all of them |
| DuCpp.ProcessRoot | main.cpp:127-135 | a missing root (a dangling link, or a path through a regular file, which `exists` counts as not found, included) gets one "Path does not exist" diagnostic and nothing else; a root whose status cannot be read throws from `exists`; any other root is handed to `processDirectory` |
| DuCpp.ProcessPaths | main.cpp:123-137 | processes `argv` from index 2 when `-s` or `-c` is set and from 1 otherwise, root by root, until one throws; the results match `Roots` of those operands |
| DuCpp.FlagEnd | main.cpp:71-118 | the argument loop stops at the first token from index 1 that is not `-b`, `-a`, `-c` or `-s`; every token before it is such a flag |
| DuCpp.FlagEndAt | main.cpp:71-118 | any index that has only flags before it and a non-flag or the end at it is where the loop stops |
| DuCpp.FlagOptions | main.cpp:12-20 | starting from the defaults (all false except `blockSize`): `printSize` is set iff `-b` occurred, `blockSize` iff `-b` did not occur, and `-a`, `-c`, `-s` each set exactly their own field; `fromFile` stays false |
| DuCpp.ApplyFlag | main.cpp:75-91 | `-b` sets `printSize` and clears `blockSize`; `-a`, `-c`, `-s` each set exactly their own field; the result is `Apply` |
| DuCpp.FlagOptionsStep | main.cpp:71-91 | one more pass of the argument loop over a flag applies that flag to the options so far |
| DuCpp.WalkListFile | main.cpp:92-111 | `--files-from=` reads the path from character 13 on; an unopenable list gives one diagnostic and exit status 1; otherwise every line is walked without an existence test, and the process exits with status 1 (aborting if a walk throws) and prints no total |
| DuCpp.ListFlag | main.cpp:92-111 | a `--files-from=` token reached after simple flags only ends the process with the list's run, whatever follows it; the result is `Parse` |
| DuCpp.ProcessCommandLineArguments | main.cpp:66-121 | the left-to-right loop yields `Parse`: the options of the flags before the first other token, or the end of the process when that token starts with `--files-from=`; the stop index it computes is never used |
| DuCpp.Run | main.cpp:139-151 | `main` parses, walks the operands unless `fromFile`, and prints the total line iff `-s` or `-c` is set, with the raw byte sum and the unit word |
| DuCppProps.BytesAppend | main.cpp:45-62 | the reference byte sum of concatenated entry lists is the sum of their byte sums |
| DuCppProps.LinesAppend | main.cpp:45-62 | the reference lines of concatenated entry lists are their lines concatenated |
| DuCppProps.FailuresAppend | main.cpp:58-61 | the reference failure count of concatenated entry lists is the sum of their counts |
| DuCppProps.ReferenceAppend | main.cpp:45-62 | all three reference measures distribute over concatenation |
| DuCppProps.LinesArePerFile | main.cpp:22-41 | the reference lines contain only per-file tokens |
| DuCppProps.EntriesMatchReached | main.cpp:45-62 | size additivity: a listing's walk adds exactly the sizes of the regular files among the entries it reaches, writes their lines in order, and writes one "Error processing" diagnostic per entry that throws, and no other diagnostic |
| DuCppProps.EntryMatchesReached | main.cpp:47-61 | the same for one entry: it adds the sizes of the regular files it reaches, writes their lines, and one diagnostic per entry under it that throws |
| DuCppProps.ListingMatchesReached | main.cpp:43-63 | the same for the walk of any node |
| DuCppProps.TotalIgnoresDisplayOptions | main.cpp:24-25 | the bytes a walk adds do not depend on any display option |
| DuCppProps.WalkWritesPerFileTokens | main.cpp:43-63 | a walk writes per-file tokens only |
| DuCppProps.EntriesAppend | main.cpp:45 | walking a concatenated listing is walking each part in turn |
| DuCppProps.EntriesAround | main.cpp:45-62 | one entry's effect sits between its siblings' |
| DuCppProps.OtherEntryIgnored | main.cpp:49-56 | a special file, a dangling link, a vanished entry or a path through a regular file changes nothing: the walk is as if it were absent |
| DuCppProps.FaultyEntryReportedOnce | main.cpp:58-61 | an entry whose status query throws costs exactly one "Error processing" diagnostic; total and output are as if it were absent, and the walk continues with the next sibling |
| DuCppProps.FailedSubdirectoryKeepsItsWork | main.cpp:53-61 | a subdirectory whose listing fails part-way keeps what it added to the total and the output, and is followed by one diagnostic before the next sibling |
| DuCppProps.RootsAppend | main.cpp:125-136 | roots after roots that did not throw add their own effect |
| DuCppProps.RootsAround | main.cpp:125-136 | any root after roots that did not throw: its effect follows theirs; if it throws, the roots after it change nothing, and otherwise their effect follows and the loop throws exactly when one of them does |
| DuCppProps.MissingRootSkipped | main.cpp:129-133 | a root that does not exist, is a dangling link or runs through a regular file gives one "Path does not exist" diagnostic, leaves the total and output unchanged, and the next root is processed |
| DuCppProps.RootsWritePerFileTokens | main.cpp:123-137 | the root loop writes per-file tokens only |
| DuCppProps.FilesFromNeverPrintsTotal | main.cpp:92-111 | a run that reaches `--files-from=` exits with status 1 or aborts, and prints no total line |
| DuCppProps.TotalLineExactlyWhenAsked | main.cpp:144-148 | a run that ends normally writes the per-file output of its roots, followed by `Total size: <raw byte sum mod 2^64> <unit>` iff `-s` or `-c` was given; the unit is bytes exactly when `-b` was given |
| DuCppProps.RegularFileRootAborts | main.cpp:45 | a regular file given as the only root makes `directory_iterator` throw outside the `try`: the run aborts with no output |
| DuCppProps.AllFilesFileRootAborts | main.cpp:125-135 | `prog -a -b f` on a regular file `f`, with no entries named `-a` or `-b`, writes two "Path does not exist" diagnostics for `-a` and `-b`, then aborts with no output |
| DuCppProps.ParseAllFilesFlags | main.cpp:71-117 | `prog -a -b f` parses to the `-a -b` options and yields the operands `-a`, `-b`, `f` |
| DuCppProps.MissingMissingFile | main.cpp:125-135 | two missing roots then a regular file: two diagnostics, then a throw |
| DuCppProps.FlagTokenTakenAsRoot | main.cpp:69-125 | with `-a p`, the stop index 2 is ignored and `-a` itself is treated as a root, so the first diagnostic is "Path does not exist: -a" |
| DuCppProps.MissingFirstRoot | main.cpp:129-131 | a missing first root is the first diagnostic written |
| DuCppProps.ParseFlagThenRoot | main.cpp:71-117 | `prog -a p` parses to the `-a` options and yields the operands `-a`, `p` |
| DuGo.CallbacksAppend | main.go:65-75 | the callbacks over concatenated visits compose |
| DuGo.CallbacksSingle | main.go:65-75 | one visit is one callback |
| DuGo.CallbacksFollowTree | main.go:64-80 | the callbacks over the visits of a tree's walk give `Tree`: non-directories are processed, directories add nothing, each walk error gives one diagnostic |
| DuGo.CallbacksFollowDir | main.go:64-80 | for a fully read directory the callbacks give `Tree`: the directory's own visit adds nothing, and its entries' visits follow in order |
| DuGo.CallbacksFollowLeaf | main.go:66-73 | any other entry is one visit whose callback gives `Tree`: an error visit for an unreadable entry or directory, and a file visit otherwise, where a dangling link's `os.Stat` fails |
| DuGo.CallbacksFollowForest | main.go:64-80 | the same for a sequence of sibling trees |
| DuGo.ProcessFile | main.go:27-62 | if `os.Stat` fails: one "Error processing file" diagnostic, total and output unchanged; otherwise the exact size is added to the total and the file's line is written |
| DuGo.WalkCallback | main.go:65-75 | one callback: an error gives one diagnostic and nothing else, a directory adds nothing, anything else is processed as a file; the results match `Callback` |
| DuGo.ProcessDirectory | main.go:64-80 | the walk's total, output and diagnostics are those `Tree` assigns to the entry at the path, root included, with every directory's entries taken in name order as `filepath.Walk` sorts them |
| DuGo.ProcessRoot | main.go:84-88 | a root that `os.Stat` finds missing, a dangling link included, gets one "Path does not exist" diagnostic and nothing else; any other root, a path through a regular file included (its error is not "does not exist"), is handed to `processDirectory` |
| DuGo.ProcessPaths | main.go:82-90 | roots in argument order; the results match `Paths` |
| DuGo.PathsStep | main.go:83-89 | the root loop one root further is the loop so far followed by that root |
| DuGo.ProcessFileFromOptions | main.go:92-112 | an unopenable list gives one diagnostic and exits; otherwise each word is walked with no existence test, and a read error adds one diagnostic at the end |
| DuGo.WalkWords | main.go:100-111 | every word read is walked as a root, in order, without an existence test; the results match `Trees` |
| DuGo.TreesStep | main.go:100-110 | the list loop one word further is the walk so far followed by the walk of that word's tree, read in name order |
| DuGo.Run | main.go:114-148 | `main` builds the options with `blockSize` true, walks the list or the arguments, and prints the total line iff `-s` or `-c` is set |
| DuGoProps.TotalIgnoresDisplayOptions | main.go:34-35 | the bytes a walk adds do not depend on any display option |
| DuGoProps.ForestIgnoresDisplayOptions | main.go:34-35 | the same for sibling trees |
| DuGoProps.TreeWritesPerFileTokens | main.go:37-61 | a walk writes per-file tokens only |
| DuGoProps.ForestWritesPerFileTokens | main.go:37-61 | the same for sibling trees |
| DuGoProps.ForestAppend | main.go:65 | walking concatenated siblings is walking each part in turn |
| DuGoProps.ForestSingle | main.go:65 | one sibling's walk is that entry's walk |
| DuGoProps.InsertKeepsTotal | main.go:65 | wherever the sort places an entry among its siblings, the bytes the walk adds are its bytes plus theirs |
| DuGoProps.ByNameKeepsTotal | main.go:65 | sorting a listing by name does not change the bytes its walk adds |
| DuGoProps.SortedTotal | main.go:64-80 | the total of the Go walk does not depend on the order in which the host lists any directory |
| DuGoProps.SortedAllTotal | main.go:64-80 | the same for a sequence of sibling trees |
| DuGoProps.FailingEntryReportedOnce | main.go:66-69 | an unreadable entry, an unreadable directory (none of whose entries is walked), a dangling link, a vanished entry or a path through a regular file costs exactly one diagnostic; total and output are as if it were absent, and the walk continues |
| DuGoProps.NonDirectoryCounted | main.go:71-73 | every non-directory entry, special files included, adds its size and writes its line between its siblings' |
| DuGoProps.PathsAppend | main.go:83 | the root loop over concatenated roots is the loop over each part in turn |
| DuGoProps.PathsSingle | main.go:83-89 | one root's loop is that root's processing |
| DuGoProps.MissingRootSkipped | main.go:84-87 | a root that does not exist gives one diagnostic and contributes nothing, and the next root is processed |
| DuGoProps.NotADirRootReported | main.go:64-88 | a root through a regular file passes the `os.IsNotExist` test and costs one "Error processing" diagnostic from the walk; total and output are as if it were absent, and the next root is processed |
| DuGoProps.RegularFileRootCounted | main.go:88 | a regular file given as a root is processed as a file: its size is counted and its line written, under the path given when the file system is well-formed |
| DuGoProps.PathsWritePerFileTokens | main.go:82-90 | the root loop writes per-file tokens only |
| DuGoProps.TreesWritePerFileTokens | main.go:100-111 | the list walk writes per-file tokens only |
| DuGoProps.TotalLineExactlyWhenAsked | main.go:129-147 | the run exits with status 1 exactly when a list file is named and cannot be opened, with one diagnostic and nothing else; otherwise it writes the per-file output, then the total line with the raw byte sum iff `-s` or `-c`, whether or not `-files-from` was used |
| DuGoProps.BlocksAlwaysShown | main.go:116-121 | `-b` never clears `blockSize`: a shown size is always the block count, and no run ever writes the word "bytes" |
| CrossCheck.EntryAgrees | main.cpp:43-63 | on plain trees (regular files, fully read directories, unreadable entries) whose every directory the host lists in name order, the C++ walk and the Go walk of the sorted tree give the same total, lines and diagnostics, with one path string per entry standing for both programs' (see Left out) |
| CrossCheck.SameOrderAgrees | main.go:64-80 | on plain trees, when both walks meet every directory's entries in the same order, they give the same total, lines and diagnostics, with one path string per entry standing for both programs' (see Left out) |
| CrossCheck.SameOrderEntriesAgree | main.cpp:45-62 | the same for sibling lists, with the same path caveat |
| CrossCheck.TotalAgrees | main.cpp:49-51 | whatever the host's listing order, the C++ and Go walks of a plain tree add the same bytes |
| CrossCheck.NotADirRootDiverges | main.cpp:129-131 | a root through a regular file is "Path does not exist" in C++ but "Error processing" in Go; neither counts it |
| CrossCheck.OrderDiverges | main.cpp:45 | a directory the host lists as `d/b`, `d/a` is printed in that order by C++ and as `d/a`, `d/b` by Go |
| CrossCheck.ReadPair | main.go:65 | (proof helper) the Go walk reads each of two siblings as a tree of its own |
| CrossCheck.SortPair | main.go:65 | (proof helper) two siblings are sorted into name order |
| CrossCheck.ForestPair | main.go:65 | (proof helper) the Go walk of two siblings is the first's walk followed by the second's |
| CrossCheck.WalksDiverge | main.cpp:49-61 | C++ silently skips special files and dangling links, which Go counts or reports; C++ keeps a partly read directory's work, where Go walks none of it |
| CrossCheck.SummaryRun | main.cpp:147-148 | `-s` on a directory of 600 + 10 bytes prints only `Total size: 610 blocks` in both programs |
| CrossCheck.SummaryRunCpp | main.cpp:139-151 | the C++ half of that run |
| CrossCheck.SummaryRunGo | main.go:114-148 | the Go half of that run |
| CrossCheck.ParseSummary | main.cpp:88-91 | `prog -s d` parses to the `-s` options with the single operand `d` |
| CrossCheck.SummaryTree | main.go:45-61 | in summary-only mode the walk of that directory adds 610 bytes and writes nothing, in both programs |
| CrossCheck.SummaryTreeSorted | main.go:64-80 | Go reads the example directory in name order, and either order gives 610 bytes and no output in summary-only mode |
| CrossCheck.SummaryInner | main.go:64-80 | the example's subdirectory is read as it stands and adds 10 bytes |
| CrossCheck.SortedPairWalk | main.go:65 | (proof helper) two siblings are walked in one order or the other |
| CrossCheck.AllFilesLine | main.cpp:75-79 | the line of a 600-byte file reached while walking a directory under `-a -b`: C++ writes `600 <path> 600 bytes`; Go writes `2 <path> 600 blocks` |

## Left out

- The 50 ms pause before each path is printed. It is pacing only.
- The real file system. It is replaced by the `Node` tree and the root map:
  - the order of a listing is the order of `entries`;
  - `file_size` failing after `is_regular_file` succeeded is not modelled;
  - a listing that fails is modelled only as failing after its last yielded entry.
- Symbolic links other than dangling ones. Links to files or directories are taken as what they point to. The Go walk does not descend into a link to a directory: it hands the link to `processFile`, whose `os.Stat` follows it, so the target directory's own size is added and printed under the link's path. That case is not modelled.
- Reading the list file:
  - C++ `getline` is modelled as the given sequence of lines;
  - Go `Fscanf("%s")` is modelled as the given sequence of words plus a flag for a read error. Its tokenisation and the reuse of `line` are not modelled.
- Go's `flag` package parsing. Its result is the input: four booleans, the `-files-from` value and `flag.Args()`.
- Exact stream formatting: `operator<<` quoting paths, `endl` flushing, `%v` error text. Output is abstract tokens and tagged diagnostics, and the interleaving of standard output with standard error is not modelled.
- `exit` and process termination. They are modelled as the `Status` value of a `RunResult`.
- The Go "Error walking directory" message. The callback always returns `nil`, so `filepath.Walk` never returns an error and the message is never written.
- CrossCheck.SameOrderAgrees, CrossCheck.EntryAgrees and CrossCheck.SameOrderEntriesAgree: one path string per entry stands for both programs. The C++ walk prints `entry.path()`, the directory path joined with the name as it stands (main.cpp:51, main.cpp:60). Go's `filepath.Walk` hands its callback `filepath.Join(dir, name)`, which cleans the result (main.go:65). So the printed lines and the "Error processing" diagnostics agree only for clean root paths, with no `.` or `..` element and no doubled separator. For root `.`, C++ prints `./a` where Go prints `a`. The totals do not depend on the paths and agree regardless (`CrossCheck.TotalAgrees`).
- CrossCheck.EntryAgrees: proved only when the host lists every directory in name order, the order Go's walk sorts into. For any other order only the totals agree (`CrossCheck.TotalAgrees`), and the lines come out in different orders (`CrossCheck.OrderDiverges`).
- Names as Go sorts them. `ByName` orders entries by their whole path, which is the order of their names when the entries of a directory carry the directory's path as a common prefix. Entry paths inside a directory are not tied to the directory's path in the model.
- WellFormed file systems. Lookups are not required to return an entry carrying the path looked up; lemmas that print a root's path say so under `WellFormed`.
