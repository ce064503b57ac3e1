/** The host file system as both programs see it: an inductive tree of
    entries, looked up by the root paths given on the command line, plus
    the unsigned 64-bit counter the sizes are summed into. */
module FsModel {

  /** Sizes are reported through `off_t` / `int64`, so they stay below 2^63. */
  const SIZE_LIMIT: nat := 0x8000_0000_0000_0000
  /** The accumulator is a `uint64_t` / `uint64`. */
  const U64_LIMIT: nat := 0x1_0000_0000_0000_0000

  type FileSize = n: nat | n < SIZE_LIMIT
  type Uint64 = n: nat | n < U64_LIMIT

  /** `n` reduced into the range of a 64-bit unsigned counter by taking
      away 2^64 until it fits. */
  function Wrap(n: nat): Uint64
  {
    if n < U64_LIMIT then n else Wrap(n - U64_LIMIT)
  }

  /** `a += b` on a 64-bit unsigned counter: wraps around modulo 2^64. */
  function AddU64(a: Uint64, b: nat): Uint64
  {
    Wrap(a + b)
  }

  /** The wrapped counter is the remainder modulo 2^64. */
  lemma {:induction false} WrapIsMod(n: nat)
    ensures Wrap(n) == n % U64_LIMIT
    decreases n
  {
    if n >= U64_LIMIT {
      WrapIsMod(n - U64_LIMIT);
      ModMultiple(1, n - U64_LIMIT);
    }
  }

  /** The sum is exact below 2^64 and loses 2^64 once above it. */
  lemma AddU64Wraps(a: Uint64, b: nat)
    ensures a + b < U64_LIMIT ==> AddU64(a, b) == a + b
    ensures U64_LIMIT <= a + b < 2 * U64_LIMIT ==> AddU64(a, b) == a + b - U64_LIMIT
  {
    if U64_LIMIT <= a + b < 2 * U64_LIMIT {
      assert Wrap(a + b - U64_LIMIT) == a + b - U64_LIMIT;
    }
  }

  /** Adding in two steps wraps exactly like adding the sum once. */
  lemma AddU64Twice(a: Uint64, x: nat, y: nat)
    ensures AddU64(AddU64(a, x), y) == AddU64(a, x + y)
  {
    WrapPlus(a + x, y);
  }

  /** Wrapping before adding `y` changes nothing once wrapped again. */
  lemma {:induction false} WrapPlus(n: nat, y: nat)
    ensures Wrap(Wrap(n) + y) == Wrap(n + y)
    decreases n
  {
    if n >= U64_LIMIT {
      WrapPlus(n - U64_LIMIT, y);
      assert Wrap(n + y) == Wrap(n - U64_LIMIT + y);
    }
  }

  lemma {:induction false} ModMultiple(q: nat, r: nat)
    ensures (q * U64_LIMIT + r) % U64_LIMIT == r % U64_LIMIT
  {
    if q > 0 {
      ModMultiple(q - 1, r);
      assert q * U64_LIMIT + r == (q - 1) * U64_LIMIT + r + U64_LIMIT;
    }
  }

  /** One directory entry (or root), classified the way the host reports it. */
  datatype Node =
      /** A regular file whose size can be read. */
    | File(path: string, size: FileSize)
      /** A directory. Its listing yields `entries` in the host's order; when
          `complete` is false the listing fails after the last of them. */
    | Dir(path: string, entries: seq<Node>, complete: bool)
      /** Neither a regular file nor a directory (device, pipe, socket);
          a status query on it reports `size`. */
    | Special(path: string, size: FileSize)
      /** A symbolic link whose target does not exist. */
    | Dangling(path: string)
      /** An entry whose status query fails with an error other than
          "not found" (permission denied, I/O error). */
    | Faulty(path: string)
      /** Nothing at this path (never there, or removed after the listing
          named it). */
    | Missing(path: string)
      /** A path that runs through a regular file (`f/x` where `f` is a
          file): its status query fails with "not a directory". The C++
          filesystem library counts that as not found; Go's
          `os.IsNotExist` does not. */
    | NotADir(path: string)

  /** What a root path names, when it names anything at all. */
  type FileSystem = map<string, Node>

  /** Every root path names an entry that carries that same path. */
  predicate WellFormed(fs: FileSystem)
  {
    forall q | q in fs :: fs[q].path == q
  }

  /** The entry a root path names: what the map holds, or nothing. In a
      well-formed file system it is the entry at that very path. */
  function Lookup(fs: FileSystem, p: string): (n: Node)
    ensures p !in fs ==> n == Missing(p)
    ensures WellFormed(fs) ==> n.path == p
  {
    if p in fs then fs[p] else Missing(p)
  }

  /** The listing of `n` is read to its end without an error. */
  predicate Listable(n: Node)
  {
    n.Dir? && n.complete
  }
}
