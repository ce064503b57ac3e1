/** The order in which Go's `filepath.Walk` meets a directory's entries.
    It reads all the names of a directory (`readDirNames`) and sorts them
    with `sort.Strings` before walking any of them, so the walk follows the
    lexical order of names, whatever order the host lists them in. The C++
    `directory_iterator` keeps the host's order. */
module WalkOrder {
  import opened FsModel

  /** `a <= b` in the lexical order of Go's string comparison. Strings are
      compared byte by byte, and UTF-8 bytes compare in the order of the
      code points they encode. */
  predicate NameLeq(a: string, b: string)
    decreases |a|
  {
    a == [] || (b != [] && (a[0] < b[0] || (a[0] == b[0] && NameLeq(a[1..], b[1..]))))
  }

  /** Any two names are ordered one way or the other. */
  lemma {:induction false} NameLeqTotal(a: string, b: string)
    ensures NameLeq(a, b) || NameLeq(b, a)
    decreases |a|
  {
    if a != [] && b != [] && a[0] == b[0] {
      NameLeqTotal(a[1..], b[1..]);
    }
  }

  /** Entries of one directory share the directory's path as a prefix, so
      ordering them by path orders them by name. */
  predicate InOrder(es: seq<Node>)
  {
    forall i | 0 < i < |es| :: NameLeq(es[i - 1].path, es[i].path)
  }

  /** `x` placed before the first entry it does not follow. */
  function Insert(x: Node, s: seq<Node>): (r: seq<Node>)
    ensures multiset(r) == multiset(s) + multiset{x}
    ensures |r| == |s| + 1 && (r[0] == x || (s != [] && r[0] == s[0]))
  {
    if s == [] || NameLeq(x.path, s[0].path) then [x] + s
    else
      assert s == [s[0]] + s[1..];
      [s[0]] + Insert(x, s[1..])
  }

  /** `sort.Strings` over the names read from one directory. */
  function ByName(es: seq<Node>): (r: seq<Node>)
    ensures multiset(r) == multiset(es)
  {
    if es == [] then []
    else
      assert es == [es[0]] + es[1..];
      Insert(es[0], ByName(es[1..]))
  }

  lemma {:induction false} InsertInOrder(x: Node, s: seq<Node>)
    requires InOrder(s)
    ensures InOrder(Insert(x, s))
  {
    if s != [] && !NameLeq(x.path, s[0].path) {
      var rest := Insert(x, s[1..]);
      InsertInOrder(x, s[1..]);
      NameLeqTotal(x.path, s[0].path);
      assert Insert(x, s) == [s[0]] + rest;
    }
  }

  /** The sort puts every listing in name order. */
  lemma {:induction false} ByNameInOrder(es: seq<Node>)
    ensures InOrder(ByName(es))
  {
    if es != [] {
      ByNameInOrder(es[1..]);
      InsertInOrder(es[0], ByName(es[1..]));
    }
  }

  /** A listing already in name order is left as it is. */
  lemma {:induction false} ByNameKeepsInOrder(es: seq<Node>)
    requires InOrder(es)
    ensures ByName(es) == es
  {
    if es != [] {
      var rest := es[1..];
      assert InOrder(rest) by {
        forall i | 0 < i < |rest|
          ensures NameLeq(rest[i - 1].path, rest[i].path)
        {
          assert rest[i - 1] == es[i] && rest[i] == es[i + 1];
        }
      }
      ByNameKeepsInOrder(rest);
      assert es == [es[0]] + rest;
    }
  }

  /** The tree as `filepath.Walk` reads it: every directory's entries in
      name order, all the way down. */
  function ReadSorted(n: Node): Node
    decreases n, 1
  {
    match n
    case Dir(p, es, complete) => Dir(p, ByName(ReadSortedAll(es)), complete)
    case _ => n
  }

  function ReadSortedAll(es: seq<Node>): (r: seq<Node>)
    ensures |r| == |es|
    decreases es
  {
    if es == [] then [] else ReadSortedAll(es[..|es| - 1]) + [ReadSorted(es[|es| - 1])]
  }

  /** Every directory of `n` lists its entries in name order. */
  predicate InNameOrder(n: Node)
    decreases n
  {
    match n
    case Dir(_, es, _) => InOrder(es) && forall i | 0 <= i < |es| :: InNameOrder(es[i])
    case _ => true
  }

  /** What the walk reads is in name order everywhere. */
  lemma {:induction false} ReadSortedInNameOrder(n: Node)
    ensures InNameOrder(ReadSorted(n))
    decreases n, 1
  {
    if n.Dir? {
      var rs := ReadSortedAll(n.entries);
      var sorted := ByName(rs);
      ReadSortedAllInNameOrder(n.entries);
      ByNameInOrder(rs);
      forall i | 0 <= i < |sorted|
        ensures InNameOrder(sorted[i])
      {
        assert sorted[i] in multiset(rs);
      }
    }
  }

  lemma {:induction false} ReadSortedAllInNameOrder(es: seq<Node>)
    ensures forall x | x in ReadSortedAll(es) :: InNameOrder(x)
    decreases es
  {
    if es != [] {
      ReadSortedAllInNameOrder(es[..|es| - 1]);
      ReadSortedInNameOrder(es[|es| - 1]);
    }
  }

  /** A tree whose directories are already in name order is read as it
      stands. */
  lemma {:induction false} ReadSortedKeepsInNameOrder(n: Node)
    requires InNameOrder(n)
    ensures ReadSorted(n) == n
    decreases n, 1
  {
    if n.Dir? {
      ReadSortedAllKeeps(n.entries);
      ByNameKeepsInOrder(n.entries);
    }
  }

  lemma {:induction false} ReadSortedAllKeeps(es: seq<Node>)
    requires forall i | 0 <= i < |es| :: InNameOrder(es[i])
    ensures ReadSortedAll(es) == es
    decreases es
  {
    if es != [] {
      var init := es[..|es| - 1];
      ReadSortedAllKeeps(init);
      ReadSortedKeepsInNameOrder(es[|es| - 1]);
      assert init + [es[|es| - 1]] == es;
    }
  }
}
