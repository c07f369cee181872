/** The optional value that stands for JavaScript's `null`/`undefined`. */
module Wrappers {
  datatype Option<+T> = None | Some(value: T)
}

/** Sequence operations shared by every screen: the array methods the source
    uses (filter, sorting by a key, index-based editing, join and split), each
    with the facts the rest of the model relies on. */
module Seqs {

  /** `r` can be obtained from `xs` by deleting elements: the order of what is
      kept is the order in `xs`. */
  ghost predicate SubsequenceOf<T>(r: seq<T>, xs: seq<T>)
    decreases |xs|
  {
    r == [] ||
    (xs != [] &&
     ((r[0] == xs[0] && SubsequenceOf(r[1..], xs[1..])) || SubsequenceOf(r, xs[1..])))
  }

  /** Array.prototype.filter: the elements of `xs` for which `keep` holds, in
      their original order. */
  function Filter<T(==,!new)>(keep: T -> bool, xs: seq<T>): (r: seq<T>)
    ensures |r| <= |xs|
    ensures forall x :: x in r <==> x in xs && keep(x)
    ensures (forall i :: 0 <= i < |xs| ==> keep(xs[i])) ==> r == xs
  {
    if xs == [] then []
    else
      assert xs == [xs[0]] + xs[1..];
      if keep(xs[0]) then [xs[0]] + Filter(keep, xs[1..]) else Filter(keep, xs[1..])
  }

  /** Filtering keeps every kept element with its multiplicity and drops the others. */
  lemma {:induction false} FilterMultiset<T(!new)>(keep: T -> bool, xs: seq<T>)
    ensures forall x :: multiset(Filter(keep, xs))[x] == if keep(x) then multiset(xs)[x] else 0
  {
    if xs != [] {
      FilterMultiset(keep, xs[1..]);
      assert xs == [xs[0]] + xs[1..];
    }
  }

  /** Filtering keeps the order of what it keeps. */
  lemma {:induction false} FilterSubsequence<T(!new)>(keep: T -> bool, xs: seq<T>)
    ensures SubsequenceOf(Filter(keep, xs), xs)
  {
    if xs != [] {
      FilterSubsequence(keep, xs[1..]);
      var rest := Filter(keep, xs[1..]);
      if keep(xs[0]) {
        assert ([xs[0]] + rest)[1..] == rest;
      }
    }
  }

  /** Filtering distributes over concatenation. */
  lemma {:induction false} FilterConcat<T(!new)>(keep: T -> bool, a: seq<T>, b: seq<T>)
    ensures Filter(keep, a + b) == Filter(keep, a) + Filter(keep, b)
    decreases |a|
  {
    if a == [] {
      assert a + b == b;
    } else {
      assert (a + b)[1..] == a[1..] + b;
      FilterConcat(keep, a[1..], b);
    }
  }

  /** Nothing survives a filter that rejects every element. */
  lemma {:induction false} FilterRejectsAll<T(!new)>(keep: T -> bool, xs: seq<T>)
    requires forall i :: 0 <= i < |xs| ==> !keep(xs[i])
    ensures Filter(keep, xs) == []
  {
    if xs != [] {
      FilterRejectsAll(keep, xs[1..]);
    }
  }

  /** A filter comes out empty exactly when it keeps no element. */
  lemma FilterEmpty<T(!new)>(keep: T -> bool, xs: seq<T>)
    ensures Filter(keep, xs) == [] <==> forall x :: x in xs ==> !keep(x)
  {
    var r := Filter(keep, xs);
    if r != [] {
      assert r[0] in r;
    }
  }

  /** Two complementary filters split a sequence: their lengths add up to its length. */
  lemma {:induction false} FilterComplementLength<T(!new)>(keep: T -> bool, drop: T -> bool, xs: seq<T>)
    requires forall x :: drop(x) <==> !keep(x)
    ensures |Filter(keep, xs)| + |Filter(drop, xs)| == |xs|
  {
    if xs != [] {
      FilterComplementLength(keep, drop, xs[1..]);
    }
  }

  /** Filters whose predicates agree pointwise give sequences of the same length. */
  lemma SameFilterLength<T(!new)>(k1: T -> bool, k2: T -> bool, xs: seq<T>)
    requires forall x :: x in xs ==> (k1(x) <==> k2(x))
    ensures |Filter(k1, xs)| == |Filter(k2, xs)|
  {
    var a, b := Filter(k1, xs), Filter(k2, xs);
    FilterMultiset(k1, xs);
    FilterMultiset(k2, xs);
    assert multiset(a) == multiset(b) by {
      forall x ensures multiset(a)[x] == multiset(b)[x] {
        if x !in xs {
          assert multiset(xs)[x] == 0;
        }
      }
    }
    assert |a| == |multiset(a)| == |multiset(b)| == |b|;
  }

  /** Every element is at least as large as the next one under `key`. */
  ghost predicate SortedDesc<T>(s: seq<T>, key: T -> int)
  {
    forall i, j :: 0 <= i < j < |s| ==> key(s[i]) >= key(s[j])
  }

  /** Places `x` into the descending sequence `s` before the first element with a smaller key. */
  function InsertDesc<T(==)>(x: T, s: seq<T>, key: T -> int): (r: seq<T>)
    requires SortedDesc(s, key)
    ensures SortedDesc(r, key)
    ensures multiset(r) == multiset(s) + multiset{x}
    ensures |r| == |s| + 1
    ensures r[0] == x || (s != [] && r[0] == s[0])
  {
    if s == [] || key(s[0]) <= key(x) then
      [x] + s
    else
      var rest := InsertDesc(x, s[1..], key);
      assert s == [s[0]] + s[1..];
      assert key(rest[0]) <= key(s[0]);
      [s[0]] + rest
  }

  /** The rows of `xs` ordered by `key`, largest first: `.order(key, { ascending: false })`.
      The order among equal keys is one particular choice; the backend promises none. */
  function SortDesc<T(==)>(xs: seq<T>, key: T -> int): (r: seq<T>)
    ensures SortedDesc(r, key)
    ensures multiset(r) == multiset(xs)
    ensures |r| == |xs|
  {
    if xs == [] then []
    else
      assert xs == [xs[0]] + xs[1..];
      InsertDesc(xs[0], SortDesc(xs[1..], key), key)
  }

  /** `[...xs, v]`: one more entry at the end. */
  function Append<T>(xs: seq<T>, v: T): (r: seq<T>)
    ensures |r| == |xs| + 1 && r[|xs|] == v
    ensures r[..|xs|] == xs
  {
    xs + [v]
  }

  /** `xs.filter((_, j) => j !== i)`: drops the entry at index `i`; an index
      outside the sequence drops nothing. */
  function RemoveAt<T>(xs: seq<T>, i: int): (r: seq<T>)
    ensures 0 <= i < |xs| ==> |r| == |xs| - 1
    ensures 0 <= i < |xs| ==> forall k :: 0 <= k < |r| ==> r[k] == if k < i then xs[k] else xs[k + 1]
    ensures !(0 <= i < |xs|) ==> r == xs
  {
    if 0 <= i < |xs| then xs[..i] + xs[i + 1..] else xs
  }

  /** A copy of `xs` whose entry `i` is overwritten with `v`. */
  function ReplaceAt<T>(xs: seq<T>, i: int, v: T): (r: seq<T>)
    requires 0 <= i < |xs|
    ensures |r| == |xs| && r[i] == v
    ensures forall k :: 0 <= k < |xs| && k != i ==> r[k] == xs[k]
  {
    xs[i := v]
  }

  /** `Array.prototype.map`. */
  function Map<T, U>(f: T -> U, xs: seq<T>): (r: seq<U>)
    ensures |r| == |xs|
    ensures forall i :: 0 <= i < |xs| ==> r[i] == f(xs[i])
  {
    if xs == [] then [] else [f(xs[0])] + Map(f, xs[1..])
  }

  /** `xs.join(sep)` on strings: the empty array joins to the empty string. */
  function Join(xs: seq<string>, sep: string): string
  {
    if |xs| == 0 then ""
    else if |xs| == 1 then xs[0]
    else xs[0] + sep + Join(xs[1..], sep)
  }

  /** A character found in no piece and not in the separator is not in the joined string. */
  lemma {:induction false} JoinAvoids(xs: seq<string>, sep: string, c: char)
    requires forall i :: 0 <= i < |xs| ==> c !in xs[i]
    requires c !in sep
    ensures c !in Join(xs, sep)
  {
    if |xs| > 1 {
      JoinAvoids(xs[1..], sep, c);
      var rest := Join(xs[1..], sep);
      assert xs[0] + sep + rest == xs[0] + (sep + rest);
      assert c !in sep + rest;
    }
  }

  /** `s.split(c)` for a one-character separator: always at least one piece. */
  function Split(s: string, c: char): (r: seq<string>)
    ensures |r| >= 1
  {
    if s == [] then [""]
    else
      var rest := Split(s[1..], c);
      if s[0] == c then [""] + rest else [[s[0]] + rest[0]] + rest[1..]
  }

  /** A piece without the separator, followed by the separator, splits off as one piece. */
  lemma {:induction false} SplitPiece(a: string, c: char, b: string)
    requires c !in a
    ensures Split(a + [c] + b, c) == [a] + Split(b, c)
  {
    if a == [] {
      assert a + [c] + b == [c] + b;
      assert ([c] + b)[1..] == b;
    } else {
      assert (a + [c] + b)[1..] == a[1..] + [c] + b;
      SplitPiece(a[1..], c, b);
      assert [a[0]] + a[1..] == a;
    }
  }

  /** A string without the separator splits to itself. */
  lemma {:induction false} SplitNoSeparator(a: string, c: char)
    requires c !in a
    ensures Split(a, c) == [a]
  {
    if a != [] {
      SplitNoSeparator(a[1..], c);
      assert [a[0]] + a[1..] == a;
    }
  }

  /** Splitting undoes joining when no piece contains the separator. */
  lemma {:induction false} SplitJoin(xs: seq<string>, c: char)
    requires |xs| >= 1
    requires forall i :: 0 <= i < |xs| ==> c !in xs[i]
    ensures Split(Join(xs, [c]), c) == xs
  {
    if |xs| == 1 {
      SplitNoSeparator(xs[0], c);
    } else {
      SplitJoin(xs[1..], c);
      SplitPiece(xs[0], c, Join(xs[1..], [c]));
      assert [xs[0]] + xs[1..] == xs;
    }
  }
}
