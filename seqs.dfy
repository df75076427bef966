/** Sequence utilities shared by the store and the views: the JavaScript array
    operations the application relies on (`filter`, `findIndex`, `flatMap`,
    `new Set(...)` and `sort`), stated as functions on sequences. */
module Seqs {

  datatype Option<T> = None | Some(value: T)

  /** `s.filter(p)`: the elements satisfying `p`, in their original order. */
  function Filter<T(!new)>(s: seq<T>, p: T -> bool): (r: seq<T>)
    ensures |r| <= |s|
    ensures forall x :: x in r <==> x in s && p(x)
  {
    if s == [] then [] else (if p(s[0]) then [s[0]] else []) + Filter(s[1..], p)
  }

  /** `a` is obtained from `b` by deleting elements, the rest keeping their order. */
  predicate IsSubsequence<T(==)>(a: seq<T>, b: seq<T>)
    decreases |b|
  {
    if a == [] then true
    else if b == [] then false
    else if a[0] == b[0] then IsSubsequence(a[1..], b[1..])
    else IsSubsequence(a, b[1..])
  }

  predicate NoDuplicates<T(==)>(s: seq<T>) {
    forall i, j :: 0 <= i < j < |s| ==> s[i] != s[j]
  }

  /** `s.indexOf(x)`: the first position holding `x`, or -1. */
  function FirstIndex<T(==)>(s: seq<T>, x: T): (r: int)
    ensures -1 <= r < |s|
    ensures r == -1 <==> x !in s
    ensures 0 <= r ==> s[r] == x && x !in s[..r]
  {
    if s == [] then -1
    else if s[0] == x then 0
    else
      var r := FirstIndex(s[1..], x);
      assert s[1..][..if r < 0 then 0 else r] == s[1..if r < 0 then 1 else r + 1];
      if r < 0 then -1 else r + 1
  }

  /** `[...new Set(s)]`: every element once, in the order of its first occurrence. */
  function Dedupe<T(==,!new)>(s: seq<T>): (r: seq<T>)
    ensures NoDuplicates(r)
    ensures forall x :: x in r <==> x in s
    ensures forall i, j :: 0 <= i < j < |r| ==> FirstIndex(s, r[i]) < FirstIndex(s, r[j])
  {
    if s == [] then []
    else
      var init, last := Dedupe(s[..|s| - 1]), s[|s| - 1];
      FirstIndexOfExtension(s[..|s| - 1], last);
      assert s[..|s| - 1] + [last] == s;
      if last in init then init else init + [last]
  }

  /** Extending a sequence at its end does not move the first occurrence of what it already held. */
  lemma FirstIndexOfExtension<T>(s: seq<T>, e: T)
    ensures forall x :: x in s ==> FirstIndex(s + [e], x) == FirstIndex(s, x)
    ensures e !in s ==> FirstIndex(s + [e], e) == |s|
  {
    forall x | x in s ensures FirstIndex(s + [e], x) == FirstIndex(s, x) {
      FirstIndexUnique(s + [e], x, FirstIndex(s, x));
    }
    if e !in s {
      FirstIndexUnique(s + [e], e, |s|);
    }
  }

  lemma FirstIndexUnique<T>(s: seq<T>, x: T, k: int)
    requires 0 <= k < |s| && s[k] == x && x !in s[..k]
    ensures FirstIndex(s, x) == k
  {
  }

  /** `ss.flat()`: the sequences of `ss` one after another. */
  function Flatten<T(!new)>(ss: seq<seq<T>>): (r: seq<T>)
    ensures forall x :: x in r <==> exists i :: 0 <= i < |ss| && x in ss[i]
  {
    if ss == [] then []
    else
      var rest := Flatten(ss[1..]);
      FlattenStep(ss, rest);
      ss[0] + rest
  }

  lemma FlattenStep<T>(ss: seq<seq<T>>, rest: seq<T>)
    requires ss != []
    requires forall x :: x in rest <==> exists i :: 0 <= i < |ss[1..]| && x in ss[1..][i]
    ensures forall x :: x in ss[0] + rest <==> exists i :: 0 <= i < |ss| && x in ss[i]
  {
    forall x | x in ss[0] + rest ensures exists i :: 0 <= i < |ss| && x in ss[i] {
      if x !in ss[0] {
        var i :| 0 <= i < |ss[1..]| && x in ss[1..][i];
        assert x in ss[i + 1];
      }
    }
    forall x, i | 0 <= i < |ss| && x in ss[i] ensures x in ss[0] + rest {
      if i > 0 {
        assert x in ss[1..][i - 1];
      }
    }
  }

  // ---------------------------------------------------------------------------
  // Filtering

  lemma {:induction false} FilterIsSubsequence<T(!new)>(s: seq<T>, p: T -> bool)
    ensures IsSubsequence(Filter(s, p), s)
  {
    if s != [] {
      FilterIsSubsequence(s[1..], p);
      if p(s[0]) {
        assert Filter(s, p)[1..] == Filter(s[1..], p);
      } else {
        assert Filter(s, p) == Filter(s[1..], p);
        SubsequenceOfTail(Filter(s[1..], p), s);
      }
    }
  }

  /** Keeping exactly the elements the predicate keeps gives back the sequence. */
  lemma {:induction false} FilterAll<T(!new)>(s: seq<T>, p: T -> bool)
    requires forall k :: 0 <= k < |s| ==> p(s[k])
    ensures Filter(s, p) == s
  {
    if s != [] {
      FilterAll(s[1..], p);
    }
  }

  /** Each kept value occurs as often as in the input, and each dropped value not at all. */
  lemma {:induction false} FilterMultiset<T(!new)>(s: seq<T>, p: T -> bool)
    ensures forall x :: multiset(Filter(s, p))[x] == if p(x) then multiset(s)[x] else 0
  {
    if s != [] {
      FilterMultiset(s[1..], p);
      assert s == [s[0]] + s[1..];
      assert multiset(s) == multiset{s[0]} + multiset(s[1..]);
    }
  }

  /** A predicate that keeps no element gives the empty sequence. */
  lemma {:induction false} FilterNone<T(!new)>(s: seq<T>, p: T -> bool)
    requires forall k :: 0 <= k < |s| ==> !p(s[k])
    ensures Filter(s, p) == []
  {
    if s != [] {
      FilterNone(s[1..], p);
    }
  }

  /** Two filters can be applied in either order. */
  lemma {:induction false} FilterCommutes<T(!new)>(s: seq<T>, p: T -> bool, q: T -> bool)
    ensures Filter(Filter(s, p), q) == Filter(Filter(s, q), p)
  {
    if s != [] {
      FilterCommutes(s[1..], p, q);
      FilterOfConcat([s[0]], Filter(s[1..], p), q);
      FilterOfConcat([s[0]], Filter(s[1..], q), p);
      FilterOfConcat([], Filter(s[1..], p), q);
      FilterOfConcat([], Filter(s[1..], q), p);
    }
  }

  lemma {:induction false} FilterOfConcat<T(!new)>(a: seq<T>, b: seq<T>, p: T -> bool)
    ensures Filter(a + b, p) == Filter(a, p) + Filter(b, p)
  {
    if a != [] {
      assert (a + b)[1..] == a[1..] + b;
      FilterOfConcat(a[1..], b, p);
    } else {
      assert a + b == b;
    }
  }

  /** Filtering the same way twice changes nothing the first time did not. */
  lemma {:induction false} FilterIdempotent<T(!new)>(s: seq<T>, p: T -> bool)
    ensures Filter(Filter(s, p), p) == Filter(s, p)
  {
    if s != [] {
      FilterIdempotent(s[1..], p);
      FilterOfConcat(if p(s[0]) then [s[0]] else [], Filter(s[1..], p), p);
    }
  }

  /** Filtering keeps a subsequence a subsequence. */
  lemma {:induction false} FilterKeepsSubsequence<T(!new)>(a: seq<T>, b: seq<T>, p: T -> bool)
    requires IsSubsequence(a, b)
    ensures IsSubsequence(Filter(a, p), Filter(b, p))
    decreases |b|
  {
    if a == [] {
    } else if a[0] == b[0] {
      FilterKeepsSubsequence(a[1..], b[1..], p);
      if p(b[0]) {
        assert Filter(a, p)[0] == Filter(b, p)[0];
        assert Filter(a, p)[1..] == Filter(a[1..], p);
        assert Filter(b, p)[1..] == Filter(b[1..], p);
      } else {
        assert Filter(a, p) == Filter(a[1..], p);
        assert Filter(b, p) == Filter(b[1..], p);
      }
    } else {
      FilterKeepsSubsequence(a, b[1..], p);
      if p(b[0]) {
        assert Filter(b, p)[1..] == Filter(b[1..], p);
        SubsequenceOfTail(Filter(a, p), Filter(b, p));
      } else {
        assert Filter(b, p) == Filter(b[1..], p);
      }
    }
  }

  // ---------------------------------------------------------------------------
  // Subsequences

  lemma {:induction false} SubsequenceReflexive<T>(s: seq<T>)
    ensures IsSubsequence(s, s)
  {
    if s != [] {
      SubsequenceReflexive(s[1..]);
    }
  }

  /** A subsequence of the tail is a subsequence of the whole. */
  lemma {:induction false} SubsequenceOfTail<T>(a: seq<T>, b: seq<T>)
    requires b != [] && IsSubsequence(a, b[1..])
    ensures IsSubsequence(a, b)
    decreases |b|, 0
  {
    if a != [] && a[0] == b[0] {
      DropHeadOfSubsequence(a, b[1..]);
    }
  }

  lemma {:induction false} DropHeadOfSubsequence<T>(a: seq<T>, b: seq<T>)
    requires a != [] && IsSubsequence(a, b)
    ensures IsSubsequence(a[1..], b)
    decreases |b|, 1
  {
    if a[0] == b[0] {
      if a[1..] != [] {
        SubsequenceOfTail(a[1..], b);
      }
    } else {
      DropHeadOfSubsequence(a, b[1..]);
      if a[1..] != [] {
        SubsequenceOfTail(a[1..], b);
      }
    }
  }

  lemma {:induction false} SubsequenceTransitive<T>(a: seq<T>, b: seq<T>, c: seq<T>)
    requires IsSubsequence(a, b) && IsSubsequence(b, c)
    ensures IsSubsequence(a, c)
    decreases |c|
  {
    if a == [] {
    } else if b[0] == c[0] {
      if a[0] == b[0] {
        SubsequenceTransitive(a[1..], b[1..], c[1..]);
      } else {
        SubsequenceTransitive(a, b[1..], c[1..]);
        SubsequenceOfTail(a, c);
      }
    } else {
      SubsequenceTransitive(a, b, c[1..]);
      SubsequenceOfTail(a, c);
    }
  }

  /** Every element of a subsequence is an element of the whole. */
  lemma {:induction false} SubsequenceMembers<T>(a: seq<T>, b: seq<T>)
    requires IsSubsequence(a, b)
    ensures forall x :: x in a ==> x in b
    decreases |b|
  {
    if a != [] {
      if a[0] == b[0] {
        SubsequenceMembers(a[1..], b[1..]);
        assert forall x :: x in a ==> x == a[0] || x in a[1..];
      } else {
        SubsequenceMembers(a, b[1..]);
      }
    }
  }

  // ---------------------------------------------------------------------------
  // Sorting. `Sort(s, le)` is the stable sort `[...s].sort(cmp)` for the comparator
  // whose "not after" relation is `le`: each element is inserted before the first
  // element it is not after.

  ghost predicate TotalPreorder<T(!new)>(le: (T, T) -> bool) {
    && (forall a, b :: le(a, b) || le(b, a))
    && (forall a, b, c :: le(a, b) && le(b, c) ==> le(a, c))
  }

  predicate SortedBy<T>(s: seq<T>, le: (T, T) -> bool) {
    forall i, j :: 0 <= i < j < |s| ==> le(s[i], s[j])
  }

  function Insert<T>(x: T, s: seq<T>, le: (T, T) -> bool): (r: seq<T>)
    ensures multiset(r) == multiset(s) + multiset{x}
  {
    if s == [] then [x]
    else if le(x, s[0]) then [x] + s
    else
      assert s == [s[0]] + s[1..];
      [s[0]] + Insert(x, s[1..], le)
  }

  function Sort<T>(s: seq<T>, le: (T, T) -> bool): (r: seq<T>)
    ensures multiset(r) == multiset(s)
  {
    if s == [] then []
    else
      assert s == [s[0]] + s[1..];
      Insert(s[0], Sort(s[1..], le), le)
  }

  lemma {:induction false} InsertSorted<T(!new)>(x: T, s: seq<T>, le: (T, T) -> bool)
    requires TotalPreorder(le) && SortedBy(s, le)
    ensures SortedBy(Insert(x, s, le), le)
  {
    if s != [] && !le(x, s[0]) {
      InsertSorted(x, s[1..], le);
      var r := Insert(x, s[1..], le);
      forall k | 0 <= k < |r| ensures le(s[0], r[k]) {
        assert r[k] in multiset(r);
        assert r[k] in multiset(s[1..]) + multiset{x};
        if r[k] != x {
          assert r[k] in s[1..];
        }
      }
    }
  }

  /** The sort's result is ordered by `le`. */
  lemma {:induction false} SortIsSorted<T(!new)>(s: seq<T>, le: (T, T) -> bool)
    requires TotalPreorder(le)
    ensures SortedBy(Sort(s, le), le)
  {
    if s != [] {
      SortIsSorted(s[1..], le);
      InsertSorted(s[0], Sort(s[1..], le), le);
    }
  }

  /** The values `le` ranks level with `x`. */
  function Ties<T>(le: (T, T) -> bool, x: T): T -> bool {
    (y: T) => le(x, y) && le(y, x)
  }

  /** Inserting `y` puts it before every value it ties with, so among the
      values level with `x` it comes first. */
  lemma {:induction false} InsertBeforeTies<T(!new)>(y: T, r: seq<T>, le: (T, T) -> bool, x: T)
    requires TotalPreorder(le)
    ensures Filter(Insert(y, r, le), Ties(le, x)) ==
      (if Ties(le, x)(y) then [y] else []) + Filter(r, Ties(le, x))
  {
    var p := Ties(le, x);
    if r == [] {
      assert [y][1..] == [];
    } else if le(y, r[0]) {
      assert ([y] + r)[1..] == r;
    } else {
      var t := Insert(y, r[1..], le);
      InsertBeforeTies(y, r[1..], le, x);
      assert ([r[0]] + t)[1..] == t;
      var first: seq<T> := if p(r[0]) then [r[0]] else [];
      var inserted: seq<T> := if p(y) then [y] else [];
      var rest := Filter(r[1..], p);
      assert Filter(r, p) == first + rest;
      assert Filter([r[0]] + t, p) == first + (inserted + rest);
      // `y` sorts strictly after `r[0]`, so the two cannot both tie with `x`.
      var head := r[0];
      assert le(y, x) && le(x, head) ==> le(y, head);
      SwapPastEmpty(first, inserted, rest);
    }
  }

  lemma SwapPastEmpty<T>(a: seq<T>, b: seq<T>, rest: seq<T>)
    requires a == [] || b == []
    ensures a + (b + rest) == b + (a + rest)
  {
  }

  /** The sort is stable: the values level with any `x` keep their input order. */
  lemma {:induction false} SortIsStable<T(!new)>(s: seq<T>, le: (T, T) -> bool, x: T)
    requires TotalPreorder(le)
    ensures Filter(Sort(s, le), Ties(le, x)) == Filter(s, Ties(le, x))
  {
    if s != [] {
      SortIsStable(s[1..], le, x);
      InsertBeforeTies(s[0], Sort(s[1..], le), le, x);
    }
  }

  /** An element of a sequence without duplicates occurs in it once. */
  lemma {:induction false} NoDuplicatesCount<T>(s: seq<T>, x: T)
    requires NoDuplicates(s)
    ensures multiset(s)[x] <= 1
  {
    if s != [] {
      assert s == [s[0]] + s[1..];
      NoDuplicatesCount(s[1..], x);
      if x == s[0] {
        assert x !in s[1..];
      }
    }
  }

  /** A reordering of a sequence without duplicates has none either. */
  lemma PermutationKeepsNoDuplicates<T>(a: seq<T>, b: seq<T>)
    requires multiset(a) == multiset(b) && NoDuplicates(a)
    ensures NoDuplicates(b)
  {
    forall i, j | 0 <= i < j < |b| ensures b[i] != b[j] {
      assert b == b[..j] + [b[j]] + b[j + 1..];
      NoDuplicatesCount(a, b[j]);
      assert multiset(b)[b[j]] >= multiset(b[..j])[b[j]] + 1;
      assert b[i] in multiset(b[..j]);
    }
  }
}
