/** Sequence helpers: the filters, sums and sorts that the dashboard frames and the
    app's lists are built from. */
module Seqs {

  // ---------------------------------------------------------------------------
  // Filtering (a boolean mask over a frame, Array.prototype.filter)

  /** The elements of s that satisfy p, in the order of s. */
  function Filter<T>(s: seq<T>, p: T -> bool): (r: seq<T>)
    ensures |r| <= |s|
    ensures forall i :: 0 <= i < |r| ==> r[i] in s && p(r[i])
    ensures forall i :: 0 <= i < |s| && p(s[i]) ==> s[i] in r
  {
    if s == [] then [] else (if p(s[0]) then [s[0]] else []) + Filter(s[1..], p)
  }

  lemma {:induction false} FilterConcat<T>(a: seq<T>, b: seq<T>, p: T -> bool)
    ensures Filter(a + b, p) == Filter(a, p) + Filter(b, p)
  {
    if a != [] {
      assert (a + b)[0] == a[0] && (a + b)[1..] == a[1..] + b;
      FilterConcat(a[1..], b, p);
    } else {
      assert a + b == b;
    }
  }

  /** A filter every element passes keeps the whole sequence. */
  lemma {:induction false} FilterAll<T>(s: seq<T>, p: T -> bool)
    requires forall i :: 0 <= i < |s| ==> p(s[i])
    ensures Filter(s, p) == s
  {
    if s != [] {
      FilterAll(s[1..], p);
      assert s == [s[0]] + s[1..];
    }
  }

  /** A filter with no survivors is exactly a sequence where nothing satisfies p. */
  lemma FilterEmptyIff<T>(s: seq<T>, p: T -> bool)
    ensures Filter(s, p) == [] <==> forall i :: 0 <= i < |s| ==> !p(s[i])
  {
    if Filter(s, p) == [] {
      forall i | 0 <= i < |s| ensures !p(s[i]) {
        assert s[i] in s;
      }
    } else {
      assert Filter(s, p)[0] in Filter(s, p);
    }
  }

  /** Filtering with a weaker predicate keeps at least as many elements. */
  lemma {:induction false} FilterLengthMonotone<T>(s: seq<T>, p: T -> bool, q: T -> bool)
    requires forall x :: p(x) ==> q(x)
    ensures |Filter(s, p)| <= |Filter(s, q)|
  {
    if s != [] {
      FilterLengthMonotone(s[1..], p, q);
    }
  }

  /** Two disjoint predicates split the count of their union. */
  lemma {:induction false} FilterLengthSplit<T>(s: seq<T>, p: T -> bool, q: T -> bool, u: T -> bool)
    requires forall x :: u(x) <==> p(x) || q(x)
    requires forall x :: !(p(x) && q(x))
    ensures |Filter(s, u)| == |Filter(s, p)| + |Filter(s, q)|
  {
    if s != [] {
      FilterLengthSplit(s[1..], p, q, u);
    }
  }

  /** Filtering with equivalent predicates gives the same result. */
  lemma {:induction false} FilterSamePredicate<T>(s: seq<T>, p: T -> bool, q: T -> bool)
    requires forall x :: p(x) <==> q(x)
    ensures Filter(s, p) == Filter(s, q)
  {
    if s != [] {
      FilterSamePredicate(s[1..], p, q);
    }
  }

  /** a is obtained from b by deleting elements: the order of b is kept. */
  ghost predicate IsSubsequence<T>(a: seq<T>, b: seq<T>)
    decreases |b|
  {
    a == [] || (b != [] && ((a[0] == b[0] && IsSubsequence(a[1..], b[1..])) || IsSubsequence(a, b[1..])))
  }

  lemma {:induction false} FilterIsSubsequence<T>(s: seq<T>, p: T -> bool)
    ensures IsSubsequence(Filter(s, p), s)
  {
    if s != [] {
      FilterIsSubsequence(s[1..], p);
      if p(s[0]) {
        assert Filter(s, p) == [s[0]] + Filter(s[1..], p);
      } else {
        assert Filter(s, p) == Filter(s[1..], p);
      }
    }
  }

  // ---------------------------------------------------------------------------
  // Sums (a column's .sum())

  function Sum<T>(s: seq<T>, f: T -> int): int {
    if s == [] then 0 else f(s[0]) + Sum(s[1..], f)
  }

  lemma {:induction false} SumConcat<T>(a: seq<T>, b: seq<T>, f: T -> int)
    ensures Sum(a + b, f) == Sum(a, f) + Sum(b, f)
  {
    if a != [] {
      assert (a + b)[0] == a[0] && (a + b)[1..] == a[1..] + b;
      SumConcat(a[1..], b, f);
    } else {
      assert a + b == b;
    }
  }

  /** Sum of a sequence of integers. */
  function SumInts(s: seq<int>): int {
    if s == [] then 0 else s[0] + SumInts(s[1..])
  }

  /** Concatenation of a sequence of sequences (pandas.concat of frames). */
  function Flatten<T>(ss: seq<seq<T>>): (r: seq<T>)
    ensures |r| == SumInts(seq(|ss|, i requires 0 <= i < |ss| => |ss[i]|))
  {
    if ss == [] then []
    else
      var lens := seq(|ss|, i requires 0 <= i < |ss| => |ss[i]|);
      assert lens[1..] == seq(|ss| - 1, i requires 0 <= i < |ss| - 1 => |ss[1..][i]|);
      ss[0] + Flatten(ss[1..])
  }

  /** Filtering a concatenation of sequences keeps, in total, what filtering each keeps. */
  lemma {:induction false} FilterFlattenLength<T>(ss: seq<seq<T>>, p: T -> bool)
    ensures |Filter(Flatten(ss), p)| == SumInts(seq(|ss|, i requires 0 <= i < |ss| => |Filter(ss[i], p)|))
  {
    if ss != [] {
      FilterConcat(ss[0], Flatten(ss[1..]), p);
      FilterFlattenLength(ss[1..], p);
      var a := seq(|ss|, i requires 0 <= i < |ss| => |Filter(ss[i], p)|);
      assert a[1..] == seq(|ss| - 1, i requires 0 <= i < |ss| - 1 => |Filter(ss[1..][i], p)|);
    }
  }

  // ---------------------------------------------------------------------------
  // Sorting (Array.prototype.sort with a comparator, stable)

  ghost predicate TotalPreorder<T(!new)>(le: (T, T) -> bool) {
    && (forall x, y :: le(x, y) || le(y, x))
    && (forall x, y, z :: le(x, y) && le(y, z) ==> le(x, z))
  }

  ghost predicate SortedBy<T>(s: seq<T>, le: (T, T) -> bool) {
    forall i, j :: 0 <= i < j < |s| ==> le(s[i], s[j])
  }

  /** Inserts x before the first element it is not after. */
  function InsertBy<T>(x: T, s: seq<T>, le: (T, T) -> bool): seq<T> {
    if s == [] then [x]
    else if le(x, s[0]) then [x] + s
    else [s[0]] + InsertBy(x, s[1..], le)
  }

  /** Insertion sort; equal elements keep their relative order. */
  function SortBy<T>(s: seq<T>, le: (T, T) -> bool): seq<T> {
    if s == [] then []
    else InsertBy(s[0], SortBy(s[1..], le), le)
  }

  /** Inserting adds exactly the one element. */
  lemma {:induction false} InsertByPermutation<T>(x: T, s: seq<T>, le: (T, T) -> bool)
    ensures multiset(InsertBy(x, s, le)) == multiset(s) + multiset{x}
  {
    if s != [] && !le(x, s[0]) {
      assert s == [s[0]] + s[1..];
      InsertByPermutation(x, s[1..], le);
    }
  }

  /** Sorting is a permutation. */
  lemma {:induction false} SortByPermutation<T>(s: seq<T>, le: (T, T) -> bool)
    ensures multiset(SortBy(s, le)) == multiset(s)
    ensures |SortBy(s, le)| == |s|
  {
    if s != [] {
      assert s == [s[0]] + s[1..];
      SortByPermutation(s[1..], le);
      InsertByPermutation(s[0], SortBy(s[1..], le), le);
    }
  }

  lemma {:induction false} InsertBySorted<T(!new)>(x: T, s: seq<T>, le: (T, T) -> bool)
    requires TotalPreorder(le) && SortedBy(s, le)
    ensures SortedBy(InsertBy(x, s, le), le)
  {
    if s != [] && !le(x, s[0]) {
      InsertBySorted(x, s[1..], le);
      var t := InsertBy(x, s[1..], le);
      InsertByPermutation(x, s[1..], le);
      forall y | y in t ensures le(s[0], y) {
        assert y in multiset(t);
        if y != x {
          assert y in multiset(s[1..]);
          var k :| 0 <= k < |s[1..]| && s[1..][k] == y;
          assert s[k + 1] == y;
        }
      }
      forall i, j | 0 <= i < j < |[s[0]] + t| ensures le(([s[0]] + t)[i], ([s[0]] + t)[j]) {
        if i == 0 {
          assert t[j - 1] in t;
        }
      }
    }
  }

  lemma {:induction false} SortBySorted<T(!new)>(s: seq<T>, le: (T, T) -> bool)
    requires TotalPreorder(le)
    ensures SortedBy(SortBy(s, le), le)
  {
    if s != [] {
      SortBySorted(s[1..], le);
      InsertBySorted(s[0], SortBy(s[1..], le), le);
    }
  }

  /** Sorting a sequence whose elements are distinct keeps them distinct. */
  lemma SortByDistinct<T>(s: seq<T>, le: (T, T) -> bool)
    requires forall i, j :: 0 <= i < j < |s| ==> s[i] != s[j]
    ensures forall i, j :: 0 <= i < j < |SortBy(s, le)| ==> SortBy(s, le)[i] != SortBy(s, le)[j]
  {
    var r := SortBy(s, le);
    SortByPermutation(s, le);
    forall x | x in multiset(s) ensures multiset(s)[x] == 1 {
      DistinctCount(s, x);
    }
    forall i, j | 0 <= i < j < |r| ensures r[i] != r[j] {
      RepeatedTwice(r, i, j);
      assert r[i] in multiset(s);
    }
  }

  lemma RepeatedTwice<T>(r: seq<T>, i: nat, j: nat)
    requires i < j < |r|
    ensures r[i] == r[j] ==> multiset(r)[r[i]] >= 2
  {
    assert r == r[..i] + [r[i]] + r[i + 1..j] + [r[j]] + r[j + 1..];
  }

  lemma {:induction false} DistinctCount<T>(s: seq<T>, x: T)
    requires forall i, j :: 0 <= i < j < |s| ==> s[i] != s[j]
    requires x in s
    ensures multiset(s)[x] == 1
  {
    assert s == [s[0]] + s[1..];
    if s[0] == x {
      assert x !in s[1..];
    } else {
      DistinctCount(s[1..], x);
    }
  }
}
