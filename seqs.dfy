/** Order-preserving filtering of sequences: the shape shared by the list
    comprehension over barcodes and the row filters on tables. */
module Seqs {

  /** r can be obtained from s by deleting elements, keeping the order. */
  ghost predicate IsSubsequence<T>(r: seq<T>, s: seq<T>)
    decreases |s|
  {
    if s == [] then r == []
    else IsSubsequence(r, s[1..]) || (r != [] && r[0] == s[0] && IsSubsequence(r[1..], s[1..]))
  }

  /** No element occurs twice. */
  predicate Distinct<T(==)>(s: seq<T>) {
    forall i, j :: 0 <= i < j < |s| ==> s[i] != s[j]
  }

  /** The elements of s satisfying p, in their original order. */
  function Filter<T(!new)>(s: seq<T>, p: T -> bool): (r: seq<T>)
    ensures |r| <= |s|
    ensures forall x :: x in r <==> x in s && p(x)
  {
    if s == [] then []
    else if p(s[0]) then [s[0]] + Filter(s[1..], p) else Filter(s[1..], p)
  }

  /** Filter keeps the order and every occurrence of each kept element: the result is
      a subsequence, and an element occurs in it as often as in s if p holds, else never. */
  lemma {:induction false} FilterSpec<T(!new)>(s: seq<T>, p: T -> bool)
    ensures IsSubsequence(Filter(s, p), s)
    ensures forall x :: multiset(Filter(s, p))[x] == if p(x) then multiset(s)[x] else 0
  {
    if s != [] {
      FilterSpec(s[1..], p);
      assert s == [s[0]] + s[1..];
    }
  }

  lemma {:induction false} FilterConcat<T(!new)>(a: seq<T>, b: seq<T>, p: T -> bool)
    ensures Filter(a + b, p) == Filter(a, p) + Filter(b, p)
  {
    if a != [] {
      var head: seq<T> := if p(a[0]) then [a[0]] else [];
      assert (a + b)[0] == a[0] && (a + b)[1..] == a[1..] + b;
      assert Filter(a + b, p) == head + Filter(a[1..] + b, p);
      assert Filter(a, p) == head + Filter(a[1..], p);
      FilterConcat(a[1..], b, p);
    } else {
      assert a + b == b;
    }
  }

  lemma {:induction false} FilterKeepsAll<T(!new)>(s: seq<T>, p: T -> bool)
    requires forall x :: x in s ==> p(x)
    ensures Filter(s, p) == s
  {
    if s != [] {
      FilterKeepsAll(s[1..], p);
    }
  }

  lemma FilterIdempotent<T(!new)>(s: seq<T>, p: T -> bool)
    ensures Filter(Filter(s, p), p) == Filter(s, p)
  {
    FilterKeepsAll(Filter(s, p), p);
  }

  /** Filtering by a stronger condition after a weaker one is filtering by the stronger one. */
  lemma {:induction false} FilterNarrows<T(!new)>(s: seq<T>, p: T -> bool, q: T -> bool)
    requires forall x :: p(x) ==> q(x)
    ensures Filter(Filter(s, q), p) == Filter(s, p)
  {
    if s != [] {
      FilterNarrows(s[1..], p, q);
    }
  }

  /** Filter by key commutes with projecting out that key. */
  lemma {:induction false} FilterProject<T(!new), K(!new)>(s: seq<T>, key: T -> K, p: T -> bool, q: K -> bool)
    requires forall x :: p(x) == q(key(x))
    ensures Project(Filter(s, p), key) == Filter(Project(s, key), q)
  {
    if s != [] {
      FilterProject(s[1..], key, p, q);
    }
  }

  function Project<T, K>(s: seq<T>, key: T -> K): (r: seq<K>)
    ensures |r| == |s|
    ensures forall i :: 0 <= i < |s| ==> r[i] == key(s[i])
  {
    if s == [] then [] else [key(s[0])] + Project(s[1..], key)
  }

  lemma {:induction false} FilterDistinct<T(!new)>(s: seq<T>, p: T -> bool)
    requires Distinct(s)
    ensures Distinct(Filter(s, p))
  {
    if s != [] {
      assert Distinct(s[1..]);
      FilterDistinct(s[1..], p);
      assert s[0] !in s[1..];
    }
  }

  /** The pieces laid end to end. */
  function Concat<T>(ss: seq<seq<T>>): seq<T> {
    if ss == [] then [] else ss[0] + Concat(ss[1..])
  }

  lemma {:induction false} ConcatAppend<T>(a: seq<seq<T>>, b: seq<seq<T>>)
    ensures Concat(a + b) == Concat(a) + Concat(b)
  {
    if a == [] {
      assert a + b == b;
    } else {
      assert (a + b)[1..] == a[1..] + b;
      ConcatAppend(a[1..], b);
    }
  }

  /** Piece k sits in the concatenation right after the pieces before it. */
  lemma ConcatPiece<T>(ss: seq<seq<T>>, k: nat)
    requires k < |ss|
    ensures |Concat(ss[..k])| + |ss[k]| <= |Concat(ss)|
    ensures Concat(ss)[|Concat(ss[..k])|..|Concat(ss[..k])| + |ss[k]|] == ss[k]
  {
    assert ss == ss[..k] + ([ss[k]] + ss[k + 1..]);
    ConcatAppend(ss[..k], [ss[k]] + ss[k + 1..]);
    ConcatAppend([ss[k]], ss[k + 1..]);
    assert Concat([ss[k]]) == ss[k] + Concat([]);
  }

  /** Pieces of equal lengths concatenate to sequences of equal length. */
  lemma {:induction false} ConcatSameShape<T, U>(ss: seq<seq<T>>, tt: seq<seq<U>>)
    requires |ss| == |tt|
    requires forall i :: 0 <= i < |ss| ==> |ss[i]| == |tt[i]|
    ensures |Concat(ss)| == |Concat(tt)|
  {
    if ss != [] {
      ConcatSameShape(ss[1..], tt[1..]);
    }
  }

  lemma {:induction false} SubsequenceReflexive<T>(s: seq<T>)
    ensures IsSubsequence(s, s)
  {
    if s != [] {
      SubsequenceReflexive(s[1..]);
    }
  }

  /** The set of elements of a sequence has at most as many members as the sequence,
      and exactly as many when no element repeats. */
  lemma {:induction false} ElementsCard<T>(s: seq<T>)
    ensures |set x | x in s| <= |s|
    ensures Distinct(s) ==> |set x | x in s| == |s|
  {
    if s != [] {
      ElementsCard(s[1..]);
      var tail := set x | x in s[1..];
      assert (set x | x in s) == tail + {s[0]};
      if Distinct(s) {
        assert Distinct(s[1..]);
        assert s[0] !in tail;
      }
    }
  }

  /** A repetition-free sequence whose elements all occur in s is no longer than s. */
  lemma DistinctSubsetShorter<T>(r: seq<T>, s: seq<T>)
    requires Distinct(r)
    requires forall x :: x in r ==> x in s
    ensures |r| <= |s|
  {
    ElementsCard(r);
    ElementsCard(s);
    var a := set x | x in r;
    var b := set x | x in s;
    assert a <= b;
    SubsetCard(a, b);
  }

  lemma SubsetCard<T>(a: set<T>, b: set<T>)
    requires a <= b
    ensures |a| <= |b|
  {
    assert b == a + (b - a);
  }
}
