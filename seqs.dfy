/** Sequence reductions behind the list comprehensions, `len` and `sum`
    calls of model.py. */
module Seqs {

  /** `r` is `s` with some elements dropped, the rest kept in their order. */
  ghost predicate IsSubsequence<T(!new)>(r: seq<T>, s: seq<T>)
    decreases |s|
  {
    if r == [] then true
    else if s == [] then false
    else (r[0] == s[0] && IsSubsequence(r[1..], s[1..])) || IsSubsequence(r, s[1..])
  }

  lemma {:induction false} SubsequenceRefl<T(!new)>(s: seq<T>)
    ensures IsSubsequence(s, s)
    decreases |s|
  {
    if s != [] {
      SubsequenceRefl(s[1..]);
    }
  }

  lemma {:induction false} SubsequenceTrans<T(!new)>(a: seq<T>, b: seq<T>, c: seq<T>)
    requires IsSubsequence(a, b) && IsSubsequence(b, c)
    ensures IsSubsequence(a, c)
    decreases |c|
  {
    if a != [] {
      assert b != [] && c != [];
      if b[0] == c[0] && IsSubsequence(b[1..], c[1..]) {
        if a[0] == b[0] && IsSubsequence(a[1..], b[1..]) {
          SubsequenceTrans(a[1..], b[1..], c[1..]);
        } else {
          SubsequenceTrans(a, b[1..], c[1..]);
        }
      } else {
        SubsequenceTrans(a, b, c[1..]);
      }
    }
  }

  /** The list comprehension `[x for x in s if p(x)]`. */
  function Filter<T(!new)>(s: seq<T>, p: T -> bool): (r: seq<T>)
    ensures |r| <= |s|
    ensures IsSubsequence(r, s)
    ensures forall x :: x in r <==> x in s && p(x)
    decreases |s|
  {
    if s == [] then []
    else
      assert s == [s[0]] + s[1..];
      var rest := Filter(s[1..], p);
      if p(s[0]) then
        assert ([s[0]] + rest)[1..] == rest;
        [s[0]] + rest
      else rest
  }

  /** A filter keeps every passing element as often as the sequence holds it,
      and no other. */
  lemma {:induction false} FilterMultiset<T(!new)>(s: seq<T>, p: T -> bool)
    ensures forall x :: multiset(Filter(s, p))[x] == if p(x) then multiset(s)[x] else 0
    decreases |s|
  {
    if s != [] {
      FilterMultiset(s[1..], p);
      assert s == [s[0]] + s[1..];
    }
  }

  /** Filtering a concatenation filters each part. */
  lemma {:induction false} FilterAppend<T(!new)>(a: seq<T>, b: seq<T>, p: T -> bool)
    ensures Filter(a + b, p) == Filter(a, p) + Filter(b, p)
    decreases |a|
  {
    if a == [] {
      assert a + b == b;
    } else {
      var c := a + b;
      assert c != [] && c[0] == a[0] && c[1..] == a[1..] + b;
      FilterAppend(a[1..], b, p);
      if p(a[0]) {
        calc {
          Filter(c, p);
          [a[0]] + Filter(a[1..] + b, p);
          [a[0]] + (Filter(a[1..], p) + Filter(b, p));
          ([a[0]] + Filter(a[1..], p)) + Filter(b, p);
        }
      } else {
        calc {
          Filter(c, p);
          Filter(a[1..] + b, p);
        }
      }
    }
  }

  /** Filters by two tests that no element passes together pick at most |s| elements. */
  lemma {:induction false} FilterDisjoint<T(!new)>(s: seq<T>, p: T -> bool, q: T -> bool)
    requires forall x :: x in s ==> !(p(x) && q(x))
    ensures |Filter(s, p)| + |Filter(s, q)| <= |s|
    decreases |s|
  {
    if s != [] {
      FilterDisjoint(s[1..], p, q);
    }
  }

  /** Filters by three tests no two of which an element passes together pick
      at most |s| elements between them. */
  lemma {:induction false} FilterDisjoint3<T(!new)>(s: seq<T>, p1: T -> bool, p2: T -> bool, p3: T -> bool)
    requires forall x :: x in s ==> !(p1(x) && p2(x)) && !(p1(x) && p3(x)) && !(p2(x) && p3(x))
    ensures |Filter(s, p1)| + |Filter(s, p2)| + |Filter(s, p3)| <= |s|
    decreases |s|
  {
    if s != [] {
      FilterDisjoint3(s[1..], p1, p2, p3);
    }
  }

  /** When every element passes exactly one of three tests, the three filters
      split the sequence: their lengths add up to its length. */
  lemma {:induction false} FilterPartition3<T(!new)>(s: seq<T>, p1: T -> bool, p2: T -> bool, p3: T -> bool)
    requires forall x :: x in s ==> (p1(x) || p2(x) || p3(x))
    requires forall x :: x in s ==> !(p1(x) && p2(x)) && !(p1(x) && p3(x)) && !(p2(x) && p3(x))
    ensures |Filter(s, p1)| + |Filter(s, p2)| + |Filter(s, p3)| == |s|
    decreases |s|
  {
    if s != [] {
      FilterPartition3(s[1..], p1, p2, p3);
    }
  }

  /** `sum(f(x) for x in s)`. */
  function Sum<T(!new)>(s: seq<T>, f: T -> int): (r: int)
    decreases |s|
  {
    if s == [] then 0 else f(s[0]) + Sum(s[1..], f)
  }

  /** A sum of bounded terms is bounded by the count times the bounds. */
  lemma {:induction false} SumBounds<T(!new)>(s: seq<T>, f: T -> int, lo: int, hi: int)
    requires forall x :: x in s ==> lo <= f(x) <= hi
    ensures lo * |s| <= Sum(s, f) <= hi * |s|
    decreases |s|
  {
    if s != [] {
      SumBounds(s[1..], f, lo, hi);
      assert lo * |s| == lo + lo * |s[1..]|;
      assert hi * |s| == hi + hi * |s[1..]|;
    }
  }

  /** A sum of non-negative terms is non-negative. */
  lemma {:induction false} SumNonNegative<T(!new)>(s: seq<T>, f: T -> int)
    ensures (forall x :: x in s ==> f(x) >= 0) ==> Sum(s, f) >= 0
    decreases |s|
  {
    if s != [] {
      SumNonNegative(s[1..], f);
    }
  }

  /** The sums over three filters that split the sequence add up to the sum
      over the whole sequence. */
  lemma {:induction false} SumPartition3<T(!new)>(s: seq<T>, f: T -> int, p1: T -> bool, p2: T -> bool, p3: T -> bool)
    requires forall x :: x in s ==> (p1(x) || p2(x) || p3(x))
    requires forall x :: x in s ==> !(p1(x) && p2(x)) && !(p1(x) && p3(x)) && !(p2(x) && p3(x))
    ensures Sum(Filter(s, p1), f) + Sum(Filter(s, p2), f) + Sum(Filter(s, p3), f) == Sum(s, f)
    decreases |s|
  {
    if s != [] {
      SumPartition3(s[1..], f, p1, p2, p3);
      SumCons(s[0], Filter(s[1..], p1), f);
      SumCons(s[0], Filter(s[1..], p2), f);
      SumCons(s[0], Filter(s[1..], p3), f);
    }
  }

  lemma SumCons<T(!new)>(x: T, s: seq<T>, f: T -> int)
    ensures Sum([x] + s, f) == f(x) + Sum(s, f)
  {
    assert ([x] + s)[1..] == s;
  }

  /** One step of a filter, from position i. */
  lemma FilterStep<T(!new)>(s: seq<T>, p: T -> bool, i: int)
    requires 0 <= i < |s|
    ensures Filter(s[i..], p) == (if p(s[i]) then [s[i]] else []) + Filter(s[i + 1..], p)
  {
    assert s[i..][1..] == s[i + 1..];
  }

  /** One step of a sum over a filter, from position i. */
  lemma SumFilterStep<T(!new)>(s: seq<T>, p: T -> bool, f: T -> int, i: int)
    requires 0 <= i < |s|
    ensures Sum(Filter(s[i..], p), f) == (if p(s[i]) then f(s[i]) else 0) + Sum(Filter(s[i + 1..], p), f)
  {
    FilterStep(s, p, i);
    if p(s[i]) {
      SumCons(s[i], Filter(s[i + 1..], p), f);
    }
  }
}
