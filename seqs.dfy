/**
 * The JavaScript array operations the admin screens and the server's listing
 * endpoints are built from: `filter`, `find`/`findIndex`, `reduce` with `+`,
 * a stable `sort` by a numeric key in non-increasing order, `slice(0, n)`,
 * and `Math.round` of an average.
 */
module Seqs {

  /** Array filtering: the elements satisfying `p`, in their original order. */
  function Filter<T(!new)>(s: seq<T>, p: T -> bool): (r: seq<T>)
    ensures |r| <= |s|
    ensures forall x :: x in r <==> x in s && p(x)
    ensures forall x :: multiset(r)[x] == if p(x) then multiset(s)[x] else 0
  {
    if s == [] then []
    else
      assert s == [s[0]] + s[1..];
      (if p(s[0]) then [s[0]] else []) + Filter(s[1..], p)
  }

  /** Filtering commutes with concatenation, so the kept elements stay in order. */
  lemma {:induction false} FilterAppend<T(!new)>(s: seq<T>, t: seq<T>, p: T -> bool)
    ensures Filter(s + t, p) == Filter(s, p) + Filter(t, p)
  {
    if s == [] {
      assert s + t == t;
    } else {
      var head := if p(s[0]) then [s[0]] else [];
      assert (s + t)[0] == s[0];
      assert (s + t)[1..] == s[1..] + t;
      calc {
        Filter(s + t, p);
        head + Filter(s[1..] + t, p);
        { FilterAppend(s[1..], t, p); }
        head + (Filter(s[1..], p) + Filter(t, p));
        (head + Filter(s[1..], p)) + Filter(t, p);
        Filter(s, p) + Filter(t, p);
      }
    }
  }

  /** A filter whose predicate holds everywhere keeps the whole sequence. */
  lemma {:induction false} FilterAll<T(!new)>(s: seq<T>, p: T -> bool)
    requires forall i :: 0 <= i < |s| ==> p(s[i])
    ensures Filter(s, p) == s
  {
    if s != [] {
      FilterAll(s[1..], p);
    }
  }

  /**
   * How many elements a filter keeps: all of them when the predicate holds
   * everywhere, and at least one exactly when some element satisfies it.
   */
  lemma FilterCount<T(!new)>(s: seq<T>, p: T -> bool)
    ensures (forall x :: x in s ==> p(x)) ==> |Filter(s, p)| == |s|
    ensures (exists x :: x in s && p(x)) <==> |Filter(s, p)| > 0
  {
    if forall x :: x in s ==> p(x) {
      FilterAll(s, p);
    }
    if exists x :: x in s && p(x) {
      var x :| x in s && p(x);
      assert x in Filter(s, p);
    }
  }

  /** The position of the first element satisfying `p`, with `|s|` standing for "not found". */
  function IndexWhere<T>(s: seq<T>, p: T -> bool): (i: nat)
    ensures i <= |s|
    ensures i < |s| ==> p(s[i])
    ensures forall j :: 0 <= j < i ==> !p(s[j])
  {
    if s == [] then 0
    else if p(s[0]) then 0
    else 1 + IndexWhere(s[1..], p)
  }

  /** A position is the one `IndexWhere` finds when `p` holds there and nowhere before it. */
  lemma IndexWhereIs<T>(s: seq<T>, p: T -> bool, k: nat)
    requires k <= |s| && (k < |s| ==> p(s[k]))
    requires forall j :: 0 <= j < k ==> !p(s[j])
    ensures IndexWhere(s, p) == k
  {
  }

  /** The sum of `f` over the elements, as an array reduction from 0 computes it. */
  function SumBy<T>(s: seq<T>, f: T -> int): int
  {
    if s == [] then 0 else f(s[0]) + SumBy(s[1..], f)
  }

  /** The sum of a concatenation is the sum of the parts. */
  lemma {:induction false} SumByAppend<T>(s: seq<T>, t: seq<T>, f: T -> int)
    ensures SumBy(s + t, f) == SumBy(s, f) + SumBy(t, f)
  {
    if s == [] {
      assert s + t == t;
    } else {
      assert (s + t)[0] == s[0];
      assert (s + t)[1..] == s[1..] + t;
      SumByAppend(s[1..], t, f);
    }
  }

  /**
   * A sum of non-negative terms is non-negative and at least each of its
   * terms.
   */
  lemma {:induction false} SumByNonNegative<T>(s: seq<T>, f: T -> int)
    ensures (forall i :: 0 <= i < |s| ==> f(s[i]) >= 0) ==>
              SumBy(s, f) >= 0 && forall i :: 0 <= i < |s| ==> f(s[i]) <= SumBy(s, f)
  {
    if s != [] && forall i :: 0 <= i < |s| ==> f(s[i]) >= 0 {
      assert forall i :: 1 <= i < |s| ==> s[1..][i - 1] == s[i];
      SumByNonNegative(s[1..], f);
    }
  }

  /** Summing only the kept elements is the same as summing those the filter picks. */
  lemma {:induction false} SumByFilterAppend<T(!new)>(s: seq<T>, x: T, p: T -> bool, f: T -> int)
    ensures SumBy(Filter(s + [x], p), f) == SumBy(Filter(s, p), f) + (if p(x) then f(x) else 0)
  {
    FilterAppend(s, [x], p);
    SumByAppend(Filter(s, p), Filter([x], p), f);
  }

  /** `s` is in non-increasing order of `key`. */
  ghost predicate SortedDesc<T>(s: seq<T>, key: T -> int)
  {
    forall i, j :: 0 <= i < j < |s| ==> key(s[i]) >= key(s[j])
  }

  /**
   * Inserts `x` into a sorted sequence, ahead of the first element whose key
   * is not larger, so that `x` precedes the elements it ties with.
   */
  function Insert<T>(x: T, s: seq<T>, key: T -> int): (r: seq<T>)
    requires SortedDesc(s, key)
    ensures |r| == |s| + 1
    ensures r[0] == x || (|s| > 0 && r[0] == s[0])
    ensures SortedDesc(r, key)
    ensures multiset(r) == multiset(s) + multiset{x}
  {
    if s == [] || key(s[0]) <= key(x) then
      [x] + s
    else
      var rest := Insert(x, s[1..], key);
      var r := [s[0]] + rest;
      assert SortedDesc(r, key) by {
        forall i, j | 0 <= i < j < |r| ensures key(r[i]) >= key(r[j]) {
          assert r[j] == rest[j - 1];
          if i == 0 {
            assert key(s[0]) >= key(rest[0]);
          } else {
            assert r[i] == rest[i - 1];
          }
        }
      }
      assert multiset(r) == multiset(s) + multiset{x} by {
        assert s == [s[0]] + s[1..];
      }
      r
  }

  /**
   * Sorting by a comparator that subtracts keys: ECMAScript's stable sort into
   * non-increasing key order (elements with equal keys keep their order).
   */
  function SortDesc<T>(s: seq<T>, key: T -> int): (r: seq<T>)
    ensures SortedDesc(r, key)
    ensures multiset(r) == multiset(s)
    ensures |r| == |s|
  {
    if s == [] then []
    else
      assert s == [s[0]] + s[1..];
      Insert(s[0], SortDesc(s[1..], key), key)
  }

  /** The first `n` elements, or all of them when there are fewer. */
  function Take<T>(s: seq<T>, n: nat): (r: seq<T>)
    ensures |r| == if n < |s| then n else |s|
    ensures r <= s
    ensures multiset(r) <= multiset(s)
  {
    if n < |s| then
      assert s == s[..n] + s[n..];
      s[..n]
    else s
  }

  /**
   * The first `n` of a sorted sequence are its largest: every element left
   * out has a key no larger than any element taken.
   */
  lemma TopOfSorted<T>(s: seq<T>, n: nat, key: T -> int)
    requires SortedDesc(s, key)
    ensures forall i, y :: 0 <= i < |Take(s, n)| && y in multiset(s) - multiset(Take(s, n)) ==> key(y) <= key(Take(s, n)[i])
  {
    var t := Take(s, n);
    if n < |s| {
      assert s == t + s[n..];
      assert multiset(s) - multiset(t) == multiset(s[n..]);
      forall i, y | 0 <= i < |t| && y in multiset(s) - multiset(t)
        ensures key(y) <= key(t[i])
      {
        assert y in s[n..];
        var j :| n <= j < |s| && s[j] == y;
      }
    }
  }


  /**
   * The `n` elements with the largest keys, largest first: the sequence
   * sorted by descending key and cut to `n`.
   */
  function Top<T>(s: seq<T>, n: nat, key: T -> int): (r: seq<T>)
    ensures |r| == if n < |s| then n else |s|
    ensures SortedDesc(r, key)
    ensures multiset(r) <= multiset(s)
    ensures forall i, y :: 0 <= i < |r| && y in multiset(s) - multiset(r) ==> key(y) <= key(r[i])
  {
    var sorted := SortDesc(s, key);
    TopOfSorted(sorted, n, key);
    Take(sorted, n)
  }

  /**
   * `Math.round(total / n)` for `n > 0`: JavaScript rounds halves upwards,
   * so the result is `floor(total / n + 1/2)`.
   */
  function RoundedMean(total: int, n: int): (r: int)
    requires n > 0
    ensures 2 * n * r - n <= 2 * total < 2 * n * r + n
  {
    var q := (2 * total + n) / (2 * n);
    assert 2 * n * q <= 2 * total + n < 2 * n * q + 2 * n by {
      var m := (2 * total + n) % (2 * n);
      assert 2 * total + n == (2 * n) * q + m;
    }
    q
  }

  /** A product with a positive factor is non-positive only when the other factor is. */
  lemma NonPositiveFactor(n: int, x: int)
    requires n > 0 && n * x <= 0
    ensures x <= 0
  {
  }

  /** The rounded mean of values that are all at most `bound` is at most `bound`. */
  lemma RoundedMeanAtMost(total: int, n: int, bound: int)
    requires n > 0 && total <= n * bound
    ensures RoundedMean(total, n) <= bound
  {
    var r := RoundedMean(total, n);
    assert n * (2 * r - 1 - 2 * bound) == 2 * n * r - n - 2 * (n * bound);
    NonPositiveFactor(n, 2 * r - 1 - 2 * bound);
  }
}
