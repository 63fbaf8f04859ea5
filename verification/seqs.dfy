/**
 * Collection queries the models share: first match (`findOne`), filter
 * (`find`), count (`countDocuments`) and sort by a comparator.
 */
module Seqs {
  import opened Wrappers
  import opened Text

  /** Index of the first element satisfying p, as `findOne` returns the first match. */
  function FindFirst<T>(xs: seq<T>, p: T -> bool): (r: Option<nat>)
    ensures r.Some? ==> r.value < |xs| && p(xs[r.value])
    ensures r.Some? ==> forall j :: 0 <= j < r.value ==> !p(xs[j])
    ensures r.None? <==> forall j :: 0 <= j < |xs| ==> !p(xs[j])
  {
    if |xs| == 0 then None
    else if p(xs[0]) then Some(0)
    else
      match FindFirst(xs[1..], p)
      case None => None
      case Some(i) => Some(i + 1)
  }

  /** The elements satisfying p, in their original order. */
  function Filter<T>(xs: seq<T>, p: T -> bool): (r: seq<T>)
    ensures |r| <= |xs|
    ensures forall i :: 0 <= i < |r| ==> p(r[i])
    ensures forall i :: 0 <= i < |r| ==> r[i] in xs
    ensures forall i :: 0 <= i < |xs| && p(xs[i]) ==> xs[i] in r
  {
    if |xs| == 0 then []
    else
      var rest := Filter(xs[1..], p);
      assert xs == [xs[0]] + xs[1..];
      if p(xs[0]) then [xs[0]] + rest else rest
  }

  /** Filtering takes each element at most as often as it occurs. */
  lemma {:induction false} FilterSubMultiset<T>(xs: seq<T>, p: T -> bool)
    ensures multiset(Filter(xs, p)) <= multiset(xs)
  {
    if |xs| > 0 {
      FilterSubMultiset(xs[1..], p);
      assert xs == [xs[0]] + xs[1..];
      ConsMultiset(xs[0], xs[1..]);
      if p(xs[0]) {
        ConsMultiset(xs[0], Filter(xs[1..], p));
      }
    }
  }

  /** An element that passes keeps every one of its occurrences. */
  lemma {:induction false} FilterMultiplicity<T>(xs: seq<T>, p: T -> bool, x: T)
    requires p(x)
    ensures multiset(Filter(xs, p))[x] == multiset(xs)[x]
  {
    if |xs| > 0 {
      var t := xs[1..];
      FilterMultiplicity(t, p, x);
      assert xs == [xs[0]] + t;
      ConsMultiplicity(xs[0], t, x);
      if p(xs[0]) {
        ConsMultiplicity(xs[0], Filter(t, p), x);
      }
    }
  }

  /** The multiset of a sequence with y in front. */
  lemma ConsMultiset<T>(y: T, t: seq<T>)
    ensures multiset([y] + t) == multiset{y} + multiset(t)
  {
  }

  /** Putting y in front adds one occurrence of y and no other. */
  lemma ConsMultiplicity<T>(y: T, t: seq<T>, x: T)
    ensures multiset([y] + t)[x] == (if y == x then 1 else 0) + multiset(t)[x]
  {
    assert multiset([y] + t) == multiset{y} + multiset(t);
  }

  lemma {:induction false} FilterAppend<T>(xs: seq<T>, ys: seq<T>, p: T -> bool)
    ensures Filter(xs + ys, p) == Filter(xs, p) + Filter(ys, p)
  {
    if |xs| == 0 {
      assert xs + ys == ys;
    } else {
      assert (xs + ys)[1..] == xs[1..] + ys;
      FilterAppend(xs[1..], ys, p);
    }
  }

  /** Filtering keeps everything when every element passes. */
  lemma {:induction false} FilterAll<T>(xs: seq<T>, p: T -> bool)
    requires forall i :: 0 <= i < |xs| ==> p(xs[i])
    ensures Filter(xs, p) == xs
  {
    if |xs| > 0 {
      FilterAll(xs[1..], p);
      assert xs == [xs[0]] + xs[1..];
    }
  }

  /** Filtering drops something when some element fails. */
  lemma {:induction false} FilterShorter<T>(xs: seq<T>, p: T -> bool, k: nat)
    requires k < |xs| && !p(xs[k])
    ensures |Filter(xs, p)| < |xs|
  {
    if k > 0 {
      FilterShorter(xs[1..], p, k - 1);
    }
  }

  function Count<T>(xs: seq<T>, p: T -> bool): (n: nat)
    ensures n <= |xs|
    ensures n == 0 <==> forall i :: 0 <= i < |xs| ==> !p(xs[i])
  {
    var f := Filter(xs, p);
    assert |f| > 0 ==> f[0] in xs;
    |f|
  }

  /** Replacing one element changes a count by what that element contributed before and after. */
  lemma {:induction false} CountReplace<T>(xs: seq<T>, i: nat, x: T, p: T -> bool)
    requires i < |xs|
    ensures Count(xs[i := x], p) == Count(xs, p) - (if p(xs[i]) then 1 else 0) + (if p(x) then 1 else 0)
  {
    var ys := xs[i := x];
    assert xs == [xs[0]] + xs[1..] && ys == [ys[0]] + ys[1..];
    assert Filter(xs, p) == (if p(xs[0]) then [xs[0]] else []) + Filter(xs[1..], p);
    assert Filter(ys, p) == (if p(ys[0]) then [ys[0]] else []) + Filter(ys[1..], p);
    if i > 0 {
      assert ys[1..] == xs[1..][i - 1 := x];
      CountReplace(xs[1..], i - 1, x, p);
    } else {
      assert ys[1..] == xs[1..];
    }
  }

  /** Counting a weaker condition never gives fewer elements. */
  lemma {:induction false} CountMonotone<T>(xs: seq<T>, p: T -> bool, q: T -> bool)
    requires forall i :: 0 <= i < |xs| && p(xs[i]) ==> q(xs[i])
    ensures Count(xs, p) <= Count(xs, q)
  {
    if |xs| > 0 {
      CountMonotone(xs[1..], p, q);
      assert xs == [xs[0]] + xs[1..];
      assert Filter(xs, p) == (if p(xs[0]) then [xs[0]] else []) + Filter(xs[1..], p);
      assert Filter(xs, q) == (if q(xs[0]) then [xs[0]] else []) + Filter(xs[1..], q);
    }
  }

  /** leq orders every pair and is transitive: what a sort comparator must be. */
  ghost predicate TotalPreorder<T(!new)>(leq: (T, T) -> bool) {
    && (forall a, b :: leq(a, b) || leq(b, a))
    && (forall a, b, c :: leq(a, b) && leq(b, c) ==> leq(a, c))
  }

  predicate SortedBy<T>(xs: seq<T>, leq: (T, T) -> bool) {
    forall i, j :: 0 <= i < j < |xs| ==> leq(xs[i], xs[j])
  }

  function Insert<T>(x: T, xs: seq<T>, leq: (T, T) -> bool): (r: seq<T>)
    ensures multiset(r) == multiset(xs) + multiset{x}
  {
    if |xs| == 0 then [x]
    else if leq(x, xs[0]) then [x] + xs
    else
      assert xs == [xs[0]] + xs[1..];
      [xs[0]] + Insert(x, xs[1..], leq)
  }

  /** Inserting into a sorted sequence keeps it sorted. */
  lemma {:induction false} InsertSorted<T(!new)>(x: T, xs: seq<T>, leq: (T, T) -> bool)
    requires TotalPreorder(leq) && SortedBy(xs, leq)
    ensures SortedBy(Insert(x, xs, leq), leq)
  {
    if |xs| == 0 {
    } else if leq(x, xs[0]) {
      var r := [x] + xs;
      forall i, j | 0 <= i < j < |r| ensures leq(r[i], r[j]) {
        if i == 0 && j > 1 {
          assert leq(xs[0], xs[j - 1]);
        }
      }
    } else {
      var tail := Insert(x, xs[1..], leq);
      InsertSorted(x, xs[1..], leq);
      var r := [xs[0]] + tail;
      forall j | 0 <= j < |tail| ensures leq(xs[0], tail[j]) {
        assert tail[j] in multiset(tail);
        if tail[j] != x {
          assert tail[j] in multiset(xs[1..]);
          var k :| 0 <= k < |xs[1..]| && xs[1..][k] == tail[j];
          assert xs[k + 1] == tail[j];
        }
      }
      forall i, j | 0 <= i < j < |r| ensures leq(r[i], r[j]) {
        if i == 0 {
          assert r[j] == tail[j - 1];
        } else {
          assert r[i] == tail[i - 1] && r[j] == tail[j - 1];
        }
      }
      assert Insert(x, xs, leq) == r;
    }
  }

  /** The elements of xs rearranged into leq order (insertion sort, so equal elements keep their order). */
  function SortBy<T(!new)>(xs: seq<T>, leq: (T, T) -> bool): (r: seq<T>)
    requires TotalPreorder(leq)
    ensures multiset(r) == multiset(xs)
    ensures SortedBy(r, leq)
  {
    if |xs| == 0 then []
    else
      var rest := SortBy(xs[1..], leq);
      InsertSorted(xs[0], rest, leq);
      assert xs == [xs[0]] + xs[1..];
      Insert(xs[0], rest, leq)
  }

  /** `find(query).sort(order)`: the elements satisfying p, ordered by leq. */
  function SelectSorted<T(!new)>(xs: seq<T>, p: T -> bool, leq: (T, T) -> bool): (r: seq<T>)
    requires TotalPreorder(leq)
    ensures forall i :: 0 <= i < |r| ==> p(r[i]) && r[i] in xs
    ensures forall k :: 0 <= k < |xs| && p(xs[k]) ==> xs[k] in r
    ensures multiset(r) == multiset(Filter(xs, p))
    ensures SortedBy(r, leq)
  {
    var f := Filter(xs, p);
    var r := SortBy(f, leq);
    forall i | 0 <= i < |r| ensures p(r[i]) && r[i] in xs {
      assert r[i] in multiset(f);
      var k :| 0 <= k < |f| && f[k] == r[i];
    }
    forall k | 0 <= k < |xs| && p(xs[k]) ensures xs[k] in r {
      assert xs[k] in multiset(r);
    }
    r
  }

  /** Ascending by a string field, as `.sort({ name: 1 })` orders. */
  function ByKey<T>(key: T -> string): (T, T) -> bool {
    (a: T, b: T) => LexLeq(key(a), key(b))
  }

  lemma ByKeyPreorder<T(!new)>(key: T -> string)
    ensures TotalPreorder(ByKey(key))
  {
    forall a: T, b: T ensures ByKey(key)(a, b) || ByKey(key)(b, a) {
      LexLeqTotal(key(a), key(b));
    }
    forall a: T, b: T, c: T | ByKey(key)(a, b) && ByKey(key)(b, c) ensures ByKey(key)(a, c) {
      LexLeqTransitive(key(a), key(b), key(c));
    }
  }
}
