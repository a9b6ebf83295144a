/**
 The sequence operations the application relies on: the order-preserving
 `Array.prototype.filter`, order-preserving subsequences, and duplicate-free
 lists.
 */
module Seqs {

  /** `b` can be obtained from `a` by deleting elements, without reordering. */
  ghost predicate IsSubseq<T>(b: seq<T>, a: seq<T>)
    decreases |a|
  {
    if |b| == 0 then true
    else if |a| == 0 then false
    else if b[0] == a[0] then IsSubseq(b[1..], a[1..])
    else IsSubseq(b, a[1..])
  }

  /** No value occurs twice. */
  predicate Distinct<T(==)>(xs: seq<T>) {
    forall i, j :: 0 <= i < j < |xs| ==> xs[i] != xs[j]
  }

  /** Keeps, in order, the elements that satisfy `p`: the model of `xs.filter(p)`. */
  function Filter<T(!new)>(xs: seq<T>, p: T -> bool): (r: seq<T>)
    ensures |r| <= |xs|
    ensures forall x :: x in r <==> x in xs && p(x)
    ensures IsSubseq(r, xs)
  {
    if |xs| == 0 then []
    else if p(xs[0]) then [xs[0]] + Filter(xs[1..], p)
    else Filter(xs[1..], p)
  }

  /** Every occurrence of `v` removed, the rest in order: `xs.filter(x => x !== v)`. */
  function Without<T(==,!new)>(xs: seq<T>, v: T): (r: seq<T>)
    ensures v !in r
    ensures forall x :: x != v ==> (x in r <==> x in xs)
    ensures IsSubseq(r, xs)
  {
    if |xs| == 0 then []
    else
      assert xs == [xs[0]] + xs[1..];
      if xs[0] == v then Without(xs[1..], v)
      else [xs[0]] + Without(xs[1..], v)
  }

  /** Removing the fourth of five values that differ from it leaves the other four in order. */
  lemma WithoutFourth<T(!new)>(a: T, b: T, c: T, d: T, e: T)
    requires a != d && b != d && c != d && e != d
    ensures Without([a, b, c, d, e], d) == [a, b, c, e]
  {
    assert [e][1..] == [];
    assert Without([e], d) == [e];
    assert [d, e][1..] == [e];
    assert Without([d, e], d) == [e];
    assert [c, d, e][1..] == [d, e];
    assert Without([c, d, e], d) == [c, e];
    assert [b, c, d, e][1..] == [c, d, e];
    assert Without([b, c, d, e], d) == [b, c, e];
    assert [a, b, c, d, e][1..] == [b, c, d, e];
  }

  /** Removal drops every copy of `v` and keeps the count of every other value. */
  lemma {:induction false} WithoutCounts<T(!new)>(xs: seq<T>, v: T)
    ensures multiset(Without(xs, v)) == multiset(xs)[v := 0]
  {
    if |xs| > 0 {
      WithoutCounts(xs[1..], v);
      assert xs == [xs[0]] + xs[1..];
    }
  }

  /** Removing a value that does not occur changes nothing. */
  lemma {:induction false} WithoutAbsent<T(!new)>(xs: seq<T>, v: T)
    requires v !in xs
    ensures Without(xs, v) == xs
  {
    if |xs| > 0 {
      WithoutAbsent(xs[1..], v);
      assert xs == [xs[0]] + xs[1..];
    }
  }

  /** Removal distributes over concatenation. */
  lemma {:induction false} WithoutAppend<T(!new)>(xs: seq<T>, ys: seq<T>, v: T)
    ensures Without(xs + ys, v) == Without(xs, v) + Without(ys, v)
  {
    if |xs| == 0 {
      assert xs + ys == ys;
    } else {
      assert (xs + ys)[0] == xs[0];
      assert (xs + ys)[1..] == xs[1..] + ys;
      WithoutAppend(xs[1..], ys, v);
    }
  }

  /** Removing the last element of a duplicate-free list and appending it again restores it. */
  lemma WithoutLastThenAppend<T(!new)>(xs: seq<T>, v: T)
    requires Distinct(xs) && |xs| > 0 && xs[|xs| - 1] == v
    ensures Without(xs, v) + [v] == xs
  {
    var init := xs[..|xs| - 1];
    assert xs == init + [v];
    assert v !in init by {
      forall j | 0 <= j < |init| ensures init[j] != v {
        assert init[j] == xs[j];
      }
    }
    assert Without(xs, v) == init by {
      WithoutAppend(init, [v], v);
      WithoutAbsent(init, v);
      assert Without([v], v) == [];
    }
  }

  /** A subsequence keeps every element it has from its source. */
  lemma {:induction false} SubseqMembers<T>(b: seq<T>, a: seq<T>)
    requires IsSubseq(b, a)
    ensures forall x :: x in b ==> x in a
    decreases |a|
  {
    if |b| > 0 && |a| > 0 {
      if b[0] == a[0] {
        SubseqMembers(b[1..], a[1..]);
        assert b == [b[0]] + b[1..];
      } else {
        SubseqMembers(b, a[1..]);
      }
    }
  }

  /** A subsequence of a duplicate-free list is duplicate-free. */
  lemma {:induction false} SubseqDistinct<T>(b: seq<T>, a: seq<T>)
    requires IsSubseq(b, a) && Distinct(a)
    ensures Distinct(b)
    decreases |a|
  {
    if |b| > 0 && |a| > 0 {
      assert Distinct(a[1..]) by {
        forall i, j | 0 <= i < j < |a[1..]| ensures a[1..][i] != a[1..][j] {
          assert a[1..][i] == a[i + 1] && a[1..][j] == a[j + 1];
        }
      }
      if b[0] == a[0] {
        SubseqDistinct(b[1..], a[1..]);
        SubseqMembers(b[1..], a[1..]);
        forall i, j | 0 <= i < j < |b| ensures b[i] != b[j] {
          if i == 0 {
            assert b[j] == b[1..][j - 1];
            assert b[j] in a[1..];
            var k :| 0 <= k < |a[1..]| && a[1..][k] == b[j];
            assert a[k + 1] == b[j];
          } else {
            assert b[i] == b[1..][i - 1] && b[j] == b[1..][j - 1];
          }
        }
      } else {
        SubseqDistinct(b, a[1..]);
      }
    }
  }

  /** A predicate that holds throughout `xs` lets every element through. */
  lemma {:induction false} FilterKeepsAll<T(!new)>(xs: seq<T>, p: T -> bool)
    requires forall x :: x in xs ==> p(x)
    ensures Filter(xs, p) == xs
  {
    if |xs| > 0 {
      FilterKeepsAll(xs[1..], p);
      assert xs == [xs[0]] + xs[1..];
    }
  }

  /** Filtering twice is filtering once by the conjunction. */
  lemma {:induction false} FilterTwice<T(!new)>(xs: seq<T>, p: T -> bool, q: T -> bool, pq: T -> bool)
    requires forall x :: pq(x) == (p(x) && q(x))
    ensures Filter(Filter(xs, p), q) == Filter(xs, pq)
  {
    if |xs| > 0 {
      FilterTwice(xs[1..], p, q, pq);
      if p(xs[0]) {
        assert Filter(xs, p) == [xs[0]] + Filter(xs[1..], p);
        assert ([xs[0]] + Filter(xs[1..], p))[1..] == Filter(xs[1..], p);
      }
    }
  }

  /** Filtering with two predicates that agree on `xs` gives the same list. */
  lemma {:induction false} FilterCongruent<T(!new)>(xs: seq<T>, p: T -> bool, q: T -> bool)
    requires forall x :: x in xs ==> p(x) == q(x)
    ensures Filter(xs, p) == Filter(xs, q)
  {
    if |xs| > 0 {
      FilterCongruent(xs[1..], p, q);
    }
  }

  /** Filtering distributes over concatenation. */
  lemma {:induction false} FilterAppend<T(!new)>(xs: seq<T>, ys: seq<T>, p: T -> bool)
    ensures Filter(xs + ys, p) == Filter(xs, p) + Filter(ys, p)
  {
    if |xs| == 0 {
      assert xs + ys == ys;
    } else {
      assert (xs + ys)[0] == xs[0];
      assert (xs + ys)[1..] == xs[1..] + ys;
      FilterAppend(xs[1..], ys, p);
    }
  }

  /** Filtering keeps every admitted value as often as it occurred and drops the rest. */
  lemma {:induction false} FilterMultiplicity<T(!new)>(xs: seq<T>, p: T -> bool, x: T)
    ensures multiset(Filter(xs, p))[x] == if p(x) then multiset(xs)[x] else 0
  {
    if |xs| > 0 {
      FilterMultiplicity(xs[1..], p, x);
      assert xs == [xs[0]] + xs[1..];
      assert multiset(xs) == multiset([xs[0]]) + multiset(xs[1..]);
    }
  }

  /** Every list is a subsequence of itself. */
  lemma {:induction false} SubseqRefl<T>(xs: seq<T>)
    ensures IsSubseq(xs, xs)
  {
    if |xs| > 0 {
      SubseqRefl(xs[1..]);
    }
  }

  /** `if (active) xs = xs.filter(p)`: a filter step that only runs when its facet is set. */
  function FilterIf<T(!new)>(xs: seq<T>, active: bool, p: T -> bool): (r: seq<T>)
    ensures |r| <= |xs|
    ensures forall x :: x in r <==> x in xs && (!active || p(x))
    ensures IsSubseq(r, xs)
  {
    SubseqRefl(xs);
    if active then Filter(xs, p) else xs
  }

  /** A conditional step is a filter by "inactive, or `p` holds". */
  lemma FilterIfIsFilter<T(!new)>(xs: seq<T>, active: bool, p: T -> bool, q: T -> bool)
    requires forall x :: q(x) == (!active || p(x))
    ensures FilterIf(xs, active, p) == Filter(xs, q)
  {
    if active {
      FilterCongruent(xs, p, q);
    } else {
      FilterKeepsAll(xs, q);
    }
  }

  /** A conditional step after a filter is one filter by the conjunction. */
  lemma FilterIfAfterFilter<T(!new)>(xs: seq<T>, acc: T -> bool, active: bool, p: T -> bool, acc2: T -> bool)
    requires forall x :: acc2(x) == (acc(x) && (!active || p(x)))
    ensures FilterIf(Filter(xs, acc), active, p) == Filter(xs, acc2)
  {
    if active {
      FilterTwice(xs, acc, p, acc2);
    } else {
      FilterCongruent(xs, acc, acc2);
    }
  }

  /**
   A cascade of `n` optional filter steps: step `i` (from 1) runs when
   `active(i)` holds and then keeps the elements satisfying `keep(i)`.
   */
  function Cascade<T(!new)>(xs: seq<T>, active: nat -> bool, keep: nat -> T -> bool, n: nat): seq<T> {
    if n == 0 then xs else FilterIf(Cascade(xs, active, keep, n - 1), active(n), keep(n))
  }

  /** One more step of a cascade, with the step's switch and predicate named. */
  lemma CascadeNext<T(!new)>(xs: seq<T>, active: nat -> bool, keep: nat -> T -> bool, n: nat,
                             prev: seq<T>, on: bool, p: T -> bool)
    requires 1 <= n && Cascade(xs, active, keep, n - 1) == prev
    requires active(n) == on && keep(n) == p
    ensures Cascade(xs, active, keep, n) == FilterIf(prev, on, p)
  {
  }

  /** `x` survives the first `n` steps of a cascade. */
  predicate Survives<T>(active: nat -> bool, keep: nat -> T -> bool, n: nat, x: T) {
    n == 0 || (Survives(active, keep, n - 1, x) && (!active(n) || keep(n)(x)))
  }

  function SurvivesFn<T>(active: nat -> bool, keep: nat -> T -> bool, n: nat): T -> bool {
    (x: T) => Survives(active, keep, n, x)
  }

  /** A cascade is one filter by the conjunction of its steps, so it keeps the order. */
  lemma {:induction false} CascadeIsFilter<T(!new)>(xs: seq<T>, active: nat -> bool, keep: nat -> T -> bool, n: nat)
    ensures Cascade(xs, active, keep, n) == Filter(xs, SurvivesFn(active, keep, n))
  {
    if n == 0 {
      FilterKeepsAll(xs, SurvivesFn(active, keep, 0));
    } else {
      CascadeIsFilter(xs, active, keep, n - 1);
      FilterIfAfterFilter(xs, SurvivesFn(active, keep, n - 1), active(n), keep(n), SurvivesFn(active, keep, n));
    }
  }

  /** The contribution of `x` to a filter by `p`: itself if admitted, nothing otherwise. */
  function Kept<T>(x: T, p: T -> bool): (r: seq<T>)
    ensures x in r <==> p(x)
    ensures |r| <= 1
  {
    if p(x) then [x] else []
  }

  /** Filtering decides the head, then filters the tail. */
  lemma FilterCons<T(!new)>(x: T, xs: seq<T>, p: T -> bool)
    ensures Filter([x] + xs, p) == Kept(x, p) + Filter(xs, p)
  {
    assert ([x] + xs)[1..] == xs;
  }

  lemma FilterThree<T(!new)>(a: T, b: T, c: T, p: T -> bool)
    ensures Filter([a, b, c], p) == Kept(a, p) + (Kept(b, p) + Kept(c, p))
  {
    FilterCons(c, [], p);
    assert [c] + [] == [c];
    FilterCons(b, [c], p);
    FilterCons(a, [b, c], p);
  }

  /** Filtering a six-element list decides element by element. */
  lemma FilterSix<T(!new)>(a: T, b: T, c: T, d: T, e: T, g: T, p: T -> bool)
    ensures Filter([a, b, c, d, e, g], p) ==
      Kept(a, p) + (Kept(b, p) + (Kept(c, p) + (Kept(d, p) + (Kept(e, p) + Kept(g, p)))))
  {
    FilterThree(d, e, g, p);
    FilterCons(c, [d, e, g], p);
    FilterCons(b, [c, d, e, g], p);
    FilterCons(a, [b, c, d, e, g], p);
  }

  lemma DropThird<T>(a: T, b: T, d: T, e: T, g: T)
    ensures [a] + ([b] + ([] + ([d] + ([e] + [g])))) == [a, b, d, e, g]
  {
  }

  /** Filtering six elements that all pass except the third. */
  lemma FilterAllButThird<T(!new)>(a: T, b: T, c: T, d: T, e: T, g: T, p: T -> bool)
    requires p(a) && p(b) && !p(c) && p(d) && p(e) && p(g)
    ensures Filter([a, b, c, d, e, g], p) == [a, b, d, e, g]
  {
    FilterSix(a, b, c, d, e, g, p);
    assert Kept(a, p) == [a] && Kept(b, p) == [b] && Kept(c, p) == [];
    assert Kept(d, p) == [d] && Kept(e, p) == [e] && Kept(g, p) == [g];
    DropThird(a, b, d, e, g);
  }

  /** Filtering six elements of which only the third passes. */
  lemma FilterOnlyThird<T(!new)>(a: T, b: T, c: T, d: T, e: T, g: T, p: T -> bool)
    requires !p(a) && !p(b) && p(c) && !p(d) && !p(e) && !p(g)
    ensures Filter([a, b, c, d, e, g], p) == [c]
  {
    FilterSix(a, b, c, d, e, g, p);
  }

  /** Filtering six elements of which only the first and the fourth pass. */
  lemma FilterFirstAndFourth<T(!new)>(a: T, b: T, c: T, d: T, e: T, g: T, p: T -> bool)
    requires p(a) && !p(b) && !p(c) && p(d) && !p(e) && !p(g)
    ensures Filter([a, b, c, d, e, g], p) == [a, d]
  {
    FilterSix(a, b, c, d, e, g, p);
  }

}
