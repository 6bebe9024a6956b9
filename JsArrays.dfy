/** The JavaScript array operations the pages use: `filter`, `filter(..).length`
    and `splice(start, 1)`. */
module JsArrays {

  /** `a` is `b` with some elements left out, the rest in their order. */
  predicate IsSubsequence<T(==)>(a: seq<T>, b: seq<T>)
    decreases |b|
  {
    if a == [] then true
    else if b == [] then false
    else if a[0] == b[0] then IsSubsequence(a[1..], b[1..])
    else IsSubsequence(a, b[1..])
  }

  /** `xs.filter(p)`: the elements of `xs` that satisfy `p`, in their order
      in `xs` (FilterKeepsExactly says it keeps every one of them). */
  function Filter<T(!new)>(xs: seq<T>, p: T -> bool): (r: seq<T>)
    ensures |r| <= |xs|
    ensures forall i :: 0 <= i < |r| ==> p(r[i])
    decreases |xs|
  {
    if xs == [] then []
    else if p(xs[0]) then [xs[0]] + Filter(xs[1..], p)
    else Filter(xs[1..], p)
  }

  /** The filter keeps each element that satisfies `p` as often as it occurs
      in `xs`, no other element, and the order of `xs`. */
  lemma {:induction false} FilterKeepsExactly<T(!new)>(xs: seq<T>, p: T -> bool)
    ensures forall x :: p(x) ==> multiset(Filter(xs, p))[x] == multiset(xs)[x]
    ensures forall x :: !p(x) ==> multiset(Filter(xs, p))[x] == 0
    ensures IsSubsequence(Filter(xs, p), xs)
    decreases |xs|
  {
    if xs != [] {
      var rest := Filter(xs[1..], p);
      FilterKeepsExactly(xs[1..], p);
      assert xs == [xs[0]] + xs[1..];
      if p(xs[0]) {
        assert Filter(xs, p) == [xs[0]] + rest;
        assert ([xs[0]] + rest)[1..] == rest;
      } else {
        SkipHead(rest, xs);
      }
    }
  }

  /** Dropping the first element of the longer sequence is harmless. */
  lemma SkipHead<T>(a: seq<T>, b: seq<T>)
    requires b != [] && IsSubsequence(a, b[1..])
    ensures IsSubsequence(a, b)
    decreases |a| + |b|
  {
    if a != [] && a[0] == b[0] {
      SubsequenceTail(a, b[1..]);
    }
  }

  /** Dropping the first element of the shorter sequence is harmless. */
  lemma SubsequenceTail<T>(a: seq<T>, b: seq<T>)
    requires a != [] && IsSubsequence(a, b)
    ensures IsSubsequence(a[1..], b)
    decreases |a| + |b|
  {
    if a[0] == b[0] {
      if a[1..] != [] { SkipHead(a[1..], b); }
    } else {
      SubsequenceTail(a, b[1..]);
      if a[1..] != [] { SkipHead(a[1..], b); }
    }
  }

  /** Predicates that agree on every element filter alike. */
  lemma {:induction false} FilterSameTest<T(!new)>(xs: seq<T>, p: T -> bool, q: T -> bool)
    requires forall x :: p(x) == q(x)
    ensures Filter(xs, p) == Filter(xs, q)
    decreases |xs|
  {
    if xs != [] {
      FilterSameTest(xs[1..], p, q);
    }
  }

  /** A predicate that every element satisfies keeps the whole array. */
  lemma {:induction false} FilterAll<T(!new)>(xs: seq<T>, p: T -> bool)
    requires forall i :: 0 <= i < |xs| ==> p(xs[i])
    ensures Filter(xs, p) == xs
    decreases |xs|
  {
    if xs != [] {
      FilterAll(xs[1..], p);
    }
  }

  lemma {:induction false} FilterConcat<T(!new)>(a: seq<T>, b: seq<T>, p: T -> bool)
    ensures Filter(a + b, p) == Filter(a, p) + Filter(b, p)
    decreases |a|
  {
    if a == [] {
      assert a + b == b;
    } else {
      FilterConcat(a[1..], b, p);
      assert (a + b)[0] == a[0];
      assert (a + b)[1..] == a[1..] + b;
    }
  }

  /** The index in `xs` of the k-th element that `p` keeps. */
  function NthMatch<T(!new)>(xs: seq<T>, p: T -> bool, k: nat): (j: nat)
    requires k < |Filter(xs, p)|
    ensures j < |xs| && p(xs[j])
    ensures |Filter(xs[..j], p)| == k
    decreases |xs|
  {
    assert xs != [];
    if p(xs[0]) && k == 0 then
      assert xs[..0] == [];
      0
    else
      var k' := if p(xs[0]) then k - 1 else k;
      var j' := NthMatch(xs[1..], p, k');
      assert xs[..1 + j'] == [xs[0]] + xs[1..][..j'];
      FilterConcat([xs[0]], xs[1..][..j'], p);
      1 + j'
  }

  /** Removing the k-th kept element from `xs` removes exactly the k-th
      element from what the filter keeps. */
  lemma RemoveNthMatch<T(!new)>(xs: seq<T>, p: T -> bool, k: nat)
    requires k < |Filter(xs, p)|
    ensures Filter(xs, p)[k] == xs[NthMatch(xs, p, k)]
    ensures var f := Filter(xs, p);
      Filter(Splice1(xs, NthMatch(xs, p, k)), p) == f[..k] + f[k + 1..]
  {
    var j := NthMatch(xs, p, k);
    var front, back := xs[..j], xs[j + 1..];
    assert xs == front + ([xs[j]] + back);
    FilterConcat(front, [xs[j]] + back, p);
    FilterConcat([xs[j]], back, p);
    assert Filter([xs[j]], p) == [xs[j]] by {
      assert [xs[j]][1..] == [];
    }
    var f := Filter(xs, p);
    assert f == Filter(front, p) + [xs[j]] + Filter(back, p);
    FilterConcat(front, back, p);
    assert Splice1(xs, j) == front + back;
  }

  /** `xs.filter(p).length`. */
  function Count<T(!new)>(xs: seq<T>, p: T -> bool): (n: nat)
    ensures n <= |xs|
  {
    |Filter(xs, p)|
  }

  /** Counts of three predicates no element satisfies twice add up to at most
      the length. */
  lemma {:induction false} DisjointCounts<T(!new)>(xs: seq<T>, p: T -> bool, q: T -> bool, u: T -> bool)
    requires forall x :: !(p(x) && q(x)) && !(p(x) && u(x)) && !(q(x) && u(x))
    ensures Count(xs, p) + Count(xs, q) + Count(xs, u) <= |xs|
    decreases |xs|
  {
    if xs != [] {
      DisjointCounts(xs[1..], p, q, u);
    }
  }

  /** The position `splice(start, ...)` starts at: a negative start counts
      from the end, and both ends are clamped into [0, n]. */
  function SpliceStart(start: int, n: nat): (k: nat)
    ensures k <= n
    ensures 0 <= start <= n ==> k == start
  {
    if start < 0 then (if n + start < 0 then 0 else n + start)
    else if start > n then n
    else start
  }

  /** The array `xs.splice(start, 1)` leaves behind. */
  function Splice1<T>(xs: seq<T>, start: int): (r: seq<T>)
    ensures 0 <= start < |xs| ==> r == xs[..start] + xs[start + 1..]
    ensures 0 <= start < |xs| ==>
              |r| == |xs| - 1 && multiset(r) + multiset{xs[start]} == multiset(xs)
    ensures start >= |xs| ==> r == xs
    ensures -|xs| <= start < 0 ==> r == xs[..|xs| + start] + xs[|xs| + start + 1..]
    ensures start < -|xs| && xs != [] ==> r == xs[1..]
  {
    var k := SpliceStart(start, |xs|);
    if k < |xs| then
      assert xs == xs[..k] + [xs[k]] + xs[k + 1..];
      xs[..k] + xs[k + 1..]
    else
      xs
  }
}
