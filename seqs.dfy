/** `filter`, `map` and counting over sequences, as the core uses them on arrays. */
module Seqs {
  import opened Common

  /**
   * `xs.filter(keep).map(conv)` folded into one function: `f` says whether an
   * element is kept and what it becomes.
   */
  function FilterMap<A, B>(xs: seq<A>, f: A -> Option<B>): (ys: seq<B>)
    ensures |ys| <= |xs|
    ensures forall y :: y in ys ==> exists x :: x in xs && f(x) == Some(y)
    ensures forall x :: x in xs && f(x).Some? ==> f(x).value in ys
  {
    if xs == [] then []
    else
      var ys := FilterMap(xs[1..], f);
      assert forall x :: x in xs[1..] ==> x in xs;
      (if f(xs[0]).Some? then [f(xs[0]).value] else []) + ys
  }

  /** Filtering and mapping commute with concatenation, so the original order is kept. */
  lemma {:induction false} FilterMapAppend<A, B>(a: seq<A>, b: seq<A>, f: A -> Option<B>)
    ensures FilterMap(a + b, f) == FilterMap(a, f) + FilterMap(b, f)
  {
    if a == [] {
      assert a + b == b;
    } else {
      assert (a + b)[0] == a[0];
      assert (a + b)[1..] == a[1..] + b;
      FilterMapAppend(a[1..], b, f);
    }
  }

  /** One element contributes its image, if any, at its own place. */
  lemma FilterMapAround<A, B>(a: seq<A>, x: A, b: seq<A>, f: A -> Option<B>)
    ensures FilterMap(a + [x] + b, f) == FilterMap(a, f) + (if f(x).Some? then [f(x).value] else []) + FilterMap(b, f)
  {
    FilterMapAppend(a + [x], b, f);
    FilterMapAppend(a, [x], f);
    assert FilterMap([x], f) == (if f(x).Some? then [f(x).value] else []) + FilterMap([x][1..], f);
    assert [x][1..] == [];
  }

  /** `xs.filter(p)`. */
  function Filter<T>(xs: seq<T>, p: T -> bool): (r: seq<T>)
    ensures |r| <= |xs|
    ensures forall x :: x in r ==> x in xs && p(x)
    ensures forall x :: x in xs && p(x) ==> x in r
    ensures multiset(r) <= multiset(xs)
    ensures forall x :: x in xs && p(x) ==> multiset(r)[x] == multiset(xs)[x]
    ensures |r| == Count(xs, p)
  {
    if xs == [] then []
    else
      var r := Filter(xs[1..], p);
      assert xs == [xs[0]] + xs[1..];
      (if p(xs[0]) then [xs[0]] else []) + r
  }

  /** The number of positions of `xs` whose element satisfies `p`. */
  function Count<T>(xs: seq<T>, p: T -> bool): (n: nat)
    ensures n <= |xs|
  {
    if xs == [] then 0 else (if p(xs[0]) then 1 else 0) + Count(xs[1..], p)
  }

  lemma {:induction false} CountAppend<T>(a: seq<T>, b: seq<T>, p: T -> bool)
    ensures Count(a + b, p) == Count(a, p) + Count(b, p)
  {
    if a == [] {
      assert a + b == b;
    } else {
      assert (a + b)[0] == a[0];
      assert (a + b)[1..] == a[1..] + b;
      CountAppend(a[1..], b, p);
    }
  }

  /** A sequence all of whose elements satisfy `p` counts fully. */
  lemma {:induction false} CountAll<T>(xs: seq<T>, p: T -> bool)
    requires forall i :: 0 <= i < |xs| ==> p(xs[i])
    ensures Count(xs, p) == |xs|
  {
    if xs != [] {
      assert forall i :: 1 <= i < |xs| ==> xs[1..][i - 1] == xs[i];
      CountAll(xs[1..], p);
    }
  }

  /** A prefix never counts more than the whole sequence. */
  lemma CountPrefix<T>(xs: seq<T>, k: nat, p: T -> bool)
    requires k <= |xs|
    ensures Count(xs[..k], p) <= Count(xs, p)
  {
    assert xs == xs[..k] + xs[k..];
    CountAppend(xs[..k], xs[k..], p);
  }

  /** A sequence none of whose elements satisfies `p` counts zero. */
  lemma {:induction false} CountNone<T>(xs: seq<T>, p: T -> bool)
    requires forall i :: 0 <= i < |xs| ==> !p(xs[i])
    ensures Count(xs, p) == 0
  {
    if xs != [] {
      assert forall i :: 1 <= i < |xs| ==> xs[1..][i - 1] == xs[i];
      CountNone(xs[1..], p);
    }
  }
}
