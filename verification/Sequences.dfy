/** Concatenated images, stable insertion, and sums over a range of instants. */
module Sequences {

  // ------------------------------------------------------- concatenated images

  function FlatMap<A, B>(xs: seq<A>, f: A -> seq<B>): seq<B> {
    if xs == [] then [] else FlatMap(xs[..|xs| - 1], f) + f(xs[|xs| - 1])
  }

  lemma FlatMapNext<A, B>(xs: seq<A>, i: nat, f: A -> seq<B>)
    requires i < |xs|
    ensures FlatMap(xs[..i + 1], f) == FlatMap(xs[..i], f) + f(xs[i])
  {
    assert xs[..i + 1][..i] == xs[..i];
  }

  lemma {:induction false} InFlatMap<A, B>(xs: seq<A>, f: A -> seq<B>, y: B)
    ensures y in FlatMap(xs, f) <==> exists i :: 0 <= i < |xs| && y in f(xs[i])
  {
    if xs != [] {
      var last := |xs| - 1;
      InFlatMap(xs[..last], f, y);
      if i :| 0 <= i < |xs| && y in f(xs[i]) && i != last {
        assert xs[..last][i] == xs[i];
      }
    }
  }

  lemma {:induction false} FlatMapConcat<A, B>(xs: seq<A>, ys: seq<A>, f: A -> seq<B>)
    ensures FlatMap(xs + ys, f) == FlatMap(xs, f) + FlatMap(ys, f)
  {
    if ys == [] {
      assert xs + ys == xs;
    } else {
      var last := |ys| - 1;
      assert (xs + ys)[..|xs + ys| - 1] == xs + ys[..last];
      FlatMapConcat(xs, ys[..last], f);
    }
  }

  // ---------------------------------------------------------- stable insertion

  predicate SortedBy<T>(xs: seq<T>, key: T -> int) {
    forall i, j :: 0 <= i < j < |xs| ==> key(xs[i]) <= key(xs[j])
  }

  /** Where `x` goes in a sorted list: after every element whose key is not above its own. */
  function Place<T>(xs: seq<T>, x: T, key: T -> int): (p: nat)
    ensures p <= |xs|
    ensures SortedBy(xs, key) ==> forall i :: 0 <= i < p ==> key(xs[i]) <= key(x)
    ensures forall i :: p <= i < |xs| ==> key(x) < key(xs[i])
  {
    if xs == [] then 0
    else if key(xs[|xs| - 1]) <= key(x) then |xs|
    else Place(xs[..|xs| - 1], x, key)
  }

  function Insert<T>(xs: seq<T>, x: T, key: T -> int): seq<T> {
    var p := Place(xs, x, key);
    xs[..p] + [x] + xs[p..]
  }

  lemma Inserted<T>(xs: seq<T>, x: T, key: T -> int)
    ensures var p, ys := Place(xs, x, key), Insert(xs, x, key);
            && |ys| == |xs| + 1 && ys[p] == x
            && (forall i :: 0 <= i < p ==> ys[i] == xs[i])
            && (forall i :: p < i <= |xs| ==> ys[i] == xs[i - 1])
  {
  }

  lemma InsertSorts<T>(xs: seq<T>, x: T, key: T -> int)
    requires SortedBy(xs, key)
    ensures SortedBy(Insert(xs, x, key), key)
  {
    var p, ys := Place(xs, x, key), Insert(xs, x, key);
    Inserted(xs, x, key);
    forall i, j | 0 <= i < j < |ys| ensures key(ys[i]) <= key(ys[j]) {
      if i == p {
        assert ys[j] == xs[j - 1];
      } else if j == p {
        assert ys[i] == xs[i];
      } else {
        assert ys[i] == xs[if i < p then i else i - 1] && ys[j] == xs[if j < p then j else j - 1];
      }
    }
  }

  lemma InsertMembers<T>(xs: seq<T>, x: T, key: T -> int, y: T)
    ensures y in Insert(xs, x, key) <==> y in xs || y == x
  {
    var p := Place(xs, x, key);
    assert xs == xs[..p] + xs[p..];
    assert y in xs <==> y in xs[..p] || y in xs[p..];
  }

  /** A stable sort. */
  function Sort<T>(xs: seq<T>, key: T -> int): seq<T> {
    if xs == [] then [] else Insert(Sort(xs[..|xs| - 1], key), xs[|xs| - 1], key)
  }

  lemma {:induction false} SortSorts<T>(xs: seq<T>, key: T -> int)
    ensures SortedBy(Sort(xs, key), key)
    ensures forall y :: y in Sort(xs, key) <==> y in xs
  {
    if xs != [] {
      var init, x := xs[..|xs| - 1], xs[|xs| - 1];
      SortSorts(init, key);
      InsertSorts(Sort(init, key), x, key);
      assert xs == init + [x];
      forall y ensures y in Sort(xs, key) <==> y in xs { InsertMembers(Sort(init, key), x, key, y); }
    }
  }

  // ------------------------------------------------------- sums over instants

  /** The sum of `f` over the instants from `lo` up to `hi`. */
  function Sum(lo: int, hi: int, f: int -> int): int
    decreases hi - lo
  {
    if hi <= lo then 0 else Sum(lo, hi - 1, f) + f(hi - 1)
  }

  lemma {:induction false} SumSame(lo: int, hi: int, f: int -> int, g: int -> int)
    requires forall t :: lo <= t < hi ==> f(t) == g(t)
    ensures Sum(lo, hi, f) == Sum(lo, hi, g)
    decreases hi - lo
  {
    if lo < hi { SumSame(lo, hi - 1, f, g); }
  }

  lemma {:induction false} SumPlus(lo: int, hi: int, f: int -> int, g: int -> int, h: int -> int)
    requires forall t :: lo <= t < hi ==> f(t) == g(t) + h(t)
    ensures Sum(lo, hi, f) == Sum(lo, hi, g) + Sum(lo, hi, h)
    decreases hi - lo
  {
    if lo < hi { SumPlus(lo, hi - 1, f, g, h); }
  }

  lemma {:induction false} SumBound(lo: int, hi: int, f: int -> int, top: nat)
    requires forall t :: lo <= t < hi ==> f(t) <= top
    requires lo <= hi
    ensures Sum(lo, hi, f) <= top * (hi - lo)
    decreases hi - lo
  {
    if lo < hi {
      SumBound(lo, hi - 1, f, top);
      assert top * (hi - lo) == top * (hi - 1 - lo) + top;
    }
  }

  /** A function that is one on `[a, b)` and zero elsewhere sums to the length `b - a`. */
  lemma {:induction false} SumLength(lo: int, hi: int, f: int -> int, a: int, b: int)
    requires lo <= a <= b && (b <= hi || a >= hi)
    requires forall t :: lo <= t < hi ==> f(t) == if a <= t < b then 1 else 0
    ensures Sum(lo, hi, f) == if a >= hi then 0 else b - a
    decreases hi - lo
  {
    if lo < hi {
      SumLength(lo, hi - 1, f, a, if b == hi && a < hi then hi - 1 else b);
    }
  }
}
