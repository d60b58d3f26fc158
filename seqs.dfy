/** Kotlin's `List.filter`, and the order-preserving sub-list relation it produces. */
module Seqs {

  /** `r` is obtained from `s` by deleting zero or more elements, keeping the order of the rest. */
  predicate IsSubsequence<T(==)>(r: seq<T>, s: seq<T>)
    decreases |s|
  {
    if r == [] then true
    else if s == [] then false
    else (r[0] == s[0] && IsSubsequence(r[1..], s[1..])) || IsSubsequence(r, s[1..])
  }

  /** `s.filter(f)`: the elements of `s` that satisfy `f`, in their original order. */
  function Filter<T(==,!new)>(f: T -> bool, s: seq<T>): (r: seq<T>)
    ensures |r| <= |s|
    ensures forall i :: 0 <= i < |r| ==> f(r[i])
    decreases |s|
  {
    if s == [] then []
    else
      assert s == [s[0]] + s[1..];
      (if f(s[0]) then [s[0]] else []) + Filter(f, s[1..])
  }

  /** An element is kept exactly when it is in the list and passes. */
  lemma FilterMembership<T(!new)>(f: T -> bool, s: seq<T>)
    ensures forall x :: x in Filter(f, s) <==> x in s && f(x)
  {
    FilterMultiset(f, s);
    forall x ensures x in Filter(f, s) <==> x in s && f(x) {
      assert x in Filter(f, s) <==> x in multiset(Filter(f, s));
      assert x in s <==> x in multiset(s);
    }
  }

  /** Filtering keeps every occurrence of an element that passes and none of one that does not. */
  lemma {:induction false} FilterMultiset<T(!new)>(f: T -> bool, s: seq<T>)
    ensures forall x :: multiset(Filter(f, s))[x] == if f(x) then multiset(s)[x] else 0
    decreases |s|
  {
    if s != [] {
      FilterMultiset(f, s[1..]);
      assert s == [s[0]] + s[1..];
    }
  }

  /** Filtering gives an order-preserving sub-list. */
  lemma {:induction false} FilterIsSubsequence<T(!new)>(f: T -> bool, s: seq<T>)
    ensures IsSubsequence(Filter(f, s), s)
    decreases |s|
  {
    if s != [] {
      FilterIsSubsequence(f, s[1..]);
      var rest := Filter(f, s[1..]);
      var r := Filter(f, s);
      if f(s[0]) {
        assert r == [s[0]] + rest && r[1..] == rest;
      } else {
        assert r == rest;
        if rest != [] { assert rest[0] in rest; }
      }
    }
  }

  /** Filtering distributes over concatenation. */
  lemma {:induction false} FilterConcat<T(!new)>(f: T -> bool, a: seq<T>, b: seq<T>)
    ensures Filter(f, a + b) == Filter(f, a) + Filter(f, b)
    decreases |a|
  {
    if a == [] {
      assert a + b == b;
    } else {
      var ab := a + b;
      assert ab[0] == a[0] && ab[1..] == a[1..] + b;
      FilterConcat(f, a[1..], b);
      var head := if f(a[0]) then [a[0]] else [];
      assert Filter(f, ab) == head + Filter(f, ab[1..]);
      assert Filter(f, a) == head + Filter(f, a[1..]);
    }
  }

  /** Filtering keeps the whole list exactly when every element passes. */
  lemma {:induction false} FilterAll<T(!new)>(f: T -> bool, s: seq<T>)
    requires forall i :: 0 <= i < |s| ==> f(s[i])
    ensures Filter(f, s) == s
    decreases |s|
  {
    if s != [] {
      FilterAll(f, s[1..]);
      assert s == [s[0]] + s[1..];
    }
  }

  /** Filtering twice by the same predicate is the same as filtering once. */
  lemma FilterIdempotent<T(!new)>(f: T -> bool, s: seq<T>)
    ensures Filter(f, Filter(f, s)) == Filter(f, s)
  {
    FilterAll(f, Filter(f, s));
  }

  lemma FilterSingleton<T(!new)>(f: T -> bool, y: T)
    ensures Filter(f, [y]) == if f(y) then [y] else []
  {
    assert [y][1..] == [];
  }

  /**
   * When at most one of `x` and `y` passes `f`, appending `y` to a list that filters like
   * `a + [x]` filters like `a + [y] + [x]`.
   */
  lemma FilterSwapLast<T(!new)>(f: T -> bool, a: seq<T>, r: seq<T>, x: T, y: T)
    requires !(f(x) && f(y))
    requires Filter(f, r) == Filter(f, a + [x])
    ensures Filter(f, r + [y]) == Filter(f, (a + [y]) + [x])
  {
    var fa, xs, ys := Filter(f, a), Filter(f, [x]), Filter(f, [y]);
    assert Filter(f, r + [y]) == (fa + xs) + ys by {
      FilterConcat(f, r, [y]);
      FilterConcat(f, a, [x]);
    }
    assert Filter(f, (a + [y]) + [x]) == (fa + ys) + xs by {
      FilterConcat(f, a + [y], [x]);
      FilterConcat(f, a, [y]);
    }
    assert xs + ys == ys + xs by {
      FilterSingleton(f, x);
      FilterSingleton(f, y);
    }
    assert (fa + xs) + ys == fa + (xs + ys) == fa + (ys + xs) == (fa + ys) + xs;
  }

  /** Filtering drops every element when none passes. */
  lemma {:induction false} FilterNone<T(!new)>(f: T -> bool, s: seq<T>)
    requires forall i :: 0 <= i < |s| ==> !f(s[i])
    ensures Filter(f, s) == []
    decreases |s|
  {
    if s != [] {
      FilterNone(f, s[1..]);
    }
  }

  /** When exactly the element at `k` passes, filtering gives just that element. */
  lemma FilterSingleMatch<T(!new)>(f: T -> bool, s: seq<T>, k: nat)
    requires k < |s|
    requires forall i :: 0 <= i < |s| ==> (f(s[i]) <==> i == k)
    ensures Filter(f, s) == [s[k]]
  {
    assert s == s[..k] + ([s[k]] + s[k + 1..]);
    FilterNone(f, s[..k]);
    FilterNone(f, s[k + 1..]);
    FilterConcat(f, s[..k], [s[k]] + s[k + 1..]);
    FilterConcat(f, [s[k]], s[k + 1..]);
    FilterSingleton(f, s[k]);
  }
}
