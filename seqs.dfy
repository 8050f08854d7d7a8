/** `Array.prototype.filter`, `find`, `findIndex`, `map`, `reduce` and `new Set(...)`
    as functions on sequences, with the facts the pages rely on. */
module Seqs {
  import opened Wrappers

  /** `s.filter(p)` */
  function Filter<T(!new)>(s: seq<T>, p: T -> bool): (r: seq<T>)
    ensures |r| <= |s|
    ensures forall x :: x in r <==> x in s && p(x)
    ensures forall k :: 0 <= k < |r| ==> p(r[k])
  {
    if s == [] then [] else (if p(s[0]) then [s[0]] else []) + Filter(s[1..], p)
  }

  /** `a` is `b` with some elements left out and the rest in the same order. */
  predicate IsSubsequence<T(==)>(a: seq<T>, b: seq<T>)
    decreases |b|
  {
    if a == [] then true
    else if b == [] then false
    else (a[0] == b[0] && IsSubsequence(a[1..], b[1..])) || IsSubsequence(a, b[1..])
  }

  /** Filtering keeps the order of what it keeps. */
  lemma {:induction false} FilterIsSubsequence<T(!new)>(s: seq<T>, p: T -> bool)
    ensures IsSubsequence(Filter(s, p), s)
  {
    if s != [] {
      FilterIsSubsequence(s[1..], p);
      var r := Filter(s, p);
      if p(s[0]) {
        assert r == [s[0]] + Filter(s[1..], p);
        assert r[1..] == Filter(s[1..], p);
      } else {
        assert r == Filter(s[1..], p);
      }
    }
  }

  /** Filtering a concatenation filters each part. */
  lemma {:induction false} FilterAppend<T(!new)>(a: seq<T>, b: seq<T>, p: T -> bool)
    ensures Filter(a + b, p) == Filter(a, p) + Filter(b, p)
  {
    if a == [] {
      assert a + b == b;
    } else {
      var head := if p(a[0]) then [a[0]] else [];
      calc {
        Filter(a + b, p);
        head + Filter((a + b)[1..], p);
        { assert (a + b)[1..] == a[1..] + b; }
        head + Filter(a[1..] + b, p);
        { FilterAppend(a[1..], b, p); }
        head + (Filter(a[1..], p) + Filter(b, p));
        (head + Filter(a[1..], p)) + Filter(b, p);
        Filter(a, p) + Filter(b, p);
      }
    }
  }

  /** A filter that every element passes changes nothing. */
  lemma {:induction false} FilterKeepsAll<T(!new)>(s: seq<T>, p: T -> bool)
    requires forall k :: 0 <= k < |s| ==> p(s[k])
    ensures Filter(s, p) == s
  {
    if s != [] {
      FilterKeepsAll(s[1..], p);
      assert s == [s[0]] + s[1..];
    }
  }

  /** Filtering out an element that is there shortens the sequence. */
  lemma {:induction false} FilterMissesOne<T(!new)>(s: seq<T>, p: T -> bool, x: T)
    requires x in s && !p(x)
    ensures |Filter(s, p)| < |s|
  {
    if s[0] != x {
      FilterMissesOne(s[1..], p, x);
    }
  }

  /** Filters by two predicates that agree everywhere are the same. */
  lemma {:induction false} FilterSame<T(!new)>(s: seq<T>, p: T -> bool, q: T -> bool)
    requires forall x :: p(x) == q(x)
    ensures Filter(s, p) == Filter(s, q)
  {
    if s != [] {
      FilterSame(s[1..], p, q);
    }
  }

  /** Filters by two predicates that agree on the elements of `s` are the same. */
  lemma {:induction false} FilterSameOn<T(!new)>(s: seq<T>, p: T -> bool, q: T -> bool)
    requires forall x :: x in s ==> p(x) == q(x)
    ensures Filter(s, p) == Filter(s, q)
  {
    if s != [] {
      assert forall x :: x in s[1..] ==> x in s;
      FilterSameOn(s[1..], p, q);
    }
  }

  /** A filter by a stronger predicate keeps part of what a weaker one keeps,
      in the same order. */
  lemma {:induction false} FilterStronger<T(!new)>(s: seq<T>, p: T -> bool, q: T -> bool)
    requires forall x :: p(x) ==> q(x)
    ensures Filter(s, p) == Filter(Filter(s, q), p)
  {
    if s != [] {
      FilterStronger(s[1..], p, q);
      var head := if p(s[0]) then [s[0]] else [];
      assert Filter(s, p) == head + Filter(s[1..], p);
      if q(s[0]) {
        var t := Filter(s, q);
        assert t == [s[0]] + Filter(s[1..], q);
        assert t[0] == s[0] && t[1..] == Filter(s[1..], q);
        assert Filter(t, p) == head + Filter(t[1..], p);
      } else {
        assert Filter(s, q) == Filter(s[1..], q);
      }
    }
  }

  /** Number of elements that satisfy `p`: `s.filter(p).length`. */
  function Count<T(!new)>(s: seq<T>, p: T -> bool): nat {
    |Filter(s, p)|
  }

  /** Counting over a concatenation adds the counts. */
  lemma CountAppend<T(!new)>(a: seq<T>, b: seq<T>, p: T -> bool)
    ensures Count(a + b, p) == Count(a, p) + Count(b, p)
  {
    FilterAppend(a, b, p);
  }

  /** Two predicates that never hold together count at most the whole sequence. */
  lemma {:induction false} CountDisjoint<T(!new)>(s: seq<T>, p: T -> bool, q: T -> bool)
    requires forall x :: !(p(x) && q(x))
    ensures Count(s, p) + Count(s, q) <= |s|
  {
    if s != [] {
      CountDisjoint(s[1..], p, q);
    }
  }

  /** `s.findIndex(p)`, with `|s|` standing for `-1`. */
  function FindIndex<T>(s: seq<T>, p: T -> bool): (i: nat)
    ensures i <= |s|
    ensures i < |s| ==> p(s[i])
    ensures forall j :: 0 <= j < i ==> !p(s[j])
  {
    if s == [] then 0 else if p(s[0]) then 0 else 1 + FindIndex(s[1..], p)
  }

  /** `s.find(p)`: the first element that satisfies `p`, if any does. */
  function Find<T>(s: seq<T>, p: T -> bool): (r: Option<T>)
    ensures r.Some? <==> exists k :: 0 <= k < |s| && p(s[k])
    ensures r.Some? ==> exists k :: 0 <= k < |s| && s[k] == r.value && p(s[k])
                         && forall j :: 0 <= j < k ==> !p(s[j])
  {
    var i := FindIndex(s, p);
    if i < |s| then Some(s[i]) else None
  }

  /** `s.map(f)` */
  function Map<T, U>(s: seq<T>, f: T -> U): (r: seq<U>)
    ensures |r| == |s| && forall i :: 0 <= i < |s| ==> r[i] == f(s[i])
  {
    if s == [] then [] else [f(s[0])] + Map(s[1..], f)
  }

  /** `new Set(s).size` counts the distinct values. */
  function Elements<T>(s: seq<T>): set<T> {
    set x | x in s
  }

  /** There are never more distinct values than elements. */
  lemma {:induction false} ElementsBound<T>(s: seq<T>)
    ensures |Elements(s)| <= |s|
  {
    if s != [] {
      ElementsBound(s[1..]);
      assert Elements(s) == {s[0]} + Elements(s[1..]);
    }
  }

  /** `s.reduce((acc, x) => acc + f(x), 0)` */
  function Sum<T>(s: seq<T>, f: T -> real): real {
    if s == [] then 0.0 else f(s[0]) + Sum(s[1..], f)
  }

  /** Summing over a concatenation adds the sums. */
  lemma {:induction false} SumAppend<T>(a: seq<T>, b: seq<T>, f: T -> real)
    ensures Sum(a + b, f) == Sum(a, f) + Sum(b, f)
  {
    if a == [] {
      assert a + b == b;
    } else {
      SumAppend(a[1..], b, f);
      assert (a + b)[1..] == a[1..] + b;
    }
  }

  /** `s.filter((_, i) => i !== k)`: drop index `k`; out of range, nothing. */
  function RemoveAt<T>(s: seq<T>, k: int): (r: seq<T>)
    ensures 0 <= k < |s| ==> |r| == |s| - 1
    ensures !(0 <= k < |s|) ==> r == s
  {
    if 0 <= k < |s| then s[..k] + s[k + 1..] else s
  }
}
