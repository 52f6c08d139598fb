/**
 * The list idioms the storefront writes with `Array.prototype` methods: `map`
 * that rewrites the elements with a given key, `filter`, `find`, and
 * `Math.max(...ids, 0)`. Keys are read through a function so that the same
 * definitions serve novelas (by id), zones (by id or by fullPath) and plain
 * id lists.
 */
module Keyed {
  import opened Wrappers

  /** Every element with key k transformed by f, the others kept. */
  function MapWhere<T, K(==)>(xs: seq<T>, key: T -> K, k: K, f: T -> T): (r: seq<T>)
    ensures |r| == |xs|
    ensures forall i :: 0 <= i < |xs| ==> r[i] == if key(xs[i]) == k then f(xs[i]) else xs[i]
  {
    if xs == [] then []
    else [if key(xs[0]) == k then f(xs[0]) else xs[0]] + MapWhere(xs[1..], key, k, f)
  }

  /** The sum of f over the elements, added from the left one element at a time. */
  function Sum<T>(xs: seq<T>, f: T -> int): int {
    if xs == [] then 0 else Sum(xs[..|xs| - 1], f) + f(xs[|xs| - 1])
  }

  /** Summing one more element at the end adds its value. */
  lemma SumSnoc<T>(xs: seq<T>, x: T, f: T -> int)
    ensures Sum(xs + [x], f) == Sum(xs, f) + f(x)
  {
    assert (xs + [x])[..|xs|] == xs;
  }

  /** Sums of two equally long lists agree when their terms agree position by position. */
  lemma {:induction false} SumPointwise<T, U>(ys: seq<U>, f: U -> int, xs: seq<T>, g: T -> int)
    requires |ys| == |xs| && forall i :: 0 <= i < |xs| ==> f(ys[i]) == g(xs[i])
    ensures Sum(ys, f) == Sum(xs, g)
  {
    if xs != [] {
      var n := |xs| - 1;
      SumPointwise(ys[..n], f, xs[..n], g);
    }
  }

  /** Summing distributes over concatenation. */
  lemma {:induction false} SumAppend<T>(a: seq<T>, b: seq<T>, f: T -> int)
    ensures Sum(a + b, f) == Sum(a, f) + Sum(b, f)
  {
    if b == [] {
      assert a + b == a;
    } else {
      assert (a + b)[..|a + b| - 1] == a + b[..|b| - 1];
      SumAppend(a, b[..|b| - 1], f);
    }
  }

  /** The elements that satisfy p, in order. */
  function Filter<T(==)>(xs: seq<T>, p: T -> bool): (r: seq<T>)
    ensures |r| <= |xs|
    ensures forall i :: 0 <= i < |r| ==> r[i] in xs && p(r[i])
    ensures forall i :: 0 <= i < |xs| && p(xs[i]) ==> xs[i] in r
  {
    if xs == [] then []
    else if p(xs[0]) then [xs[0]] + Filter(xs[1..], p)
    else Filter(xs[1..], p)
  }

  /** Every passing element is kept as often as it occurs. */
  lemma {:induction false} FilterCounts<T>(xs: seq<T>, p: T -> bool)
    ensures forall i :: 0 <= i < |xs| && p(xs[i]) ==> multiset(Filter(xs, p))[xs[i]] == multiset(xs)[xs[i]]
  {
    if xs != [] {
      FilterCounts(xs[1..], p);
      assert xs == [xs[0]] + xs[1..];
      forall i | 0 <= i < |xs| && p(xs[i])
        ensures multiset(Filter(xs, p))[xs[i]] == multiset(xs)[xs[i]]
      {
        var x := xs[i];
        if !p(xs[0]) {
          assert x != xs[0];
          assert x in xs[1..];
        } else if x != xs[0] {
          assert x in xs[1..];
        } else if x !in xs[1..] {
          assert x !in Filter(xs[1..], p);
        }
      }
    }
  }

  /** Filtering distributes over concatenation: the kept elements stay in order. */
  lemma {:induction false} FilterAppend<T>(a: seq<T>, b: seq<T>, p: T -> bool)
    ensures Filter(a + b, p) == Filter(a, p) + Filter(b, p)
  {
    if a == [] {
      assert a + b == b;
    } else {
      assert (a + b)[1..] == a[1..] + b;
      FilterAppend(a[1..], b, p);
    }
  }

  /** Filtering a list whose elements all pass changes nothing. */
  lemma {:induction false} FilterAllPass<T>(xs: seq<T>, p: T -> bool)
    requires forall i :: 0 <= i < |xs| ==> p(xs[i])
    ensures Filter(xs, p) == xs
  {
    if xs != [] {
      FilterAllPass(xs[1..], p);
    }
  }

  /** Filtering a list none of whose elements pass gives the empty list. */
  lemma {:induction false} FilterNonePass<T>(xs: seq<T>, p: T -> bool)
    requires forall i :: 0 <= i < |xs| ==> !p(xs[i])
    ensures Filter(xs, p) == []
  {
    if xs != [] {
      FilterNonePass(xs[1..], p);
    }
  }

  /** Whatever holds of every element holds of every kept element. */
  lemma {:induction false} FilterKeepsProperty<T>(xs: seq<T>, p: T -> bool, q: T -> bool)
    requires forall i :: 0 <= i < |xs| ==> q(xs[i])
    ensures forall i :: 0 <= i < |Filter(xs, p)| ==> q(Filter(xs, p)[i])
  {
    if xs != [] {
      FilterKeepsProperty(xs[1..], p, q);
    }
  }

  /** The filter predicate "key differs from k", named so that proofs can refer to it. */
  function KeyIsNot<T, K(==)>(key: T -> K, k: K): T -> bool {
    x => key(x) != k
  }

  /** The elements whose key is not k, in order. */
  function RemoveWhere<T(==), K(==)>(xs: seq<T>, key: T -> K, k: K): (r: seq<T>)
    ensures |r| <= |xs|
    ensures forall i :: 0 <= i < |r| ==> r[i] in xs && key(r[i]) != k
    ensures forall i :: 0 <= i < |xs| && key(xs[i]) != k ==> xs[i] in r
  {
    Filter(xs, KeyIsNot(key, k))
  }

  /** Removing a key keeps every other element as often as it occurs. */
  lemma RemoveWhereCounts<T, K>(xs: seq<T>, key: T -> K, k: K)
    ensures forall i :: 0 <= i < |xs| && key(xs[i]) != k ==>
              multiset(RemoveWhere(xs, key, k))[xs[i]] == multiset(xs)[xs[i]]
  {
    FilterCounts(xs, KeyIsNot(key, k));
  }

  /** Removing a key that occurs makes the list strictly shorter. */
  lemma {:induction false} RemoveWhereShrinks<T, K>(xs: seq<T>, key: T -> K, k: K, i: int)
    requires 0 <= i < |xs| && key(xs[i]) == k
    ensures |RemoveWhere(xs, key, k)| < |xs|
  {
    if i > 0 {
      RemoveWhereShrinks(xs[1..], key, k, i - 1);
    }
  }

  /** The first element with key k, if any. */
  function FindFirst<T, K(==)>(xs: seq<T>, key: T -> K, k: K): (r: Option<T>)
    ensures r.None? <==> forall i :: 0 <= i < |xs| ==> key(xs[i]) != k
    ensures r.Some? ==> key(r.value) == k && r.value in xs
    ensures forall i :: 0 <= i < |xs| && key(xs[i]) == k && (forall j :: 0 <= j < i ==> key(xs[j]) != k) ==>
                        r == Some(xs[i])
  {
    if xs == [] then None
    else if key(xs[0]) == k then Some(xs[0])
    else
      var r := FindFirst(xs[1..], key, k);
      assert forall i :: 0 < i < |xs| && key(xs[i]) == k && (forall j :: 0 <= j < i ==> key(xs[j]) != k) ==>
                         r == Some(xs[i]) by {
        forall i | 0 < i < |xs| && key(xs[i]) == k && (forall j :: 0 <= j < i ==> key(xs[j]) != k)
          ensures r == Some(xs[i])
        {
          assert xs[i] == xs[1..][i - 1];
          forall j | 0 <= j < i - 1 ensures key(xs[1..][j]) != k {
            assert xs[1..][j] == xs[j + 1];
          }
        }
      }
      r
  }

  /** No two elements share a key. */
  ghost predicate UniqueKeys<T, K>(xs: seq<T>, key: T -> K) {
    forall i, j :: 0 <= i < j < |xs| ==> key(xs[i]) != key(xs[j])
  }

  /** When keys are unique, `find` returns the one element carrying the key. */
  lemma FindFirstUnique<T, K>(xs: seq<T>, key: T -> K, i: int)
    requires UniqueKeys(xs, key) && 0 <= i < |xs|
    ensures FindFirst(xs, key, key(xs[i])) == Some(xs[i])
  {
  }

  /** The largest key, or 0 when no key is larger. */
  function MaxKey<T>(xs: seq<T>, key: T -> int): (m: int)
    ensures m >= 0
    ensures forall i :: 0 <= i < |xs| ==> key(xs[i]) <= m
    ensures m == 0 || exists i :: 0 <= i < |xs| && key(xs[i]) == m
  {
    if xs == [] then 0
    else
      var rest := MaxKey(xs[1..], key);
      assert forall i :: 1 <= i < |xs| ==> key(xs[i]) <= rest by {
        forall i | 1 <= i < |xs| ensures key(xs[i]) <= rest { assert xs[i] == xs[1..][i - 1]; }
      }
      assert rest == 0 || exists i :: 1 <= i < |xs| && key(xs[i]) == rest by {
        if rest != 0 {
          var i :| 0 <= i < |xs| - 1 && key(xs[1..][i]) == rest;
          assert key(xs[i + 1]) == rest;
        }
      }
      if key(xs[0]) > rest then key(xs[0]) else rest
  }

  /** The id handed to a new element, one above the largest key (or 1): above every existing key. */
  function NextKey<T>(xs: seq<T>, key: T -> int): (n: int)
    ensures n >= 1
    ensures forall i :: 0 <= i < |xs| ==> key(xs[i]) < n
  {
    MaxKey(xs, key) + 1
  }

  /** Appending an element whose key is new keeps keys unique. */
  lemma AppendFreshKeepsUnique<T, K>(xs: seq<T>, key: T -> K, x: T)
    requires UniqueKeys(xs, key)
    requires forall i :: 0 <= i < |xs| ==> key(xs[i]) != key(x)
    ensures UniqueKeys(xs + [x], key)
  {
    var ys := xs + [x];
    forall i, j | 0 <= i < j < |ys| ensures key(ys[i]) != key(ys[j]) {
      if j < |xs| { assert ys[i] == xs[i] && ys[j] == xs[j]; }
    }
  }

  /** Rewriting elements without changing their keys keeps keys unique. */
  lemma MapWhereKeepsUnique<T, K>(xs: seq<T>, key: T -> K, k: K, f: T -> T)
    requires UniqueKeys(xs, key)
    requires forall x :: key(x) == k ==> key(f(x)) == k
    ensures UniqueKeys(MapWhere(xs, key, k, f), key)
  {
    var r := MapWhere(xs, key, k, f);
    forall i | 0 <= i < |xs| ensures key(r[i]) == key(xs[i]) {
    }
  }

  /** Filtering keeps keys unique. */
  lemma {:induction false} FilterKeepsUnique<T, K>(xs: seq<T>, p: T -> bool, key: T -> K)
    requires UniqueKeys(xs, key)
    ensures UniqueKeys(Filter(xs, p), key)
  {
    if xs != [] {
      var tail := xs[1..];
      assert UniqueKeys(tail, key) by {
        forall i, j | 0 <= i < j < |tail| ensures key(tail[i]) != key(tail[j]) {
          assert tail[i] == xs[i + 1] && tail[j] == xs[j + 1];
        }
      }
      FilterKeepsUnique(tail, p, key);
      if p(xs[0]) {
        var rt := Filter(tail, p);
        var r := [xs[0]] + rt;
        forall i, j | 0 <= i < j < |r| ensures key(r[i]) != key(r[j]) {
          if i == 0 {
            assert r[j] == rt[j - 1] && rt[j - 1] in tail;
            var m :| 0 <= m < |tail| && tail[m] == rt[j - 1];
            assert xs[m + 1] == tail[m];
          } else {
            assert r[i] == rt[i - 1] && r[j] == rt[j - 1];
          }
        }
      }
    }
  }
}
