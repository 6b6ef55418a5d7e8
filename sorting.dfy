/**
 * Ordering by a numeric key with a bottom element, as `sorted(xs, key=...,
 * reverse=True)` and `nlargest` use it: `x or -float('inf')` keys put 0 and
 * `None` below every number. The sort is a stable insertion sort; its
 * contracts promise the order and the permutation, not the order among ties.
 */
module Sorting {

  /** A sort key: minus infinity or a real number. */
  datatype Key = NegInf | Fin(r: real)

  /** `a >= b` on keys. */
  predicate AtLeast(a: Key, b: Key)
  {
    match (a, b)
    case (_, NegInf) => true
    case (NegInf, Fin(_)) => false
    case (Fin(x), Fin(y)) => x >= y
  }

  lemma AtLeastTotal(a: Key, b: Key)
    ensures AtLeast(a, b) || AtLeast(b, a)
  {
  }

  lemma AtLeastTrans(a: Key, b: Key, c: Key)
    requires AtLeast(a, b) && AtLeast(b, c)
    ensures AtLeast(a, c)
  {
  }

  /** `x or -float('inf')` for a float `x`: zero sorts with minus infinity. */
  function OrNegInf(x: real): (k: Key)
    ensures k == NegInf <==> x == 0.0
  {
    if x == 0.0 then NegInf else Fin(x)
  }

  /** Descending by `key`. */
  ghost predicate Descending<T>(xs: seq<T>, key: T -> Key)
  {
    forall i, j | 0 <= i < j < |xs| :: AtLeast(key(xs[i]), key(xs[j]))
  }

  /** `a > b` on keys. */
  predicate Above(a: Key, b: Key) { !AtLeast(b, a) }

  /** `x` placed before the first element whose key is not above its own, so that ties keep their order. */
  function Insert<T>(x: T, xs: seq<T>, key: T -> Key): (r: seq<T>)
    ensures |r| == |xs| + 1
  {
    if |xs| == 0 then [x]
    else if Above(key(xs[0]), key(x)) then [xs[0]] + Insert(x, xs[1..], key)
    else [x] + xs
  }

  lemma {:induction false} InsertPerm<T>(x: T, xs: seq<T>, key: T -> Key)
    ensures multiset(Insert(x, xs, key)) == multiset(xs) + multiset{x}
  {
    if |xs| > 0 && Above(key(xs[0]), key(x)) {
      InsertPerm(x, xs[1..], key);
      assert xs == [xs[0]] + xs[1..];
    }
  }

  lemma {:induction false} InsertSorted<T>(x: T, xs: seq<T>, key: T -> Key)
    requires Descending(xs, key)
    ensures Descending(Insert(x, xs, key), key)
  {
    var r := Insert(x, xs, key);
    if |xs| == 0 {
    } else if Above(key(xs[0]), key(x)) {
      AtLeastTotal(key(xs[0]), key(x));
      var tail := Insert(x, xs[1..], key);
      assert Descending(xs[1..], key) by {
        forall i, j | 0 <= i < j < |xs[1..]| ensures AtLeast(key(xs[1..][i]), key(xs[1..][j])) {
          assert xs[1..][i] == xs[i + 1] && xs[1..][j] == xs[j + 1];
        }
      }
      InsertSorted(x, xs[1..], key);
      InsertPerm(x, xs[1..], key);
      assert r == [xs[0]] + tail;
      forall j | 0 <= j < |tail| ensures AtLeast(key(xs[0]), key(tail[j])) {
        assert tail[j] in multiset(tail);
        assert tail[j] in multiset(xs[1..]) + multiset{x};
        if tail[j] != x || tail[j] in multiset(xs[1..]) {
          if tail[j] in multiset(xs[1..]) {
            var k :| 0 <= k < |xs[1..]| && xs[1..][k] == tail[j];
            assert xs[1..][k] == xs[k + 1];
          }
        }
      }
      forall i, j | 0 <= i < j < |r| ensures AtLeast(key(r[i]), key(r[j])) {
        if i == 0 {
          assert r[j] == tail[j - 1];
        } else {
          assert r[i] == tail[i - 1] && r[j] == tail[j - 1];
        }
      }
    } else {
      assert r == [x] + xs;
      forall i, j | 0 <= i < j < |r| ensures AtLeast(key(r[i]), key(r[j])) {
        if i == 0 {
          AtLeastTotal(key(xs[0]), key(x));
          if j > 1 {
            assert AtLeast(key(xs[0]), key(xs[j - 1]));
            AtLeastTrans(key(x), key(xs[0]), key(xs[j - 1]));
          }
        } else {
          assert r[i] == xs[i - 1] && r[j] == xs[j - 1];
        }
      }
    }
  }

  /** `sorted(xs, key=key, reverse=True)`. */
  function SortDesc<T>(xs: seq<T>, key: T -> Key): (r: seq<T>)
    ensures |r| == |xs|
  {
    if |xs| == 0 then [] else Insert(xs[0], SortDesc(xs[1..], key), key)
  }

  /** The sorted list is descending by the key and a permutation of the input. */
  lemma {:induction false} SortDescSpec<T>(xs: seq<T>, key: T -> Key)
    ensures Descending(SortDesc(xs, key), key)
    ensures multiset(SortDesc(xs, key)) == multiset(xs)
  {
    if |xs| > 0 {
      SortDescSpec(xs[1..], key);
      InsertSorted(xs[0], SortDesc(xs[1..], key), key);
      InsertPerm(xs[0], SortDesc(xs[1..], key), key);
      assert xs == [xs[0]] + xs[1..];
    }
  }

  /** `xs[:n]` for a non-negative `n`. */
  function Take<T>(xs: seq<T>, n: nat): (r: seq<T>)
    ensures |r| == if n < |xs| then n else |xs|
    ensures r == xs[..|r|]
  {
    if n < |xs| then xs[..n] else xs
  }

  /** A prefix and its rest make up the whole sequence. */
  lemma PrefixRest<T>(s: seq<T>, k: nat)
    requires k <= |s|
    ensures multiset(s) == multiset(s[..k]) + multiset(s[k..])
  {
    assert s == s[..k] + s[k..];
  }

  /** The first `n` items of the sorted list are in descending order. */
  lemma TopDescending<T>(xs: seq<T>, key: T -> Key, n: nat)
    ensures Descending(Take(SortDesc(xs, key), n), key)
  {
    var s := SortDesc(xs, key);
    SortDescSpec(xs, key);
    var r := Take(s, n);
    forall i, j | 0 <= i < j < |r| ensures AtLeast(key(r[i]), key(r[j])) {
      assert r[i] == s[i] && r[j] == s[j];
    }
  }

  /** The first `n` items of the sorted list hold no item more often than the input does. */
  lemma TopSubMultiset<T>(xs: seq<T>, key: T -> Key, n: nat)
    ensures multiset(Take(SortDesc(xs, key), n)) <= multiset(xs)
  {
    var s := SortDesc(xs, key);
    SortDescSpec(xs, key);
    PrefixRest(s, |Take(s, n)|);
  }

  /** An item of the input left out of the first `n` sorted items is at most every item kept. */
  lemma TopAbove<T>(xs: seq<T>, key: T -> Key, n: nat, x: T)
    requires x in xs && x !in Take(SortDesc(xs, key), n)
    ensures var r := Take(SortDesc(xs, key), n);
      forall i | 0 <= i < |r| :: AtLeast(key(r[i]), key(x))
  {
    var s := SortDesc(xs, key);
    SortDescSpec(xs, key);
    var r := Take(s, n);
    assert x in multiset(s);
    var j :| 0 <= j < |s| && s[j] == x;
    assert j >= |r|;
    forall i | 0 <= i < |r| ensures AtLeast(key(r[i]), key(x)) {
      assert r[i] == s[i];
    }
  }

  /** `sorted(...)[:n]`: at most `n` items, descending, each taken from the input, and no kept item below a dropped one. */
  lemma TopSpec<T>(xs: seq<T>, key: T -> Key, n: nat)
    ensures var r := Take(SortDesc(xs, key), n);
      |r| <= n && |r| <= |xs| && Descending(r, key)
      && (forall i | 0 <= i < |r| :: r[i] in multiset(xs))
      && (|xs| <= n ==> multiset(r) == multiset(xs))
      && multiset(r) <= multiset(xs)
      && (forall x | x in xs && x !in r :: forall i | 0 <= i < |r| :: AtLeast(key(r[i]), key(x)))
  {
    var s := SortDesc(xs, key);
    SortDescSpec(xs, key);
    TopSubMultiset(xs, key, n);
    var r := Take(s, n);
    forall x | x in xs && x !in r ensures forall i | 0 <= i < |r| :: AtLeast(key(r[i]), key(x)) {
      TopAbove(xs, key, n, x);
    }
    forall i | 0 <= i < |r| ensures r[i] in multiset(xs) {
      assert r[i] == s[i];
      assert s[i] in multiset(s);
    }
  }

  /** A list without repeats keeps none in its first `n` sorted items. */
  lemma TopDistinct<T>(xs: seq<T>, key: T -> Key, n: nat)
    requires forall i, j | 0 <= i < j < |xs| :: xs[i] != xs[j]
    ensures var r := Take(SortDesc(xs, key), n);
      forall i, j | 0 <= i < j < |r| :: r[i] != r[j]
  {
    var r := Take(SortDesc(xs, key), n);
    TopSubMultiset(xs, key, n);
    forall i, j | 0 <= i < j < |r| ensures r[i] != r[j] {
      if r[i] == r[j] {
        TwiceCounted(r, i, j);
        OnceCounted(xs, r[i]);
        assert false;
      }
    }
  }

  /** An item at two positions is counted at least twice. */
  lemma TwiceCounted<T>(r: seq<T>, i: nat, j: nat)
    requires i < j < |r| && r[i] == r[j]
    ensures multiset(r)[r[i]] >= 2
  {
    PrefixRest(r, j);
    assert r[..j][i] == r[i];
    assert r[j..][0] == r[i];
  }

  /** An item of a list without repeats is counted at most once. */
  lemma {:induction false} OnceCounted<T>(xs: seq<T>, x: T)
    requires forall i, j | 0 <= i < j < |xs| :: xs[i] != xs[j]
    ensures multiset(xs)[x] <= 1
  {
    if |xs| > 0 {
      var t := xs[1..];
      assert forall i, j | 0 <= i < j < |t| :: t[i] != t[j] by {
        forall i, j | 0 <= i < j < |t| ensures t[i] != t[j] {
          assert t[i] == xs[i + 1] && t[j] == xs[j + 1];
        }
      }
      OnceCounted(t, x);
      assert xs == [xs[0]] + t;
      if xs[0] == x {
        assert x !in t by {
          forall k | 0 <= k < |t| ensures t[k] != x {
            assert t[k] == xs[k + 1];
          }
        }
      }
    }
  }
}
