/** List comprehensions with a condition: `[x for x in xs if p(x)]` and the positions it keeps. */
module Lists {

  /** `[x for x in xs if p(x)]` */
  function Filter<T>(xs: seq<T>, p: T -> bool): (r: seq<T>)
    ensures |r| <= |xs|
    ensures forall k | 0 <= k < |r| :: p(r[k])
  {
    if |xs| == 0 then [] else (if p(xs[0]) then [xs[0]] else []) + Filter(xs[1..], p)
  }

  /** Every position moved one place on. */
  function Shift(idx: seq<nat>): (r: seq<nat>)
    ensures |r| == |idx| && forall k | 0 <= k < |idx| :: r[k] == idx[k] + 1
  {
    if |idx| == 0 then [] else [idx[0] + 1] + Shift(idx[1..])
  }

  /** The positions of `xs` the filter keeps, in increasing order. */
  function Kept<T>(xs: seq<T>, p: T -> bool): (idx: seq<nat>)
  {
    if |xs| == 0 then [] else (if p(xs[0]) then [0] else []) + Shift(Kept(xs[1..], p))
  }

  /** The kept positions are the positions of the filter's elements. */
  lemma {:induction false} KeptPositions<T>(xs: seq<T>, p: T -> bool)
    ensures |Kept(xs, p)| == |Filter(xs, p)|
    ensures forall k | 0 <= k < |Kept(xs, p)| :: Kept(xs, p)[k] < |xs| && Filter(xs, p)[k] == xs[Kept(xs, p)[k]]
  {
    if |xs| > 0 {
      KeptPositions(xs[1..], p);
      var tr, ti := Filter(xs[1..], p), Kept(xs[1..], p);
      var tail := Shift(ti);
      forall k | 0 <= k < |ti| ensures tail[k] < |xs| && tr[k] == xs[tail[k]] {
        assert xs[1..][ti[k]] == xs[tail[k]];
      }
      if p(xs[0]) {
        assert Kept(xs, p) == [0] + tail;
        assert Filter(xs, p) == [xs[0]] + tr;
      } else {
        assert Kept(xs, p) == tail;
        assert Filter(xs, p) == tr;
      }
    }
  }

  /** The kept positions increase. */
  lemma {:induction false} KeptIncreasing<T>(xs: seq<T>, p: T -> bool)
    ensures forall k, l | 0 <= k < l < |Kept(xs, p)| :: Kept(xs, p)[k] < Kept(xs, p)[l]
  {
    if |xs| > 0 {
      KeptIncreasing(xs[1..], p);
      var tail := Shift(Kept(xs[1..], p));
      if p(xs[0]) {
        assert Kept(xs, p) == [0] + tail;
      } else {
        assert Kept(xs, p) == tail;
      }
    }
  }

  /** Every position where `p` holds is kept. */
  lemma {:induction false} KeptComplete<T>(xs: seq<T>, p: T -> bool, i: nat)
    requires i < |xs| && p(xs[i])
    ensures i in Kept(xs, p)
  {
    if i == 0 {
      assert Kept(xs, p)[0] == 0;
    } else {
      assert xs[1..][i - 1] == xs[i];
      KeptComplete(xs[1..], p, i - 1);
      var ti := Kept(xs[1..], p);
      var k :| 0 <= k < |ti| && ti[k] == i - 1;
      assert Shift(ti)[k] == i;
      if p(xs[0]) {
        assert Kept(xs, p) == [0] + Shift(ti);
        assert Kept(xs, p)[k + 1] == i;
      } else {
        assert Kept(xs, p) == Shift(ti);
      }
    }
  }

  /**
   * The filter keeps the input's order: its result is the input at strictly
   * increasing positions, exactly the positions where `p` holds.
   */
  lemma FilterKeepsOrder<T>(xs: seq<T>, p: T -> bool)
    ensures var r, idx := Filter(xs, p), Kept(xs, p);
      |idx| == |r|
      && (forall k | 0 <= k < |idx| :: idx[k] < |xs| && r[k] == xs[idx[k]])
      && (forall k, l | 0 <= k < l < |idx| :: idx[k] < idx[l])
      && (forall i | 0 <= i < |xs| && p(xs[i]) :: i in idx)
  {
    KeptPositions(xs, p);
    KeptIncreasing(xs, p);
    forall i | 0 <= i < |xs| && p(xs[i]) ensures i in Kept(xs, p) {
      KeptComplete(xs, p, i);
    }
  }

  /** Every element the filter keeps comes from the input and satisfies the condition. */
  lemma FilterSubset<T>(xs: seq<T>, p: T -> bool)
    ensures forall x | x in Filter(xs, p) :: x in xs && p(x)
  {
    KeptPositions(xs, p);
    forall x | x in Filter(xs, p) ensures x in xs {
      var k :| 0 <= k < |Filter(xs, p)| && Filter(xs, p)[k] == x;
      assert x == xs[Kept(xs, p)[k]];
    }
  }

  /** An element of the input that satisfies the condition is kept. */
  lemma FilterKeeps<T>(xs: seq<T>, p: T -> bool, x: T)
    requires x in xs && p(x)
    ensures x in Filter(xs, p)
  {
    var i :| 0 <= i < |xs| && xs[i] == x;
    FilterKeepsOrder(xs, p);
    var k :| 0 <= k < |Kept(xs, p)| && Kept(xs, p)[k] == i;
    assert Filter(xs, p)[k] == x;
  }

  /** The filter keeps exactly the elements of the input that satisfy the condition. */
  lemma FilterMembers<T>(xs: seq<T>, p: T -> bool)
    ensures forall x :: x in Filter(xs, p) <==> x in xs && p(x)
  {
    FilterSubset(xs, p);
    forall x | x in xs && p(x) ensures x in Filter(xs, p) {
      FilterKeeps(xs, p, x);
    }
  }

  /** The filter keeps no element more often than the input holds it. */
  lemma {:induction false} FilterSubMultiset<T>(xs: seq<T>, p: T -> bool)
    ensures multiset(Filter(xs, p)) <= multiset(xs)
    decreases |xs|
  {
    if |xs| > 0 {
      FilterSubMultiset(xs[1..], p);
      assert xs == [xs[0]] + xs[1..];
    }
  }

  /** `[m(x) for x in xs]` */
  function Map<T, U>(xs: seq<T>, m: T -> U): (r: seq<U>)
    ensures |r| == |xs| && forall i | 0 <= i < |xs| :: r[i] == m(xs[i])
  {
    seq(|xs|, i requires 0 <= i < |xs| => m(xs[i]))
  }

  /** `r` is `xs` with some elements left out, the rest in their order. */
  predicate SubsequenceOf<T(==)>(r: seq<T>, xs: seq<T>)
    decreases |xs|
  {
    if |r| == 0 then true
    else if |xs| == 0 then false
    else (r[0] == xs[0] && SubsequenceOf(r[1..], xs[1..])) || SubsequenceOf(r, xs[1..])
  }

  lemma {:induction false} SubsequenceRefl<T>(xs: seq<T>)
    ensures SubsequenceOf(xs, xs)
    decreases |xs|
  {
    if |xs| > 0 {
      SubsequenceRefl(xs[1..]);
    }
  }

  lemma {:induction false} SubsequenceTrans<T>(a: seq<T>, b: seq<T>, c: seq<T>)
    requires SubsequenceOf(a, b) && SubsequenceOf(b, c)
    ensures SubsequenceOf(a, c)
    decreases |c|
  {
    if |a| > 0 {
      if b[0] == c[0] && SubsequenceOf(b[1..], c[1..]) {
        if a[0] == b[0] && SubsequenceOf(a[1..], b[1..]) {
          SubsequenceTrans(a[1..], b[1..], c[1..]);
        } else {
          SubsequenceTrans(a, b[1..], c[1..]);
        }
      } else {
        SubsequenceTrans(a, b, c[1..]);
      }
    }
  }

  /** Seen through any view `m`, the filter's result is a subsequence of its input. */
  lemma {:induction false} FilterSubsequence<T, U>(xs: seq<T>, p: T -> bool, m: T -> U)
    ensures SubsequenceOf(Map(Filter(xs, p), m), Map(xs, m))
    decreases |xs|
  {
    if |xs| > 0 {
      FilterSubsequence(xs[1..], p, m);
      var rest := Map(Filter(xs[1..], p), m);
      assert Map(xs, m)[1..] == Map(xs[1..], m);
      if p(xs[0]) {
        assert Filter(xs, p) == [xs[0]] + Filter(xs[1..], p);
        assert Map(Filter(xs, p), m) == [m(xs[0])] + rest;
        assert (Map(Filter(xs, p), m))[1..] == rest;
      } else {
        assert Filter(xs, p) == Filter(xs[1..], p);
      }
    }
  }

  /** A condition no element meets keeps nothing. */
  lemma {:induction false} FilterNothing<T>(xs: seq<T>, p: T -> bool)
    ensures (forall k | 0 <= k < |xs| :: !p(xs[k])) ==> Filter(xs, p) == []
    decreases |xs|
  {
    if |xs| > 0 {
      FilterNothing(xs[1..], p);
      assert (forall k | 0 <= k < |xs| :: !p(xs[k])) ==> (forall k | 0 <= k < |xs[1..]| :: !p(xs[1..][k]));
    }
  }
}
