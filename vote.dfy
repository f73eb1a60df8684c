/** The plurality vote of the elections: `np.argmax(np.bincount(xs))`
    (learning/v2.py:285-286, learning/v1.py:121-122). `bincount` counts each
    value 0..max(xs); `argmax` returns the first index of the largest count,
    so ties go to the lowest id. `bincount` raises ValueError on a negative
    entry, and `argmax` raises ValueError on the empty array it returns for
    empty input: both are the `None` result. */
module Vote {
  import opened Common

  /** How often `v` occurs in `xs` (entry `v` of `np.bincount(xs)`). */
  function Count(xs: seq<int>, v: int): nat
  {
    multiset(xs)[v]
  }

  function MaxOf(xs: seq<int>): (m: int)
    requires xs != []
    ensures m in xs && forall x :: x in xs ==> x <= m
  {
    if |xs| == 1 then xs[0]
    else
      var rest := MaxOf(xs[1..]);
      assert forall x :: x in xs[1..] ==> x in xs;
      assert forall x :: x in xs ==> x == xs[0] || x in xs[1..];
      if xs[0] >= rest then xs[0] else rest
  }

  /** `argmax` over `bincount` restricted to the values `0 .. hi-1`. */
  function ArgMaxCount(xs: seq<int>, hi: nat): (r: nat)
    requires hi >= 1
    ensures r < hi
    ensures forall v :: 0 <= v < hi ==> Count(xs, v) <= Count(xs, r)
    ensures forall v :: 0 <= v < r ==> Count(xs, v) < Count(xs, r)
  {
    if hi == 1 then 0
    else
      var best := ArgMaxCount(xs, hi - 1);
      if Count(xs, hi - 1) > Count(xs, best) then hi - 1 else best
  }

  /** `w` is a most frequent value of `xs`, and no smaller value is as
      frequent. */
  ghost predicate IsLowestMode(xs: seq<int>, w: int)
  {
    && Count(xs, w) > 0
    && (forall v :: Count(xs, v) <= Count(xs, w))
    && (forall v :: v < w ==> Count(xs, v) < Count(xs, w))
  }

  predicate NonNegative(xs: seq<int>)
  {
    forall x <- xs :: x >= 0
  }

  /** `np.argmax(np.bincount(xs))`, or `None` where numpy raises. */
  function Plurality(xs: seq<int>): Option<nat>
  {
    if xs == [] || !NonNegative(xs) then None
    else Some(ArgMaxCount(xs, MaxOf(xs) + 1))
  }

  /** The vote is the lowest of the most frequent ids, and it exists exactly
      when the input is a non-empty list of non-negative ids. */
  lemma PluralityIsLowestMode(xs: seq<int>)
    ensures Plurality(xs).Some? <==> xs != [] && NonNegative(xs)
    ensures Plurality(xs).Some? ==> IsLowestMode(xs, Plurality(xs).value)
  {
    if xs != [] && NonNegative(xs) {
      var m := MaxOf(xs);
      var w := ArgMaxCount(xs, m + 1);
      assert Count(xs, m) > 0;
      assert Count(xs, w) > 0;
      forall v: int ensures Count(xs, v) <= Count(xs, w) {
        if v < 0 || v > m {
          assert v !in xs;
          assert v !in multiset(xs);
        }
      }
      forall v: int | v < w ensures Count(xs, v) < Count(xs, w) {
        if v < 0 {
          assert v !in xs;
          assert v !in multiset(xs);
        } else {
          assert 0 <= v < w;
        }
      }
    }
  }

  /** At most one value is the lowest mode. */
  lemma LowestModeUnique(xs: seq<int>, a: int, b: int)
    requires IsLowestMode(xs, a) && IsLowestMode(xs, b)
    ensures a == b
  {
  }

  /** The vote depends only on how often each id was proposed, not on the
      order the proposals arrived in: two nodes holding the same proposals
      elect the same leader. */
  lemma PluralityOrderIndependent(xs: seq<int>, ys: seq<int>)
    requires multiset(xs) == multiset(ys)
    ensures Plurality(xs) == Plurality(ys)
  {
    PluralityIsLowestMode(xs);
    PluralityIsLowestMode(ys);
    assert xs == [] <==> ys == [] by {
      assert |xs| == |multiset(xs)| == |multiset(ys)| == |ys|;
    }
    assert NonNegative(xs) <==> NonNegative(ys) by {
      forall x ensures x in xs <==> x in ys {
        assert x in xs <==> x in multiset(xs);
        assert x in ys <==> x in multiset(ys);
      }
    }
    if Plurality(xs).Some? {
      assert forall v :: Count(xs, v) == Count(ys, v);
      LowestModeUnique(xs, Plurality(xs).value, Plurality(ys).value);
    }
  }
}
