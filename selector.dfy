/** `_select_leader`, which learning/v1.py:26-48 and learning/v2.py:41-68
    share: with probability ε it explores (a random draw of `topn + 1`
    distinct ids, minus the current leader), otherwise it is greedy (the
    `topn` ids of lowest failure estimate). Either way the ids come back
    sorted ascending. The random draw and the uniform number compared with ε
    are parameters. */
module Selector {
  import opened Common

  /** `int((n - 1) / 3)`: Python's true division, truncated toward zero. */
  function TopN(n: nat): (k: nat)
    ensures 3 * k <= n
    ensures n >= 1 ==> n - 1 < 3 * (k + 1)
  {
    if n == 0 then 0 else (n - 1) / 3
  }

  /** `TopN(n)` is exactly the truncated quotient: 0 without nodes, and
      otherwise the largest `k` with `3k <= n - 1`. */
  lemma TopNFloor(n: nat, k: nat)
    ensures n == 0 ==> TopN(n) == 0
    ensures n >= 1 ==> 3 * TopN(n) <= n - 1
    ensures n >= 1 && 3 * k <= n - 1 ==> k <= TopN(n)
  {
  }

  /** ε after one selection: multiplied by the decay factor
      (learning/v1.py:46, learning/v2.py:65). */
  function Decayed(epsilon: real, decay: real): real
  {
    epsilon * decay
  }

  /** Every id in `ks` indexes the estimate vector. */
  predicate Indexes(ks: seq<int>, n: nat)
  {
    forall i :: 0 <= i < |ks| ==> 0 <= ks[i] < n
  }

  /** `ks` lists ids by non-increasing estimate. */
  predicate DescendingBy(est: seq<real>, ks: seq<int>)
    requires Indexes(ks, |est|)
  {
    forall i, j :: 0 <= i < j < |ks| ==> est[ks[i]] >= est[ks[j]]
  }

  /** Places `x` before the first id whose estimate is not larger. */
  function InsertBy(est: seq<real>, x: int, ks: seq<int>): (r: seq<int>)
    requires 0 <= x < |est| && Indexes(ks, |est|)
    ensures Indexes(r, |est|)
    ensures multiset(r) == multiset{x} + multiset(ks)
  {
    if ks == [] || est[ks[0]] <= est[x] then [x] + ks
    else
      assert ks == [ks[0]] + ks[1..];
      [ks[0]] + InsertBy(est, x, ks[1..])
  }

  /** `(-est).argsort()`: ids in order of non-increasing estimate. numpy's
      default sort is not stable, so among equal estimates any order may
      come back; this one keeps the ids in ascending order. */
  function ArgSortDesc(est: seq<real>, ks: seq<int>): (r: seq<int>)
    requires Indexes(ks, |est|)
    ensures Indexes(r, |est|)
    ensures multiset(r) == multiset(ks)
  {
    if ks == [] then []
    else
      assert ks == [ks[0]] + ks[1..];
      InsertBy(est, ks[0], ArgSortDesc(est, ks[1..]))
  }

  lemma {:induction false} InsertByUpper(est: seq<real>, x: int, ks: seq<int>, m: real)
    requires 0 <= x < |est| && Indexes(ks, |est|)
    requires est[x] <= m && forall i :: 0 <= i < |ks| ==> est[ks[i]] <= m
    ensures forall i :: 0 <= i < |InsertBy(est, x, ks)| ==> est[InsertBy(est, x, ks)[i]] <= m
  {
    if ks != [] && est[ks[0]] > est[x] {
      InsertByUpper(est, x, ks[1..], m);
    }
  }

  lemma {:induction false} InsertByDescending(est: seq<real>, x: int, ks: seq<int>)
    requires 0 <= x < |est| && Indexes(ks, |est|) && DescendingBy(est, ks)
    ensures DescendingBy(est, InsertBy(est, x, ks))
  {
    if ks != [] && est[ks[0]] > est[x] {
      var t := InsertBy(est, x, ks[1..]);
      assert DescendingBy(est, ks[1..]) by {
        forall i, j | 0 <= i < j < |ks[1..]| ensures est[ks[1..][i]] >= est[ks[1..][j]] {
          assert ks[1..][i] == ks[i + 1] && ks[1..][j] == ks[j + 1];
        }
      }
      InsertByDescending(est, x, ks[1..]);
      assert forall i :: 0 <= i < |ks[1..]| ==> est[ks[1..][i]] <= est[ks[0]] by {
        forall i | 0 <= i < |ks[1..]| ensures est[ks[1..][i]] <= est[ks[0]] {
          assert ks[1..][i] == ks[i + 1];
        }
      }
      InsertByUpper(est, x, ks[1..], est[ks[0]]);
      var r := [ks[0]] + t;
      forall i, j | 0 <= i < j < |r| ensures est[r[i]] >= est[r[j]] {
        assert r[j] == t[j - 1];
        if i > 0 {
          assert r[i] == t[i - 1];
        }
      }
    }
  }

  lemma {:induction false} ArgSortDescending(est: seq<real>, ks: seq<int>)
    requires Indexes(ks, |est|)
    ensures DescendingBy(est, ArgSortDesc(est, ks))
  {
    if ks != [] {
      ArgSortDescending(est, ks[1..]);
      InsertByDescending(est, ks[0], ArgSortDesc(est, ks[1..]));
    }
  }

  /** `s[-k:]`: the last `k` elements, or all of `s` when `k` is zero (the
      slice `[-0:]`) or at least `|s|`. */
  function LastK(s: seq<int>, k: nat): (r: seq<int>)
    ensures |r| == if k == 0 || k >= |s| then |s| else k
  {
    if k == 0 || k >= |s| then s else s[|s| - k..]
  }

  /** The greedy branch: `np.sort((-est).argsort()[-topn:])`. */
  function Greedy(est: seq<real>, topn: nat): seq<int>
  {
    RangeMembers(0, |est|);
    SortAsc(LastK(ArgSortDesc(est, Range(0, |est|)), topn))
  }

  /** How many ids the greedy branch proposes. */
  function GreedySize(n: nat, topn: nat): nat
  {
    if topn == 0 || topn >= n then n else topn
  }

  /** The argsort of all ids lists each id once, by non-increasing
      estimate. */
  lemma {:induction false} ArgSortAll(est: seq<real>)
    ensures Indexes(Range(0, |est|), |est|)
    ensures |ArgSortDesc(est, Range(0, |est|))| == |est|
    ensures Distinct(ArgSortDesc(est, Range(0, |est|)))
    ensures forall j :: 0 <= j < |est| ==> j in ArgSortDesc(est, Range(0, |est|))
    ensures DescendingBy(est, ArgSortDesc(est, Range(0, |est|)))
  {
    var all := Range(0, |est|);
    RangeMembers(0, |est|);
    var order := ArgSortDesc(est, all);
    ArgSortDescending(est, all);
    DistinctByMultiset(all, order);
    assert |order| == |all| by {
      assert |multiset(order)| == |multiset(all)|;
    }
    forall j | 0 <= j < |est| ensures j in order {
      assert j in all;
      assert j in multiset(all);
    }
  }

  /** A suffix of a descending order holds ids whose estimates are at most
      those of the ids before it. */
  lemma {:induction false} SuffixBound(est: seq<real>, order: seq<int>, k: nat)
    requires Indexes(order, |est|) && DescendingBy(est, order) && k <= |order|
    ensures forall i, j :: i in order[k..] && j in order && j !in order[k..] ==> est[i] <= est[j]
  {
    assert order == order[..k] + order[k..];
    forall i, j | i in order[k..] && j in order && j !in order[k..] ensures est[i] <= est[j] {
      var p :| 0 <= p < |order[k..]| && order[k..][p] == i;
      assert j in order[..k];
      var q :| 0 <= q < k && order[..k][q] == j;
      assert order[q] == j && order[p + k] == i;
    }
  }

  /** The greedy branch proposes `topn` distinct ids (all of them when
      `topn` is zero or at least N), sorted ascending, and no id left out has
      a lower estimate than an id proposed. */
  lemma GreedyChoice(est: seq<real>, topn: nat)
    ensures StrictlyAscending(Greedy(est, topn))
    ensures |Greedy(est, topn)| == GreedySize(|est|, topn)
    ensures forall i <- Greedy(est, topn) :: 0 <= i < |est|
    ensures forall i, j :: i in Greedy(est, topn) && 0 <= j < |est| && j !in Greedy(est, topn) ==> est[i] <= est[j]
  {
    ArgSortAll(est);
    var order := ArgSortDesc(est, Range(0, |est|));
    assert Greedy(est, topn) == SortAsc(LastK(order, topn));
    GreedyOf(est, order, topn);
  }

  /** `GreedyChoice` for any descending order of all ids. */
  lemma GreedyOf(est: seq<real>, order: seq<int>, topn: nat)
    requires Indexes(order, |est|) && DescendingBy(est, order) && |order| == |est|
    requires Distinct(order) && forall j :: 0 <= j < |est| ==> j in order
    ensures var g := SortAsc(LastK(order, topn));
      && StrictlyAscending(g)
      && |g| == GreedySize(|est|, topn)
      && (forall i <- g :: 0 <= i < |est|)
      && (forall i, j :: i in g && 0 <= j < |est| && j !in g ==> est[i] <= est[j])
  {
    var chosen := LastK(order, topn);
    var k := |order| - |chosen|;
    assert chosen == order[k..];
    SuffixChoice(est, order, k);
    SortDistinct(chosen);
    SameMembersChoice(est, chosen, SortAsc(chosen));
  }

  /** The bounds and the choice facts depend only on which ids are chosen. */
  lemma SameMembersChoice(est: seq<real>, c: seq<int>, g: seq<int>)
    requires forall x :: x in g <==> x in c
    requires forall i <- c :: 0 <= i < |est|
    requires forall i, j :: i in c && 0 <= j < |est| && j !in c ==> est[i] <= est[j]
    ensures forall i <- g :: 0 <= i < |est|
    ensures forall i, j :: i in g && 0 <= j < |est| && j !in g ==> est[i] <= est[j]
  {
  }

  /** The ids of a suffix of a descending order of all ids are distinct
      ids, none of them with a higher estimate than an id left out. */
  lemma SuffixChoice(est: seq<real>, order: seq<int>, k: nat)
    requires Indexes(order, |est|) && DescendingBy(est, order) && k <= |order|
    requires Distinct(order) && forall j :: 0 <= j < |est| ==> j in order
    ensures Distinct(order[k..])
    ensures forall i <- order[k..] :: 0 <= i < |est|
    ensures forall i, j :: i in order[k..] && 0 <= j < |est| && j !in order[k..] ==> est[i] <= est[j]
  {
    var chosen := order[k..];
    assert Distinct(chosen) by {
      forall a, b | 0 <= a < b < |chosen| ensures chosen[a] != chosen[b] {
        assert chosen[a] == order[a + k] && chosen[b] == order[b + k];
      }
    }
    SuffixBound(est, order, k);
    forall i <- chosen ensures 0 <= i < |est| {
      var p :| 0 <= p < |chosen| && chosen[p] == i;
      assert order[p + k] == i;
    }
  }

  /** Whether `rng.choice(n, size=topn + 1, replace=False)` raises: numpy
      refuses to draw more distinct ids than there are. */
  predicate DrawRaises(n: nat, topn: nat)
  {
    topn + 1 > n
  }

  /** What `rng.choice(n, size=topn + 1, replace=False)` may return: that
      many distinct ids below `n`. */
  predicate ValidDraw(draw: seq<int>, n: nat, topn: nat)
  {
    |draw| == topn + 1 && Distinct(draw) && forall x <- draw :: 0 <= x < n
  }

  /** The exploring branch. `draw` is the random draw; when the draw raises,
      the program falls back to `np.arange(-1, n)`. The current leader is
      removed from the ids if present; otherwise the first `topn` are kept. */
  function Explore(draw: seq<int>, n: nat, topn: nat, leader: int): seq<int>
    requires !DrawRaises(n, topn) ==> ValidDraw(draw, n, topn)
  {
    var ids := if DrawRaises(n, topn) then Range(-1, n) else draw;
    SortAsc(if leader in ids then Without(ids, leader) else ids[..if topn <= |ids| then topn else |ids|])
  }

  /** The exploring branch never proposes the current leader, proposes
      distinct ids in ascending order, draws them from `-1 .. n-1` (and only
      from `0 .. n-1` when the draw does not raise), and proposes exactly
      `topn` ids when the draw does not raise. */
  lemma ExploreChoice(draw: seq<int>, n: nat, topn: nat, leader: int)
    requires !DrawRaises(n, topn) ==> ValidDraw(draw, n, topn)
    ensures leader !in Explore(draw, n, topn, leader)
    ensures StrictlyAscending(Explore(draw, n, topn, leader))
    ensures forall i <- Explore(draw, n, topn, leader) :: -1 <= i < n
    ensures !DrawRaises(n, topn) ==> forall i <- Explore(draw, n, topn, leader) :: 0 <= i < n
    ensures !DrawRaises(n, topn) ==> |Explore(draw, n, topn, leader)| == topn
  {
    RangeMembers(-1, n);
    var ids := if DrawRaises(n, topn) then Range(-1, n) else draw;
    assert Distinct(ids);
    assert forall x <- ids :: -1 <= x < n;
    var kept := if leader in ids then Without(ids, leader) else ids[..if topn <= |ids| then topn else |ids|];
    if leader in ids {
      WithoutDistinct(ids, leader);
    } else {
      var m := if topn <= |ids| then topn else |ids|;
      assert Distinct(kept) by {
        forall a, b | 0 <= a < b < |kept| ensures kept[a] != kept[b] {
          assert kept[a] == ids[a] && kept[b] == ids[b];
        }
      }
      assert forall x <- kept :: x in ids by {
        forall x <- kept ensures x in ids {
          var p :| 0 <= p < |kept| && kept[p] == x;
          assert ids[p] == x;
        }
      }
    }
    SortDistinct(kept);
  }

  /** One call of `_select_leader`: the exploring branch when the uniform
      number `u` is below ε. */
  function Choose(u: real, epsilon: real, est: seq<real>, topn: nat, leader: int, draw: seq<int>): seq<int>
    requires u < epsilon && !DrawRaises(|est|, topn) ==> ValidDraw(draw, |est|, topn)
  {
    if u < epsilon then Explore(draw, |est|, topn, leader) else Greedy(est, topn)
  }

  /** Whatever branch is taken, the proposal is strictly ascending (so free
      of repeats) and holds ids from `-1 .. N-1`. */
  lemma ChooseWellFormed(u: real, epsilon: real, est: seq<real>, topn: nat, leader: int, draw: seq<int>)
    requires u < epsilon && !DrawRaises(|est|, topn) ==> ValidDraw(draw, |est|, topn)
    ensures StrictlyAscending(Choose(u, epsilon, est, topn, leader, draw))
    ensures forall i <- Choose(u, epsilon, est, topn, leader, draw) :: -1 <= i < |est|
  {
    if u < epsilon {
      ExploreChoice(draw, |est|, topn, leader);
    } else {
      GreedyChoice(est, topn);
    }
  }

  /** Both engines call the selector with `topn = int((N - 1) / 3)`, and
      for that size the draw never raises: the `np.arange(-1, N)` fallback,
      and with it the id -1, is never reached from them. */
  lemma TopNNeverRaises(n: nat)
    requires n >= 1
    ensures !DrawRaises(n, TopN(n))
  {
  }

  /** With `topn = int((N - 1) / 3)` every proposal holds real node ids:
      `0 .. N-1`. */
  lemma ChooseTopNIds(u: real, epsilon: real, est: seq<real>, leader: int, draw: seq<int>)
    requires |est| >= 1
    requires u < epsilon ==> ValidDraw(draw, |est|, TopN(|est|))
    ensures forall i <- Choose(u, epsilon, est, TopN(|est|), leader, draw) :: 0 <= i < |est|
  {
    TopNNeverRaises(|est|);
    if u < epsilon {
      ExploreChoice(draw, |est|, TopN(|est|), leader);
    } else {
      GreedyChoice(est, TopN(|est|));
    }
  }
}
