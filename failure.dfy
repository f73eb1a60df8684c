/** The failure-injection round shared by learning/environment_v2.py and
    learning/environment_v2_non_stationary.py: draw alive nodes to fail until
    enough are failing, cut the draw down so that at most `max_failed_nodes`
    are dead, mark the drawn nodes dead and tell every node whether it is
    failed. `machine_status` holds 1 for an alive node and 0 for a dead one.
    The binomial draws arrive as one vector of outcomes per pass, and
    `choice` without replacement as a function `choose`. */
module FailureInjection {
  import opened Common

  predicate StatusOk(status: seq<int>)
  {
    forall i :: 0 <= i < |status| ==> status[i] == 0 || status[i] == 1
  }

  /** `total_nodes - np.sum(machine_status)`. */
  function Dead(status: seq<int>): int
  {
    |status| - Sum(status)
  }

  /** Node ids of alive nodes. */
  predicate AliveIds(status: seq<int>, ids: seq<int>)
  {
    forall k :: 0 <= k < |ids| ==> 0 <= ids[k] < |status| && status[ids[k]] == 1
  }

  /** One binomial outcome per node for every pass. */
  predicate PassesOk(passes: seq<seq<bool>>, n: nat)
  {
    forall k :: 0 <= k < |passes| ==> |passes[k]| == n
  }

  /** `np.random.choice(xs, k, replace=False)` for `0 <= k <= len(xs)`:
      `k` of the entries, none used twice. */
  ghost predicate ChoiceOk(choose: (seq<int>, int) -> seq<int>)
  {
    forall xs, k :: 0 <= k <= |xs| ==> |choose(xs, k)| == k && multiset(choose(xs, k)) <= multiset(xs)
  }

  /** The loop test of environment_v2.py:67: fewer than the wanted minimum of
      nodes would be failing. */
  function Short(count: int, dead: int, minFailFraction: real, maxFailedNodes: int): bool
  {
    ((count + dead) as real) < minFailFraction * (maxFailedNodes as real)
  }

  /** The `for` loop of environment_v2.py:70-73 from node `idx` on: a node
      is added when it is not drawn yet, alive, and its binomial draw hit. */
  function Pass(status: seq<int>, hits: seq<bool>, indices: seq<int>, idx: nat): seq<int>
    requires |hits| == |status|
    decreases |status| - idx
  {
    if idx >= |status| then indices
    else
      var take := idx !in indices && status[idx] == 1 && hits[idx];
      Pass(status, hits, if take then indices + [idx] else indices, idx + 1)
  }

  /** The `while` loop of environment_v2.py:67-73, one pass per entry of
      `passes`, until the minimum is reached or the draws run out. */
  function Gather(status: seq<int>, passes: seq<seq<bool>>, indices: seq<int>,
                  minFailFraction: real, maxFailedNodes: int): seq<int>
    requires PassesOk(passes, |status|)
    decreases |passes|
  {
    if !Short(|indices|, Dead(status), minFailFraction, maxFailedNodes) || passes == [] then indices
    else Gather(status, passes[1..], Pass(status, passes[0], indices, 0), minFailFraction, maxFailedNodes)
  }

  /** Adding an alive node that is not drawn yet keeps the draw distinct
      and alive. */
  lemma AddFresh(status: seq<int>, indices: seq<int>, x: int)
    requires Distinct(indices) && AliveIds(status, indices)
    requires x !in indices && 0 <= x < |status| && status[x] == 1
    ensures Distinct(indices + [x]) && AliveIds(status, indices + [x])
  {
    var r := indices + [x];
    forall i, j | 0 <= i < j < |r| ensures r[i] != r[j] {
      if j == |indices| {
        assert r[i] == indices[i];
      }
    }
  }

  /** A pass only adds alive nodes that were not drawn yet, after the ones
      already drawn. */
  lemma {:induction false} PassFacts(status: seq<int>, hits: seq<bool>, indices: seq<int>, idx: nat)
    requires |hits| == |status| && Distinct(indices) && AliveIds(status, indices)
    ensures var r := Pass(status, hits, indices, idx);
      Distinct(r) && AliveIds(status, r) && |indices| <= |r| && r[..|indices|] == indices
    decreases |status| - idx
  {
    if idx < |status| {
      var take := idx !in indices && status[idx] == 1 && hits[idx];
      var next := if take then indices + [idx] else indices;
      if take {
        AddFresh(status, indices, idx);
      }
      PassFacts(status, hits, next, idx + 1);
      var r := Pass(status, hits, next, idx + 1);
      assert r == Pass(status, hits, indices, idx);
      assert r[..|indices|] == r[..|next|][..|indices|];
      assert next[..|indices|] == indices;
    } else {
      assert indices[..|indices|] == indices;
    }
  }

  /** Drawn nodes are distinct alive node ids. */
  lemma {:induction false} GatherFacts(status: seq<int>, passes: seq<seq<bool>>, indices: seq<int>,
                                       minFailFraction: real, maxFailedNodes: int)
    requires PassesOk(passes, |status|) && Distinct(indices) && AliveIds(status, indices)
    ensures var r := Gather(status, passes, indices, minFailFraction, maxFailedNodes);
      Distinct(r) && AliveIds(status, r)
    decreases |passes|
  {
    if Short(|indices|, Dead(status), minFailFraction, maxFailedNodes) && passes != [] {
      PassFacts(status, passes[0], indices, 0);
      GatherFacts(status, passes[1..], Pass(status, passes[0], indices, 0), minFailFraction, maxFailedNodes);
    }
  }

  /** environment_v2.py:76-81: too many failing nodes are cut down to
      `max_failed_nodes - dead` by a draw without replacement; a negative
      size makes `choice` raise `ValueError`. */
  function Cap(indices: seq<int>, dead: int, maxFailedNodes: int, choose: (seq<int>, int) -> seq<int>): (Status, seq<int>)
  {
    if |indices| + dead > maxFailedNodes then
      if maxFailedNodes - dead < 0 then (Raised(ValueError), indices)
      else (Completed, choose(indices, maxFailedNodes - dead))
    else (Completed, indices)
  }

  /** The cap raises exactly when more than `max_failed_nodes` nodes were
      already dead; otherwise what it keeps are distinct drawn nodes and at
      most `max_failed_nodes` are failing. */
  lemma CapFacts(status: seq<int>, indices: seq<int>, maxFailedNodes: int, choose: (seq<int>, int) -> seq<int>)
    requires Distinct(indices) && AliveIds(status, indices) && ChoiceOk(choose)
    ensures var (st, kept) := Cap(indices, Dead(status), maxFailedNodes, choose);
      && (st != Completed <==> Dead(status) > maxFailedNodes)
      && (st == Completed ==>
            |kept| + Dead(status) <= maxFailedNodes && Distinct(kept) && AliveIds(status, kept)
            && forall x :: x in kept ==> x in indices)
  {
    var dead := Dead(status);
    if |indices| + dead > maxFailedNodes && maxFailedNodes - dead >= 0 {
      var kept := choose(indices, maxFailedNodes - dead);
      DistinctByMultiset(indices, kept);
      forall x | x in kept ensures x in indices {
        assert x in multiset(kept);
      }
      forall k | 0 <= k < |kept| ensures 0 <= kept[k] < |status| && status[kept[k]] == 1 {
        assert kept[k] in indices;
      }
    }
  }

  /** environment_v2.py:89-92: the drawn nodes become dead. */
  function Mark(status: seq<int>, indices: seq<int>): (r: seq<int>)
    ensures |r| == |status|
  {
    seq(|status|, i requires 0 <= i < |status| => if i in indices then 0 else status[i])
  }

  /** environment_v2.py:89-96: `failVal` is "True" for a drawn node and,
      for any other, exactly when it is already dead. */
  function Told(status: seq<int>, indices: seq<int>): (r: seq<bool>)
    ensures |r| == |status|
  {
    seq(|status|, i requires 0 <= i < |status| => i in indices || status[i] == 0)
  }

  /** After marking, every node has been told "True" exactly when it is
      dead; drawn nodes are dead and the others keep their status. */
  lemma TellsDead(status: seq<int>, indices: seq<int>)
    ensures forall i :: 0 <= i < |status| ==> (Told(status, indices)[i] <==> Mark(status, indices)[i] == 0)
    ensures forall i :: 0 <= i < |status| && i in indices ==> Mark(status, indices)[i] == 0
    ensures forall i :: 0 <= i < |status| && i !in indices ==> Mark(status, indices)[i] == status[i]
  {
  }

  /** Marking `k` distinct alive nodes adds exactly `k` dead ones. */
  lemma {:induction false} MarkDead(status: seq<int>, indices: seq<int>)
    requires StatusOk(status) && Distinct(indices) && AliveIds(status, indices)
    ensures StatusOk(Mark(status, indices))
    ensures Dead(Mark(status, indices)) == Dead(status) + |indices|
    decreases |indices|
  {
    if indices != [] {
      var xs := indices[..|indices| - 1];
      var x := indices[|indices| - 1];
      assert indices == xs + [x];
      assert Distinct(xs) && AliveIds(status, xs) by {
        forall k | 0 <= k < |xs| ensures xs[k] == indices[k] { }
      }
      MarkDead(status, xs);
      var m := Mark(status, xs);
      assert x !in xs by {
        forall k | 0 <= k < |xs| ensures xs[k] != x {
          assert xs[k] == indices[k];
        }
      }
      assert m[x] == 1;
      assert Mark(status, indices) == m[x := 0];
      SumUpdate(m, x, 0);
    } else {
      assert Mark(status, indices) == status;
    }
  }

  /** A repair never adds a dead node, and revives one that was dead. */
  lemma RepairDead(status: seq<int>, i: int)
    requires StatusOk(status) && 0 <= i < |status|
    ensures StatusOk(status[i := 1])
    ensures Dead(status[i := 1]) == if status[i] == 0 then Dead(status) - 1 else Dead(status)
  {
    SumUpdate(status, i, 1);
  }

  /** The outcome of one round: how it ended, the nodes drawn, the new
      `machine_status`, and one `failVal` per node contacted. */
  datatype Outcome = Outcome(status: Status, indices: seq<int>, machines: seq<int>, told: seq<bool>)

  /** The draw and the cap, as environment_v2.py:63-81 make them. */
  function Draw(status: seq<int>, passes: seq<seq<bool>>, minFailFraction: real, maxFailedNodes: int,
                choose: (seq<int>, int) -> seq<int>): (Status, seq<int>)
    requires PassesOk(passes, |status|)
  {
    Cap(Gather(status, passes, [], minFailFraction, maxFailedNodes), Dead(status), maxFailedNodes, choose)
  }

  /** A round that starts with at most `max_failed_nodes` dead nodes does
      not raise, draws distinct alive nodes, and ends with at most
      `max_failed_nodes` dead nodes after marking them. */
  lemma DrawFacts(status: seq<int>, passes: seq<seq<bool>>, minFailFraction: real, maxFailedNodes: int,
                  choose: (seq<int>, int) -> seq<int>)
    requires StatusOk(status) && PassesOk(passes, |status|) && ChoiceOk(choose)
    ensures var (st, indices) := Draw(status, passes, minFailFraction, maxFailedNodes, choose);
      && (st != Completed <==> Dead(status) > maxFailedNodes)
      && (st == Completed ==>
            && Distinct(indices) && AliveIds(status, indices)
            && StatusOk(Mark(status, indices))
            && Dead(Mark(status, indices)) == Dead(status) + |indices| <= maxFailedNodes)
  {
    var sel := Gather(status, passes, [], minFailFraction, maxFailedNodes);
    GatherFacts(status, passes, [], minFailFraction, maxFailedNodes);
    CapFacts(status, sel, maxFailedNodes, choose);
    var (st, indices) := Cap(sel, Dead(status), maxFailedNodes, choose);
    if st == Completed {
      MarkDead(status, indices);
    }
  }

  /** environment_v2.py:67-73 on `machine_status`. */
  method SelectNodes(status: array<int>, passes: seq<seq<bool>>, minFailFraction: real, maxFailedNodes: int)
    returns (indices: seq<int>)
    requires PassesOk(passes, status.Length)
    ensures indices == Gather(status[..], passes, [], minFailFraction, maxFailedNodes)
  {
    indices := [];
    var k := 0;
    var dead := status.Length - Sum(status[..]);
    assert passes[0..] == passes;
    while k < |passes| && Short(|indices|, dead, minFailFraction, maxFailedNodes)
      invariant 0 <= k <= |passes|
      invariant dead == Dead(status[..])
      invariant Gather(status[..], passes[k..], indices, minFailFraction, maxFailedNodes)
             == Gather(status[..], passes, [], minFailFraction, maxFailedNodes)
      decreases |passes| - k
    {
      assert passes[k..][0] == passes[k] && passes[k..][1..] == passes[k + 1..];
      ghost var start := indices;
      var idx := 0;
      while idx < status.Length
        invariant 0 <= idx <= status.Length
        invariant Pass(status[..], passes[k], indices, idx) == Pass(status[..], passes[k], start, 0)
      {
        if idx !in indices && status[idx] == 1 && passes[k][idx] {
          indices := indices + [idx];
        }
        idx := idx + 1;
      }
      k := k + 1;
    }
  }

  /** environment_v2.py:86-96 on `machine_status`: drawn nodes become dead,
      and each node is told its `failVal`, in port order. */
  method MarkAndTell(status: array<int>, indices: seq<int>) returns (told: seq<bool>)
    modifies status
    ensures status[..] == Mark(old(status[..]), indices)
    ensures told == Told(old(status[..]), indices)
  {
    told := [];
    var i := 0;
    while i < status.Length
      invariant 0 <= i <= status.Length
      invariant |told| == i
      invariant forall j :: 0 <= j < i ==> status[j] == Mark(old(status[..]), indices)[j]
      invariant forall j :: i <= j < status.Length ==> status[j] == old(status[j])
      invariant forall j :: 0 <= j < i ==> told[j] == Told(old(status[..]), indices)[j]
    {
      if i in indices {
        told := told + [true];
        status[i] := 0;
      } else {
        told := told + [status[i] == 0];
      }
      i := i + 1;
    }
  }
}
