/** The stand-alone failure simulation of simulate_failure.py: ten nodes,
    of which a marking pass fails exactly three, and a leader that moves
    round-robin to the next node for as long as its own node is marked
    failed, counting view changes. The two threads are modelled as separate
    atomic methods; the `run` flag becomes an iteration count, and the
    sample of `train_test_split` is a parameter. */
module SimulateFailure {
  import opened Common

  /** simulate_failure.py:6. */
  const MaxFailedNodes: nat := 3
  /** simulate_failure.py:7: enough nodes to outvote the failed ones. */
  const TotalNodes: nat := 3 * MaxFailedNodes + 1

  /** Every entry is 0 (running) or 1 (failed). */
  predicate NodesOk(nodes: seq<int>)
  {
    forall i :: 0 <= i < |nodes| ==> nodes[i] == 0 || nodes[i] == 1
  }

  /** The round-robin successor `(l + 1) % n` of simulate_failure.py:20. */
  function Next(l: int, n: int): (r: int)
    requires 0 <= l < n
    ensures 0 <= r < n
  {
    if l + 1 == n then 0 else l + 1
  }

  /** The node `m` round-robin steps on from `l`. */
  function Advance(l: int, m: nat, n: int): (r: int)
    requires 0 <= l < n
    ensures 0 <= r < n
    decreases m
  {
    if m == 0 then l else Advance(Next(l, n), m - 1, n)
  }

  /** Fewer than `n` steps wrap round at most once. */
  lemma {:induction false} AdvanceWraps(l: int, m: nat, n: int)
    requires 0 <= l < n && m < n
    ensures Advance(l, m, n) == if l + m < n then l + m else l + m - n
    decreases m
  {
    if m > 0 {
      AdvanceWraps(Next(l, n), m - 1, n);
    }
  }

  /** `iterations` turns of the `while run` loop of simulate_failure.py:18-21
      from leader `l`, on a fixed marking: the final leader and the number
      of view changes. */
  function Elect(nodes: seq<int>, l: int, iterations: nat): (r: (int, nat))
    requires 0 <= l < |nodes|
    ensures 0 <= r.0 < |nodes| && r.1 <= iterations
    decreases iterations
  {
    if iterations == 0 then (l, 0)
    else if nodes[l] == 1 then
      var (leader, moves) := Elect(nodes, Next(l, |nodes|), iterations - 1);
      (leader, moves + 1)
    else Elect(nodes, l, iterations - 1)
  }

  /** The leader walks round the ring: after `m` view changes it sits `m`
      places on, every node it left was marked failed, and if it stopped
      before the iterations ran out it stopped on a running node. */
  lemma {:induction false} ElectWalk(nodes: seq<int>, l: int, iterations: nat)
    requires 0 <= l < |nodes|
    ensures var (leader, m) := Elect(nodes, l, iterations);
      && leader == Advance(l, m, |nodes|)
      && (forall j :: 0 <= j < m ==> nodes[Advance(l, j, |nodes|)] == 1)
      && (m < iterations ==> nodes[leader] != 1)
    decreases iterations
  {
    var n := |nodes|;
    if iterations > 0 {
      if nodes[l] == 1 {
        var l1 := Next(l, n);
        ElectWalk(nodes, l1, iterations - 1);
        var (leader, m1) := Elect(nodes, l1, iterations - 1);
        forall j | 0 <= j < m1 + 1 ensures nodes[Advance(l, j, n)] == 1 {
          if j > 0 {
            assert Advance(l, j, n) == Advance(l1, j - 1, n);
          }
        }
      } else {
        ElectWalk(nodes, l, iterations - 1);
      }
    }
  }

  /** `Sum` distributes over concatenation. */
  lemma {:induction false} SumConcat(a: seq<int>, b: seq<int>)
    ensures Sum(a + b) == Sum(a) + Sum(b)
    decreases |b|
  {
    if b != [] {
      var b1 := b[..|b| - 1];
      assert (a + b)[..|a + b| - 1] == a + b1;
      assert (a + b)[|a + b| - 1] == b[|b| - 1];
      SumConcat(a, b1);
    } else {
      assert a + b == a;
    }
  }

  lemma {:induction false} SumNonNegative(s: seq<int>)
    requires NodesOk(s)
    ensures 0 <= Sum(s) <= |s|
    decreases |s|
  {
    if s != [] {
      SumNonNegative(s[..|s| - 1]);
    }
  }

  lemma {:induction false} SumOnes(s: seq<int>)
    requires forall i :: 0 <= i < |s| ==> s[i] == 1
    ensures Sum(s) == |s|
    decreases |s|
  {
    if s != [] {
      SumOnes(s[..|s| - 1]);
    }
  }

  /** On a marking that leaves some node running, the leader changes view
      at most as many times as there are failed nodes, and given more
      iterations than that it ends on a running node. */
  lemma SettlesWithinFailed(nodes: seq<int>, l: int, iterations: nat)
    requires 0 <= l < |nodes| && NodesOk(nodes) && Sum(nodes) < |nodes|
    ensures var (leader, m) := Elect(nodes, l, iterations);
      && m <= Sum(nodes)
      && (iterations > Sum(nodes) ==> nodes[leader] == 0)
  {
    var n := |nodes|;
    ElectWalk(nodes, l, iterations);
    var (leader, m) := Elect(nodes, l, iterations);
    var rot := nodes[l..] + nodes[..l];
    assert nodes[..l] + nodes[l..] == nodes;
    SumConcat(nodes[l..], nodes[..l]);
    SumConcat(nodes[..l], nodes[l..]);
    assert |rot| == n;
    var w := if m < n then m else n;
    forall j | 0 <= j < w ensures rot[j] == 1 {
      AdvanceWraps(l, j, n);
      if j < n - l {
        assert rot[j] == nodes[l + j];
      } else {
        assert rot[j] == nodes[j - (n - l)];
      }
      assert nodes[Advance(l, j, n)] == 1;
    }
    assert rot == rot[..w] + rot[w..];
    SumConcat(rot[..w], rot[w..]);
    SumOnes(rot[..w]);
    assert NodesOk(rot[w..]) by {
      forall j | 0 <= j < |rot[w..]| ensures rot[w..][j] == 0 || rot[w..][j] == 1 {
        assert rot[w..][j] == rot[w + j];
        if w + j < n - l {
          assert rot[w + j] == nodes[l + w + j];
        } else {
          assert rot[w + j] == nodes[w + j - (n - l)];
        }
      }
    }
    SumNonNegative(rot[w..]);
  }

  /** The marking that a pass of simulate_failure.py:28-32 leaves:
      1 exactly on the failed ids. */
  function Marks(n: nat, failed: seq<int>): (r: seq<int>)
    ensures |r| == n && NodesOk(r)
  {
    seq(n, i => if i in failed then 1 else 0)
  }

  /** `failed` is what `train_test_split` returns as the test set: as many
      distinct node ids as `test_size`. */
  predicate FailedOk(failed: seq<int>)
  {
    |failed| == MaxFailedNodes && Distinct(failed)
    && forall i :: 0 <= i < |failed| ==> 0 <= failed[i] < TotalNodes
  }

  /** A marking of distinct ids has exactly that many failed nodes. */
  lemma {:induction false} MarksSum(n: nat, failed: seq<int>)
    requires Distinct(failed) && forall i :: 0 <= i < |failed| ==> 0 <= failed[i] < n
    ensures Sum(Marks(n, failed)) == |failed|
    decreases |failed|
  {
    if failed == [] {
      ZerosSum(n);
      assert Marks(n, failed) == seq(n, _ => 0);
    } else {
      var f := failed[..|failed| - 1];
      var x := failed[|failed| - 1];
      assert x !in f;
      MarksSum(n, f);
      assert Marks(n, failed) == Marks(n, f)[x := 1] by {
        forall i | 0 <= i < n ensures Marks(n, failed)[i] == Marks(n, f)[x := 1][i] {
          assert i in failed <==> i in f || i == x by {
            assert failed == f + [x];
          }
        }
      }
      SumUpdate(Marks(n, f), x, 1);
    }
  }

  lemma {:induction false} ZerosSum(n: nat)
    ensures Sum(seq(n, _ => 0)) == 0
    decreases n
  {
    if n > 0 {
      assert seq(n, _ => 0)[..n - 1] == seq(n - 1, _ => 0);
      ZerosSum(n - 1);
    }
  }

  /** After any marking pass the leader changes view at most
      `max_failed_nodes` times, and given more iterations than that it
      settles on a running node. */
  lemma LeaderSettles(failed: seq<int>, l: int, iterations: nat)
    requires FailedOk(failed) && 0 <= l < TotalNodes
    ensures var (leader, m) := Elect(Marks(TotalNodes, failed), l, iterations);
      && m <= MaxFailedNodes
      && (iterations > MaxFailedNodes ==> leader !in failed)
  {
    MarksSum(TotalNodes, failed);
    SettlesWithinFailed(Marks(TotalNodes, failed), l, iterations);
  }

  /** One turn of the loop: a failed leader hands over to the next node and
      counts a view change; a running one stays. */
  lemma ElectStep(nodes: seq<int>, l: int, iterations: nat)
    requires 0 <= l < |nodes| && iterations > 0
    ensures nodes[l] == 1 ==> var (leader, m) := Elect(nodes, (l + 1) % |nodes|, iterations - 1);
      Elect(nodes, l, iterations) == (leader, m + 1)
    ensures nodes[l] != 1 ==> Elect(nodes, l, iterations) == Elect(nodes, l, iterations - 1)
  {
    assert (l + 1) % |nodes| == Next(l, |nodes|);
  }

  /** The module-level globals `nodes`, `current_leader` and
      `view_changes`. */
  class Simulation {
    const nodes: array<int>
    var currentLeader: int
    var viewChanges: int

    ghost predicate Valid()
      reads this, nodes
    {
      nodes.Length == TotalNodes && NodesOk(nodes[..]) && 0 <= currentLeader < TotalNodes
    }

    /** simulate_failure.py:8-10: nothing failed, leader 0. */
    constructor ()
      ensures Valid() && fresh(nodes)
      ensures nodes[..] == seq(TotalNodes, _ => 0)
      ensures currentLeader == 0 && viewChanges == 0
    {
      nodes := new int[TotalNodes](_ => 0);
      currentLeader := 0;
      viewChanges := 0;
    }

    /** `select_leader` for `iterations` turns of its loop with the marking
        held fixed. */
    method SelectLeader(iterations: nat)
      requires Valid()
      modifies this
      ensures Valid()
      ensures (currentLeader, viewChanges - old(viewChanges))
           == Elect(nodes[..], old(currentLeader), iterations)
    {
      ghost var marks := nodes[..];
      ghost var changes0 := viewChanges;
      ghost var target := Elect(marks, currentLeader, iterations);
      var k := 0;
      while k < iterations
        invariant 0 <= k <= iterations && Valid() && nodes[..] == marks
        invariant var (leader, m) := Elect(marks, currentLeader, iterations - k);
          (leader, viewChanges - changes0 + m) == target
      {
        ElectStep(marks, currentLeader, iterations - k);
        if nodes[currentLeader] == 1 {
          currentLeader := (currentLeader + 1) % TotalNodes;
          viewChanges := viewChanges + 1;
        }
        k := k + 1;
      }
    }

    /** One marking pass of `fail_nodes`, given the ids it drew. */
    method FailNodes(failed: seq<int>)
      requires Valid() && FailedOk(failed)
      modifies nodes
      ensures Valid()
      ensures nodes[..] == Marks(TotalNodes, failed)
    {
      var i := 0;
      while i < TotalNodes
        invariant 0 <= i <= TotalNodes
        invariant forall j :: 0 <= j < i ==> nodes[j] == Marks(TotalNodes, failed)[j]
      {
        if i in failed {
          nodes[i] := 1;
        } else {
          nodes[i] := 0;
        }
        i := i + 1;
      }
      assert nodes[..] == Marks(TotalNodes, failed);
    }
  }
}
