/** The non-stationary failure-injection environment of
    learning/environment_v2_non_stationary.py. It differs from the
    stationary one in three places: machine types are drawn afresh on
    every `set_probability` and the probabilities of nodes 0 and 1 are then
    swapped; a repair lasts between 7 and 30 time units; and a round sends
    failure messages (and logs a vector of the failed nodes) only when it
    drew some node. */
module EnvironmentV2Ns {
  import opened Common
  import opened FailureInjection
  import EnvironmentV2

  /** `max(min(d, 30), 7)` (environment_v2_non_stationary.py:48-49). */
  function RepairDuration(d: real): (r: real)
  {
    var capped := if d <= 30.0 then d else 30.0;
    if capped >= 7.0 then capped else 7.0
  }

  /** The clamp always lands in [7, 30], keeps a duration already in range,
      and is monotone. */
  lemma RepairDurationClamp(d: real, e: real)
    ensures 7.0 <= RepairDuration(d) <= 30.0
    ensures 7.0 <= d <= 30.0 ==> RepairDuration(d) == d
    ensures d < 7.0 ==> RepairDuration(d) == 7.0
    ensures d > 30.0 ==> RepairDuration(d) == 30.0
    ensures d <= e ==> RepairDuration(d) <= RepairDuration(e)
  {
  }

  /** environment_v2_non_stationary.py:64-68: the stationary probabilities
      with the entries of nodes 0 and 1 exchanged. */
  function SwappedProbabilities(types: seq<int>, base: seq<real>, scaling: real): (r: seq<real>)
    requires forall i :: 0 <= i < |types| ==> 0 <= types[i] < |base|
    requires |types| >= 2
    ensures |r| == |types|
  {
    var p := EnvironmentV2.Probabilities(types, base, scaling);
    p[0 := p[1]][1 := p[0]]
  }

  /** Node 0 gets node 1's probability and node 1 gets node 0's; every
      other node gets `base[type[i]] * scaling`. */
  lemma SwappedProbabilitiesFacts(types: seq<int>, base: seq<real>, scaling: real)
    requires forall i :: 0 <= i < |types| ==> 0 <= types[i] < |base|
    requires |types| >= 2
    ensures var r := SwappedProbabilities(types, base, scaling);
      && r[0] == base[types[1]] * scaling && r[1] == base[types[0]] * scaling
      && forall i :: 2 <= i < |types| ==> r[i] == base[types[i]] * scaling
  {
  }

  /** `b = zeros(n); b[indices] = 1`: the vector of failed nodes that is
      logged (environment_v2_non_stationary.py:103-105). */
  function FailureVector(n: nat, indices: seq<int>): (r: seq<real>)
    ensures |r| == n
  {
    seq(n, i => if i in indices then 1.0 else 0.0)
  }

  /** The array `b` of environment_v2_non_stationary.py:103-105, filled
      index by index. */
  method LogVector(n: nat, indices: seq<int>) returns (v: seq<real>)
    ensures v == FailureVector(n, indices)
  {
    var b := new real[n](_ => 0.0);
    var i := 0;
    while i < n
      invariant 0 <= i <= n
      invariant forall j :: 0 <= j < n ==> b[j] == if j < i && j in indices then 1.0 else 0.0
    {
      if i in indices {
        b[i] := 1.0;
      }
      i := i + 1;
    }
    v := b[..];
  }

  /** What a round logs and sends: nothing at all when no node was drawn. */
  datatype NsOutcome = NsOutcome(outcome: Outcome, logged: Option<seq<real>>)

  /** One round of `fail_nodes` (environment_v2_non_stationary.py:79-128). */
  function Round(status: seq<int>, passes: seq<seq<bool>>, minFailFraction: real, maxFailedNodes: int,
                 choose: (seq<int>, int) -> seq<int>): NsOutcome
    requires PassesOk(passes, |status|)
  {
    var (st, indices) := Draw(status, passes, minFailFraction, maxFailedNodes, choose);
    if st != Completed then NsOutcome(Outcome(st, indices, status, []), None)
    else if |indices| == 0 then NsOutcome(Outcome(Completed, indices, status, []), None)
    else NsOutcome(Outcome(Completed, indices, Mark(status, indices), Told(status, indices)),
                   Some(FailureVector(|status|, indices)))
  }

  /** A round within the bound does not raise and keeps at most
      `max_failed_nodes` dead. With nothing drawn nothing is sent, logged or
      changed; otherwise the logged vector is 1 exactly at the drawn nodes
      and every node is told "True" exactly when it is dead afterwards. */
  lemma RoundFacts(status: seq<int>, passes: seq<seq<bool>>, minFailFraction: real, maxFailedNodes: int,
                   choose: (seq<int>, int) -> seq<int>)
    requires StatusOk(status) && PassesOk(passes, |status|) && ChoiceOk(choose)
    requires Dead(status) <= maxFailedNodes
    ensures var r := Round(status, passes, minFailFraction, maxFailedNodes, choose);
      var o := r.outcome;
      && o.status == Completed
      && StatusOk(o.machines) && Dead(o.machines) <= maxFailedNodes
      && (o.indices == [] <==> o.told == [])
      && (o.indices == [] ==> o.machines == status && r.logged == None)
      && (o.indices != [] ==>
            && |o.told| == |status|
            && r.logged.Some? && |r.logged.value| == |status|
            && (forall i :: 0 <= i < |status| ==> (r.logged.value[i] == 1.0 <==> i in o.indices))
            && (forall i :: 0 <= i < |status| ==> (o.told[i] <==> o.machines[i] == 0)))
  {
    DrawFacts(status, passes, minFailFraction, maxFailedNodes, choose);
    var (st, indices) := Draw(status, passes, minFailFraction, maxFailedNodes, choose);
    TellsDead(status, indices);
    if indices != [] {
      assert |Told(status, indices)| == |status| > 0 by {
        assert 0 <= indices[0] < |status|;
      }
    }
  }

  class Environment {
    const totalNodes: nat
    const failureProbability: array<real>
    const baseFailureProb: seq<real>
    const scalingConstant: real
    const repairScaleFactor: real
    /** Drawn afresh by every `set_probability`. */
    var machineTypes: seq<int>
    /** 0 is dead, 1 is alive. */
    const machineStatus: array<int>
    const maxFailedNodes: int
    const minFailFraction: real

    ghost predicate Valid()
      reads this, machineStatus
    {
      && failureProbability.Length == totalNodes
      && machineStatus.Length == totalNodes
      && StatusOk(machineStatus[..])
    }

    /** environment_v2_non_stationary.py:17-42: every machine alive, then
        `set_probability`, which needs two nodes to swap. */
    constructor (n: nat, machineTypes: seq<int>, base: seq<real>, scaling: real, repairScale: real,
                 maxFailedNodes: int, minFailFraction: real)
      requires n >= 2
      requires |machineTypes| == n && forall i :: 0 <= i < n ==> 0 <= machineTypes[i] < |base|
      ensures Valid()
      ensures totalNodes == n && this.machineTypes == machineTypes && baseFailureProb == base
      ensures scalingConstant == scaling && repairScaleFactor == repairScale
      ensures this.maxFailedNodes == maxFailedNodes && this.minFailFraction == minFailFraction
      ensures machineStatus[..] == seq(n, _ => 1)
      ensures failureProbability[..] == SwappedProbabilities(machineTypes, base, scaling)
      ensures fresh(machineStatus) && fresh(failureProbability)
    {
      totalNodes := n;
      baseFailureProb := base;
      scalingConstant := scaling;
      repairScaleFactor := repairScale;
      this.maxFailedNodes := maxFailedNodes;
      this.minFailFraction := minFailFraction;
      machineStatus := new int[n](_ => 1);
      failureProbability := new real[n](_ => 0.0);
      this.machineTypes := machineTypes;
      new;
      var st := SetProbability(machineTypes);
    }

    /** environment_v2_non_stationary.py:60-72 with the freshly drawn
        `types`. With fewer than two nodes the swap raises `IndexError`
        after every probability has been written. */
    method SetProbability(types: seq<int>) returns (st: Status)
      requires failureProbability.Length == totalNodes && |types| == totalNodes
      requires forall i :: 0 <= i < totalNodes ==> 0 <= types[i] < |baseFailureProb|
      modifies this, failureProbability
      ensures machineTypes == types
      ensures st == if totalNodes >= 2 then Completed else Raised(IndexError)
      ensures totalNodes >= 2 ==> failureProbability[..] == SwappedProbabilities(types, baseFailureProb, scalingConstant)
      ensures totalNodes < 2 ==> failureProbability[..] == EnvironmentV2.Probabilities(types, baseFailureProb, scalingConstant)
    {
      machineTypes := types;
      var i := 0;
      while i < totalNodes
        invariant 0 <= i <= totalNodes
        invariant machineTypes == types
        invariant forall j :: 0 <= j < i ==> failureProbability[j] == baseFailureProb[types[j]] * scalingConstant
      {
        failureProbability[i] := baseFailureProb[types[i]] * scalingConstant;
        i := i + 1;
      }
      ghost var p := EnvironmentV2.Probabilities(types, baseFailureProb, scalingConstant);
      assert forall j :: 0 <= j < totalNodes ==> failureProbability[..][j] == p[j];
      assert failureProbability[..] == p;
      if totalNodes < 2 {
        return Raised(IndexError);
      }
      var temp := failureProbability[0];
      failureProbability[0] := failureProbability[1];
      failureProbability[1] := temp;
      st := Completed;
    }

    /** environment_v2_non_stationary.py:44-57 with the lognormal sample
        given: the clamped delay, after which only that node comes back. */
    method SleepForRepair(nodeId: int, sample: real) returns (duration: real)
      requires Valid() && 0 <= nodeId < totalNodes
      modifies machineStatus
      ensures Valid()
      ensures duration == RepairDuration(sample * repairScaleFactor)
      ensures machineStatus[..] == old(machineStatus[..])[nodeId := 1]
    {
      duration := sample * repairScaleFactor;
      duration := if duration <= 30.0 then duration else 30.0;
      duration := if duration >= 7.0 then duration else 7.0;
      machineStatus[nodeId] := 1;
      assert machineStatus[..] == old(machineStatus[..])[nodeId := 1];
      RepairDead(old(machineStatus[..]), nodeId);
    }

    /** One pass of the `while self.run` loop of
        environment_v2_non_stationary.py:79-128. */
    method FailNodes(passes: seq<seq<bool>>, choose: (seq<int>, int) -> seq<int>)
      returns (st: Status, indices: seq<int>, told: seq<bool>, logged: Option<seq<real>>)
      requires Valid() && PassesOk(passes, totalNodes)
      modifies machineStatus
      ensures Valid()
      ensures NsOutcome(Outcome(st, indices, machineStatus[..], told), logged)
           == Round(old(machineStatus[..]), passes, minFailFraction, maxFailedNodes, choose)
    {
      indices := SelectNodes(machineStatus, passes, minFailFraction, maxFailedNodes);
      var dead := totalNodes - Sum(machineStatus[..]);
      if |indices| + dead > maxFailedNodes {
        if maxFailedNodes - dead < 0 {
          return Raised(ValueError), indices, [], None;
        }
        indices := choose(indices, maxFailedNodes - dead);
      }
      st := Completed;
      told := [];
      logged := None;
      if |indices| != 0 {
        var b := LogVector(totalNodes, indices);
        logged := Some(b);
        ghost var before := machineStatus[..];
        told := MarkAndTell(machineStatus, indices);
        assert StatusOk(machineStatus[..]) by {
          forall j | 0 <= j < totalNodes ensures machineStatus[j] == 0 || machineStatus[j] == 1 {
            assert machineStatus[j] == Mark(before, indices)[j];
          }
        }
      }
    }
  }
}
