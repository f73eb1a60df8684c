/** The stationary failure-injection environment of
    learning/environment_v2.py. Each node has a machine type; its failure
    probability is the base probability of its type times a scaling
    constant. A round draws nodes to fail, caps the draw at
    `max_failed_nodes` failing nodes, marks the drawn nodes dead and tells
    every node whether it is failed; a repair brings one node back. The
    machine types, the binomial draws, `choice` and the repair delay are
    parameters; the messages themselves and the repair threads are not
    modelled. */
module EnvironmentV2 {
  import opened Common
  import opened FailureInjection

  /** `base[type[i]] * scaling` for every node. */
  function Probabilities(types: seq<int>, base: seq<real>, scaling: real): (r: seq<real>)
    requires forall i :: 0 <= i < |types| ==> 0 <= types[i] < |base|
    ensures |r| == |types|
  {
    seq(|types|, i requires 0 <= i < |types| => base[types[i]] * scaling)
  }

  /** One round of `fail_nodes` (environment_v2.py:61-104) on the statuses
      `status`. */
  function Round(status: seq<int>, passes: seq<seq<bool>>, minFailFraction: real, maxFailedNodes: int,
                 choose: (seq<int>, int) -> seq<int>): Outcome
    requires PassesOk(passes, |status|)
  {
    var (st, indices) := Draw(status, passes, minFailFraction, maxFailedNodes, choose);
    if st != Completed then Outcome(st, indices, status, [])
    else Outcome(Completed, indices, Mark(status, indices), Told(status, indices))
  }

  /** A round keeps at most `max_failed_nodes` nodes dead: starting within
      the bound it does not raise, every node is told "True" exactly when it
      is dead afterwards, only drawn (previously alive) nodes die, and the
      others keep their status. */
  lemma RoundKeepsBound(status: seq<int>, passes: seq<seq<bool>>, minFailFraction: real, maxFailedNodes: int,
                        choose: (seq<int>, int) -> seq<int>)
    requires StatusOk(status) && PassesOk(passes, |status|) && ChoiceOk(choose)
    requires Dead(status) <= maxFailedNodes
    ensures var o := Round(status, passes, minFailFraction, maxFailedNodes, choose);
      && o.status == Completed
      && StatusOk(o.machines) && Dead(o.machines) <= maxFailedNodes
      && |o.told| == |status|
      && (forall i :: 0 <= i < |status| ==> (o.told[i] <==> o.machines[i] == 0))
      && (forall i :: 0 <= i < |status| && status[i] == 1 && o.machines[i] == 0 ==> i in o.indices)
      && (forall i :: 0 <= i < |status| && i !in o.indices ==> o.machines[i] == status[i])
  {
    DrawFacts(status, passes, minFailFraction, maxFailedNodes, choose);
    var (st, indices) := Draw(status, passes, minFailFraction, maxFailedNodes, choose);
    TellsDead(status, indices);
  }

  class Environment {
    const totalNodes: nat
    const failureProbability: array<real>
    const baseFailureProb: seq<real>
    const scalingConstant: real
    /** Drawn from the multinomial once, in the constructor. */
    const machineTypes: seq<int>
    /** 0 is dead, 1 is alive. */
    const machineStatus: array<int>
    const maxFailedNodes: int
    const minFailFraction: real

    ghost predicate Valid()
      reads this, machineStatus
    {
      && failureProbability.Length == totalNodes
      && machineStatus.Length == totalNodes
      && |machineTypes| == totalNodes
      && (forall i :: 0 <= i < totalNodes ==> 0 <= machineTypes[i] < |baseFailureProb|)
      && StatusOk(machineStatus[..])
    }

    /** environment_v2.py:14-38: every machine alive, then
        `set_probability`. */
    constructor (n: nat, machineTypes: seq<int>, base: seq<real>, scaling: real,
                 maxFailedNodes: int, minFailFraction: real)
      requires |machineTypes| == n && forall i :: 0 <= i < n ==> 0 <= machineTypes[i] < |base|
      ensures Valid()
      ensures totalNodes == n && this.machineTypes == machineTypes && baseFailureProb == base
      ensures scalingConstant == scaling && this.maxFailedNodes == maxFailedNodes
      ensures this.minFailFraction == minFailFraction
      ensures machineStatus[..] == seq(n, _ => 1)
      ensures failureProbability[..] == Probabilities(machineTypes, base, scaling)
      ensures fresh(machineStatus) && fresh(failureProbability)
    {
      totalNodes := n;
      this.machineTypes := machineTypes;
      baseFailureProb := base;
      scalingConstant := scaling;
      this.maxFailedNodes := maxFailedNodes;
      this.minFailFraction := minFailFraction;
      machineStatus := new int[n](_ => 1);
      failureProbability := new real[n](_ => 0.0);
      new;
      SetProbability();
    }

    /** environment_v2.py:50-56. */
    method SetProbability()
      requires failureProbability.Length == totalNodes && |machineTypes| == totalNodes
      requires forall i :: 0 <= i < totalNodes ==> 0 <= machineTypes[i] < |baseFailureProb|
      modifies failureProbability
      ensures failureProbability[..] == Probabilities(machineTypes, baseFailureProb, scalingConstant)
    {
      var i := 0;
      while i < totalNodes
        invariant 0 <= i <= totalNodes
        invariant forall j :: 0 <= j < i ==> failureProbability[j] == baseFailureProb[machineTypes[j]] * scalingConstant
      {
        failureProbability[i] := baseFailureProb[machineTypes[i]] * scalingConstant;
        i := i + 1;
      }
      assert forall j :: 0 <= j < totalNodes ==>
        failureProbability[..][j] == Probabilities(machineTypes, baseFailureProb, scalingConstant)[j];
    }

    /** environment_v2.py:40-47 once the repair delay is over: only that
        node comes back. */
    method SleepForRepair(nodeId: int)
      requires Valid() && 0 <= nodeId < totalNodes
      modifies machineStatus
      ensures Valid()
      ensures machineStatus[..] == old(machineStatus[..])[nodeId := 1]
    {
      machineStatus[nodeId] := 1;
      assert machineStatus[..] == old(machineStatus[..])[nodeId := 1];
      RepairDead(old(machineStatus[..]), nodeId);
    }

    /** One pass of the `while self.run` loop of environment_v2.py:61-104:
        the nodes drawn, and the `failVal` sent to each node in port order. */
    method FailNodes(passes: seq<seq<bool>>, choose: (seq<int>, int) -> seq<int>)
      returns (st: Status, indices: seq<int>, told: seq<bool>)
      requires Valid() && PassesOk(passes, totalNodes)
      modifies machineStatus
      ensures Valid()
      ensures Outcome(st, indices, machineStatus[..], told)
           == Round(old(machineStatus[..]), passes, minFailFraction, maxFailedNodes, choose)
    {
      indices := SelectNodes(machineStatus, passes, minFailFraction, maxFailedNodes);
      var dead := totalNodes - Sum(machineStatus[..]);
      if |indices| + dead > maxFailedNodes {
        if maxFailedNodes - dead < 0 {
          return Raised(ValueError), indices, [];
        }
        indices := choose(indices, maxFailedNodes - dead);
      }
      ghost var before := machineStatus[..];
      told := MarkAndTell(machineStatus, indices);
      st := Completed;
      assert StatusOk(machineStatus[..]) by {
        forall i | 0 <= i < totalNodes ensures machineStatus[i] == 0 || machineStatus[i] == 1 {
          assert machineStatus[i] == Mark(before, indices)[i];
        }
      }
    }
  }
}
