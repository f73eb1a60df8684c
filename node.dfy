/** The base replica of learning/node.py: the state every election engine
    starts from. The noisy initial estimates (`np.random.normal`) are passed
    in as `initialEstimates`. The base `send` and `recieve` have no body and
    return `None`. */
module NodeBase {
  import opened Common

  class Node<Q> {
    const id: int
    const totalNodes: nat
    var isFailed: bool
    const failureEstimates: array<real>
    /** How often each estimate was updated; learning/node.py:21 fills it
        with zeros and nothing in the program increments it. */
    const nodeCount: array<real>
    var leader: int
    var outQueue: seq<Q>

    ghost predicate Valid()
      reads this, nodeCount
    {
      && failureEstimates.Length == totalNodes
      && nodeCount.Length == totalNodes
      && failureEstimates != nodeCount
      && forall i :: 0 <= i < nodeCount.Length ==> nodeCount[i] == 0.0
    }

    /** A new node is alive, has one estimate per node and a zero count per
        node, follows node 1 and has nothing queued. */
    constructor (id: int, n: nat, initialEstimates: seq<real>)
      requires |initialEstimates| == n
      ensures Valid()
      ensures this.id == id && totalNodes == n
      ensures !isFailed
      ensures failureEstimates[..] == initialEstimates
      ensures nodeCount[..] == seq(n, _ => 0.0)
      ensures leader == 1 && outQueue == []
      ensures fresh(failureEstimates) && fresh(nodeCount)
    {
      this.id := id;
      totalNodes := n;
      isFailed := false;
      failureEstimates := new real[n](i => if 0 <= i < |initialEstimates| then initialEstimates[i] else 0.0);
      nodeCount := new real[n](_ => 0.0);
      leader := 1;
      outQueue := [];
    }

    /** The base `send` does nothing and returns `None`. */
    method Send<B>(messageBuffer: B) returns (r: Option<B>)
      ensures r == None
    {
      r := None;
    }

    /** The base `recieve` does nothing and returns `None`. */
    method Recieve<M>(messages: seq<M>, step: int) returns (r: Option<seq<M>>)
      ensures r == None
    {
      r := None;
    }
  }
}
