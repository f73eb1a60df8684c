/** The socket-version election engine of learning/v2.py, one handler per
    incoming message kind, each handler one atomic step (the lock, the
    threads and the sockets are not modelled). Rendered messages are queued
    as the message values that `str()` would render. */
module V2 {
  import opened Common
  import opened Messages
  import Estimates
  import Selector
  import Vote

  /** What the engine puts on its out-queue. learning/message.py defines no
      `RequestBroadcastMessage` class; the model gives it the two fields it is
      built with. */
  datatype Outgoing =
    | Rendered(msg: Message)
    | RequestBroadcastMessage(sender: int, requestId: int)

  /** The answer sent straight to the client (`send_to_client`). */
  datatype Response = ResponseMessage(sender: int, requestId: int)

  /** The outcome of the quorum check in `recieve_candidate_msg`. */
  datatype Decision = Undecided | Raises(error: PyError) | Elected(leader: nat)

  /** All lists have the same length, so that `np.array(lists)` is a matrix
      and `flatten` is their concatenation; ragged lists make numpy raise. */
  predicate SameLength(xss: seq<seq<int>>)
  {
    forall i, j :: 0 <= i < |xss| && 0 <= j < |xss| ==> |xss[i]| == |xss[j]|
  }

  /** The quorum of learning/v2.py:281: more than 2(N-1)/3 lists, compared
      as Python compares an int with a float quotient. */
  predicate Quorum(count: nat, n: nat)
  {
    3 * count > 2 * (n - 1)
  }

  /** The decision once `received` holds every list received so far, the
      sender's included: with a quorum and a non-empty own proposal the
      own proposal joins the lists and the plurality of all ids decides. */
  function Decide(received: seq<seq<int>>, mine: seq<int>, n: nat): Decision
  {
    if Quorum(|received|, n) && mine != [] then
      var all := received + [mine];
      if !SameLength(all) then Raises(ValueError)
      else match Vote.Plurality(Flatten(all))
        case None => Raises(ValueError)
        case Some(w) => Elected(w)
    else Undecided
  }

  /** The lists kept after the quorum check: the own proposal is appended
      exactly when a decision is attempted. */
  function Kept(received: seq<seq<int>>, mine: seq<int>, n: nat): seq<seq<int>>
  {
    if Quorum(|received|, n) && mine != [] then received + [mine] else received
  }

  predicate IdsBelow(xs: seq<int>, n: nat)
  {
    forall x <- xs :: -1 <= x < n
  }

  predicate AllIdsBelow(xss: seq<seq<int>>, n: nat)
  {
    forall xs <- xss :: IdsBelow(xs, n)
  }

  /** A decision is attempted exactly when the quorum is reached and the
      node has a proposal of its own. */
  lemma DecideAttempted(received: seq<seq<int>>, mine: seq<int>, n: nat)
    ensures Decide(received, mine, n) != Undecided <==> Quorum(|received|, n) && mine != []
    ensures Kept(received, mine, n) == if Decide(received, mine, n) == Undecided then received else received + [mine]
  {
  }

  /** The elected id is the most frequent id of all the lists, the node's own
      included, and the lowest such id on a tie; an election fails only on
      ragged lists or a negative id. */
  lemma DecideElectsLowestMode(received: seq<seq<int>>, mine: seq<int>, n: nat)
    requires Quorum(|received|, n) && mine != []
    ensures var all := received + [mine];
      && (Decide(received, mine, n).Elected? <==> SameLength(all) && Vote.NonNegative(Flatten(all)))
      && (Decide(received, mine, n).Elected? ==> Vote.IsLowestMode(Flatten(all), Decide(received, mine, n).leader))
  {
    var all := received + [mine];
    Vote.PluralityIsLowestMode(Flatten(all));
    assert mine in all;
    assert mine[0] in Flatten(all);
  }

  /** Receiving a proposal of ids and keeping the own one keeps every
      stored list made of ids. */
  lemma KeptIdsBelow(candidates: seq<seq<int>>, proposal: seq<int>, mine: seq<int>, n: nat)
    requires AllIdsBelow(candidates, n) && IdsBelow(proposal, n) && IdsBelow(mine, n)
    ensures AllIdsBelow(candidates + [proposal], n)
    ensures AllIdsBelow(Kept(candidates + [proposal], mine, n), n)
  {
  }

  /** An elected id is a node id when every list holds ids below N. */
  lemma ElectedIsNode(received: seq<seq<int>>, mine: seq<int>, n: nat)
    requires AllIdsBelow(received, n) && IdsBelow(mine, n)
    requires Decide(received, mine, n).Elected?
    ensures Decide(received, mine, n).leader < n
  {
    var all := received + [mine];
    var flat := Flatten(all);
    var w := Decide(received, mine, n).leader;
    Vote.PluralityIsLowestMode(flat);
    assert Vote.Count(flat, w) > 0;
    assert w in multiset(flat);
    assert w in flat;
    var xs :| xs in all && w in xs;
  }

  /** `n` copies of `x`. */
  function Repeat<T>(x: T, n: nat): (r: seq<T>)
    ensures |r| == n && forall i :: 0 <= i < n ==> r[i] == x
  {
    seq(n, _ => x)
  }

  /** `{i: {} for i in range(n)}`. */
  function EmptyBuffer(n: nat): (m: map<int, set<int>>)
    ensures forall i :: i in m <==> 0 <= i < n
    ensures forall i :: i in m ==> m[i] == {}
  {
    if n == 0 then map[] else EmptyBuffer(n - 1)[n - 1 := {}]
  }

  class V2Node {
    const id: int
    const totalNodes: nat
    var isFailed: bool
    const failureEstimates: array<real>
    const nodeCount: array<real>
    var leader: int
    var outQueue: seq<Outgoing>
    var epsilon: real
    const decay: real
    const ports: seq<int>
    const clientPort: int
    /** `message_buffer`: per node, the request ids that node broadcast. */
    var messageBuffer: map<int, set<int>>
    var candidates: seq<seq<int>>
    var myCandidates: seq<int>

    ghost predicate Valid()
      reads this, nodeCount
    {
      && failureEstimates.Length == totalNodes
      && nodeCount.Length == totalNodes
      && failureEstimates != nodeCount
      && (forall i :: 0 <= i < nodeCount.Length ==> nodeCount[i] == 0.0)
      && 0 <= id < totalNodes
      && 0 <= leader < totalNodes
      && |ports| == totalNodes
      && (forall i :: 0 <= i < totalNodes <==> i in messageBuffer)
      && (forall i :: i in messageBuffer ==> messageBuffer[i] == {})
      && AllIdsBelow(candidates, totalNodes)
      && IdsBelow(myCandidates, totalNodes)
    }

    /** learning/v2.py:17-38 on top of learning/node.py:11-25: the node
        state, one port per node counted up from the base port, an empty
        acknowledgement buffer per node and no candidates. A cluster needs at
        least two nodes, since every node starts out following node 1. */
    constructor (id: int, n: nat, initialEstimates: seq<real>, epsilon: real, decay: real, basePort: int, clientPort: int)
      requires 0 <= id < n && n >= 2 && |initialEstimates| == n
      ensures Valid()
      ensures this.id == id && totalNodes == n && !isFailed && leader == 1
      ensures failureEstimates[..] == initialEstimates
      ensures outQueue == [] && candidates == [] && myCandidates == []
      ensures this.epsilon == epsilon && this.decay == decay
      ensures ports == seq(n, i => basePort + i) && this.clientPort == clientPort
      ensures forall i :: i in messageBuffer <==> 0 <= i < n
      ensures fresh(failureEstimates) && fresh(nodeCount)
    {
      this.id := id;
      totalNodes := n;
      isFailed := false;
      failureEstimates := new real[n](i => if 0 <= i < |initialEstimates| then initialEstimates[i] else 0.0);
      nodeCount := new real[n](_ => 0.0);
      leader := 1;
      outQueue := [];
      this.epsilon := epsilon;
      this.decay := decay;
      ports := seq(n, i => basePort + i);
      this.clientPort := clientPort;
      messageBuffer := EmptyBuffer(n);
      candidates := [];
      myCandidates := [];
    }

    /** `update_failure_estimate_down`: only entry `k` changes; with the
        count stuck at zero it becomes 0. */
    method UpdateDown(k: int)
      requires Valid() && 0 <= k < totalNodes
      modifies failureEstimates
      ensures Valid()
      ensures Estimates.Down(old(failureEstimates[k]), nodeCount[k]) == 0.0
      ensures failureEstimates[..] == old(failureEstimates[..])[k := 0.0]
    {
      failureEstimates[k] := Estimates.Down(failureEstimates[k], nodeCount[k]);
    }

    /** `update_failure_estimate_up`: only entry `k` changes; with the count
        stuck at zero it becomes 1. */
    method UpdateUp(k: int)
      requires Valid() && 0 <= k < totalNodes
      modifies failureEstimates
      ensures Valid()
      ensures Estimates.Up(old(failureEstimates[k]), nodeCount[k]) == 1.0
      ensures failureEstimates[..] == old(failureEstimates[..])[k := 1.0]
    {
      failureEstimates[k] := Estimates.Up(failureEstimates[k], nodeCount[k]);
    }

    /** `_select_leader`: `u` is `np.random.rand()` and `draw` the result of
        `rng.choice`. The proposal is stored as the node's own, and ε decays
        once. */
    method SelectLeader(topn: nat, u: real, draw: seq<int>) returns (ids: seq<int>)
      requires Valid()
      requires topn == Selector.TopN(totalNodes)
      requires u < epsilon ==> Selector.ValidDraw(draw, totalNodes, topn)
      modifies this
      ensures Valid()
      ensures ids == Selector.Choose(u, old(epsilon), old(failureEstimates[..]), topn, leader, draw)
      ensures forall i <- ids :: 0 <= i < totalNodes
      ensures myCandidates == ids
      ensures epsilon == Selector.Decayed(old(epsilon), decay)
      ensures isFailed == old(isFailed) && leader == old(leader) && outQueue == old(outQueue)
      ensures candidates == old(candidates) && messageBuffer == old(messageBuffer)
    {
      Selector.ChooseTopNIds(u, epsilon, failureEstimates[..], leader, draw);
      ids := Selector.Choose(u, epsilon, failureEstimates[..], topn, leader, draw);
      epsilon := Selector.Decayed(epsilon, decay);
      myCandidates := ids;
    }

    /** `receive_request_broadcast`: on a live node the `.append` on a dict
        entry raises AttributeError before the estimate is touched, so no
        field of the node changes. The shared lock it acquired is not
        released, which the model does not capture. */
    method ReceiveRequestBroadcast(sender: int, requestId: int) returns (st: Status)
      requires Valid() && 0 <= sender < totalNodes
      ensures st == if isFailed then Completed else Raised(AttributeError)
    {
      if !isFailed {
        st := Raised(AttributeError);
      } else {
        st := Completed;
      }
    }

    /** `recieve_request`. The `pass` on a failed node does not return, so
        the failure flag plays no part. As leader the node answers the
        client and queues one broadcast; otherwise, since no request id is
        ever recorded, it raises the leader's estimate and queues N-1
        candidate messages with a fresh proposal. */
    method RecieveRequest(requestId: int, u: real, draw: seq<int>) returns (response: Option<Response>)
      requires Valid()
      requires u < epsilon ==> Selector.ValidDraw(draw, totalNodes, Selector.TopN(totalNodes))
      modifies this, failureEstimates
      ensures Valid()
      ensures leader == old(leader) && isFailed == old(isFailed) && candidates == old(candidates)
      ensures old(leader) == id ==>
        && response == Some(ResponseMessage(id, requestId))
        && outQueue == old(outQueue) + [RequestBroadcastMessage(id, requestId)]
        && failureEstimates[..] == old(failureEstimates[..])
        && epsilon == old(epsilon) && myCandidates == old(myCandidates)
      ensures old(leader) != id ==>
        var est := old(failureEstimates[..])[leader := 1.0];
        var ids := Selector.Choose(u, old(epsilon), est, Selector.TopN(totalNodes), leader, draw);
        && response == None
        && failureEstimates[..] == est
        && myCandidates == ids && epsilon == Selector.Decayed(old(epsilon), decay)
        && outQueue == old(outQueue) + Repeat(Rendered(CandidateMessage(id, 0, ids)), totalNodes - 1)
    {
      if leader == id {
        response := Some(ResponseMessage(id, requestId));
        outQueue := outQueue + [RequestBroadcastMessage(id, requestId)];
      } else {
        response := None;
        assert requestId !in messageBuffer[leader];
        UpdateUp(leader);
        assert failureEstimates[..] == old(failureEstimates[..])[leader := 1.0];
        var ids := SelectLeader(Selector.TopN(totalNodes), u, draw);
        outQueue := QueueToOthers(outQueue, Rendered(CandidateMessage(id, 0, ids)));
      }
    }

    /** The loop of learning/v2.py:208-210: one copy of `m` for every node
        but this one, appended to `queue`. */
    method QueueToOthers(queue: seq<Outgoing>, m: Outgoing) returns (r: seq<Outgoing>)
      requires 0 <= id < totalNodes
      ensures r == queue + Repeat(m, totalNodes - 1)
    {
      r := queue;
      var i := 0;
      while i < totalNodes
        invariant 0 <= i <= totalNodes
        invariant r == queue + Repeat(m, if i > id then i - 1 else i)
      {
        if i != id {
          r := r + [m];
        }
        i := i + 1;
      }
    }

    /** `recieve_confirm_election_msg`: follow the sender, drop every
        collected and own proposal, and lower the sender's estimate. */
    method ReceiveConfirmElection(sender: int, step: int)
      requires Valid() && 0 <= sender < totalNodes
      modifies this, failureEstimates
      ensures Valid()
      ensures leader == sender && candidates == [] && myCandidates == []
      ensures failureEstimates[..] == old(failureEstimates[..])[sender := 0.0]
      ensures isFailed == old(isFailed) && outQueue == old(outQueue) && epsilon == old(epsilon)
    {
      leader := sender;
      candidates := [];
      myCandidates := [];
      UpdateDown(sender);
    }

    /** `recieve_candidate_msg`: keep the sender's list, lower the sender's
        estimate, then decide by plurality once a quorum is reached; a node
        that elects itself queues a confirmation unless it is failed. */
    method ReceiveCandidate(sender: int, step: int, proposal: seq<int>) returns (st: Status)
      requires Valid() && 0 <= sender < totalNodes && IdsBelow(proposal, totalNodes)
      modifies this, failureEstimates
      ensures Valid()
      ensures var received := old(candidates) + [proposal];
        var d := Decide(received, old(myCandidates), totalNodes);
        && candidates == Kept(received, old(myCandidates), totalNodes)
        && failureEstimates[..] == old(failureEstimates[..])[sender := 0.0]
        && st == (if d.Raises? then Raised(d.error) else Completed)
        && leader == (if d.Elected? then d.leader else old(leader))
        && outQueue == old(outQueue) + (if d.Elected? && d.leader == id && !isFailed then [Rendered(ConfirmElectionMessage(id, 0))] else [])
      ensures myCandidates == old(myCandidates) && isFailed == old(isFailed) && epsilon == old(epsilon)
    {
      var received := candidates + [proposal];
      var d := Decide(received, myCandidates, totalNodes);
      KeptIdsBelow(candidates, proposal, myCandidates, totalNodes);
      DecideAttempted(received, myCandidates, totalNodes);
      candidates := received;
      UpdateDown(sender);
      if Quorum(|candidates|, totalNodes) && |myCandidates| > 0 {
        candidates := candidates + [myCandidates];
        if d.Elected? {
          ElectedIsNode(received, myCandidates, totalNodes);
          leader := d.leader;
          if leader == id && !isFailed {
            outQueue := outQueue + [Rendered(ConfirmElectionMessage(id, 0))];
          }
          st := Completed;
        } else {
          st := Raised(d.error);
        }
      } else {
        st := Completed;
      }
    }

    /** The "FailureMsg" branch of learning/v2.py:168-176: the flag is set to
        the opposite of what the environment sent, then the node raises its
        own estimate. */
    method ReceiveFailure(failureVal: string)
      requires Valid()
      modifies this, failureEstimates
      ensures Valid()
      ensures isFailed == (failureVal != "True")
      ensures failureEstimates[..] == old(failureEstimates[..])[id := 1.0]
      ensures leader == old(leader) && outQueue == old(outQueue) && candidates == old(candidates)
      ensures myCandidates == old(myCandidates) && epsilon == old(epsilon)
    {
      if failureVal == "True" {
        isFailed := false;
      } else {
        isFailed := true;
      }
      UpdateUp(id);
    }
  }
}
