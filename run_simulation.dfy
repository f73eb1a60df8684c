/** `run_nodes` of run_simulation.py:19-35: the synchronous driver of the
    round-based engine. Each round every node sends, in index order, into
    the shared buffer; then every node receives the list addressed to it and
    that slot is replaced by what `recieve` returns. The sleep between rounds
    and the final printing are not modelled. */
module RunSimulation {
  import opened Common
  import opened Messages
  import opened V1

  predicate StatesOk(states: seq<V1State>, n: nat)
  {
    |states| == n && forall k :: 0 <= k < |states| ==> StateOk(states[k]) && states[k].n == n
  }

  predicate BufferOk(buf: seq<seq<Message>>, n: nat)
  {
    |buf| == n && forall b <- buf :: InboxProper(b, n)
  }

  ghost predicate CoinsOk(coin: (int, int) -> Coin, n: nat)
  {
    forall t, k :: CoinOk(coin(t, k), n)
  }

  /** A live or failed node's `send` keeps the cluster well formed. */
  lemma SendStepOk(states: seq<V1State>, buf: seq<seq<Message>>, k: nat)
    requires StatesOk(states, |buf|) && BufferOk(buf, |buf|) && k < |states|
    ensures var next := SendSpec(states[k], buf);
      StatesOk(states[k := next.0], |buf|) && BufferOk(next.1, |buf|)
  {
    SendProper(states[k], buf);
  }

  /** A node's `recieve` of its own slot completes without raising and
      keeps the cluster well formed. */
  lemma RecvStepOk(states: seq<V1State>, buf: seq<seq<Message>>, step: int, k: nat,
                   counts: seq<real>, coin: Coin)
    requires StatesOk(states, |buf|) && BufferOk(buf, |buf|) && k < |states|
    requires CountsOk(counts, |buf|) && CoinOk(coin, |buf|)
    ensures InboxOk(buf[k], |buf|)
    ensures var next := Recv(states[k], buf[k], step, counts, coin);
      StatesOk(states[k := next.0], |buf|) && BufferOk(buf[k := next.1], |buf|)
      && next.0.isFailed == states[k].isFailed && next.2 == Completed
  {
    assert buf[k] in buf;
    RecvProper(states[k], buf[k], step, counts, coin);
    var next := Recv(states[k], buf[k], step, counts, coin);
    forall b | b in buf[k := next.1] ensures InboxProper(b, |buf|) {
      var j :| 0 <= j < |buf| && buf[k := next.1][j] == b;
      if j != k {
        assert buf[j] in buf;
      }
    }
  }

  /** The send loop of run_simulation.py:28-29 from node `k` on: each node
      gets the buffer the previous one returned. */
  function SendAll(states: seq<V1State>, buf: seq<seq<Message>>, k: nat): (r: (seq<V1State>, seq<seq<Message>>))
    requires StatesOk(states, |buf|) && BufferOk(buf, |buf|) && k <= |states|
    ensures StatesOk(r.0, |buf|) && BufferOk(r.1, |buf|)
    decreases |states| - k
  {
    if k == |states| then (states, buf)
    else
      SendStepOk(states, buf, k);
      var next := SendSpec(states[k], buf);
      SendAll(states[k := next.0], next.1, k + 1)
  }

  /** The receive loop of run_simulation.py:32-33 from node `k` on: node `k`
      reads slot `k` and the slot is replaced by the returned list. The
      status is dropped: RecvStepOk shows it is always Completed. */
  function RecvAll(states: seq<V1State>, buf: seq<seq<Message>>, step: int, k: nat,
                   counts: seq<real>, coin: (int, int) -> Coin): (r: (seq<V1State>, seq<seq<Message>>))
    requires StatesOk(states, |buf|) && BufferOk(buf, |buf|) && k <= |states|
    requires CountsOk(counts, |buf|) && CoinsOk(coin, |buf|)
    ensures StatesOk(r.0, |buf|) && BufferOk(r.1, |buf|)
    decreases |states| - k
  {
    if k == |states| then (states, buf)
    else
      RecvStepOk(states, buf, step, k, counts, coin(step, k));
      var next := Recv(states[k], buf[k], step, counts, coin(step, k));
      RecvAll(states[k := next.0], buf[k := next.1], step, k + 1, counts, coin)
  }

  /** One round: all sends, then all receives. */
  function Round(states: seq<V1State>, buf: seq<seq<Message>>, step: int,
                 counts: seq<real>, coin: (int, int) -> Coin): (r: (seq<V1State>, seq<seq<Message>>))
    requires StatesOk(states, |buf|) && BufferOk(buf, |buf|)
    requires CountsOk(counts, |buf|) && CoinsOk(coin, |buf|)
    ensures StatesOk(r.0, |buf|) && BufferOk(r.1, |buf|)
  {
    var sent := SendAll(states, buf, 0);
    RecvAll(sent.0, sent.1, step, 0, counts, coin)
  }

  /** The rounds numbered `step .. steps-1`, one after the other. */
  function RunFrom(states: seq<V1State>, buf: seq<seq<Message>>, step: int, steps: int,
                   counts: seq<real>, coin: (int, int) -> Coin): (r: (seq<V1State>, seq<seq<Message>>))
    requires StatesOk(states, |buf|) && BufferOk(buf, |buf|)
    requires CountsOk(counts, |buf|) && CoinsOk(coin, |buf|)
    ensures StatesOk(r.0, |buf|) && BufferOk(r.1, |buf|)
    decreases steps - step
  {
    if step >= steps then (states, buf)
    else
      var next := Round(states, buf, step, counts, coin);
      RunFrom(next.0, next.1, step + 1, steps, counts, coin)
  }

  /** Messages a node puts into slot `d` when it sends: nothing if it is
      failed, else its queue's entries for `d` in pop order. */
  function Outbox(s: V1State, d: int): seq<Message>
  {
    if s.isFailed then [] else Popped(s.outQueue, d)
  }

  /** What nodes `k ..` put into slot `d`, in node order. */
  function OutboxFrom(states: seq<V1State>, k: nat, d: int): seq<Message>
    decreases |states| - k
  {
    if k >= |states| then [] else Outbox(states[k], d) + OutboxFrom(states, k + 1, d)
  }

  /** `OutboxFrom` looks only at nodes from `k` on. */
  lemma {:induction false} OutboxFromTail(a: seq<V1State>, b: seq<V1State>, k: nat, d: int)
    requires |a| == |b| && forall j :: k <= j < |a| ==> a[j] == b[j]
    ensures OutboxFrom(a, k, d) == OutboxFrom(b, k, d)
    decreases |a| - k
  {
    if k < |a| {
      OutboxFromTail(a, b, k + 1, d);
    }
  }

  /** Each node's state after the sends is what its own `send` makes of
      it; the buffer it saw does not matter. */
  lemma {:induction false} SendAllStates(states: seq<V1State>, buf: seq<seq<Message>>, k: nat)
    requires StatesOk(states, |buf|) && BufferOk(buf, |buf|) && k <= |states|
    ensures forall j :: k <= j < |states| ==> SendAll(states, buf, k).0[j] == SendSpec(states[j], buf).0
    ensures forall j :: 0 <= j < k ==> SendAll(states, buf, k).0[j] == states[j]
    decreases |states| - k
  {
    if k < |states| {
      SendStepOk(states, buf, k);
      var next := SendSpec(states[k], buf);
      SendAllStates(states[k := next.0], next.1, k + 1);
    }
  }

  /** One node's `send` appends to slot `d` exactly its own messages for `d`. */
  lemma SendOneSlot(s: V1State, buf: seq<seq<Message>>, d: nat)
    requires StateOk(s) && |buf| == s.n && d < |buf|
    ensures SendSpec(s, buf).1[d] == buf[d] + Outbox(s, d)
  {
    if !s.isFailed {
      DeliverSlot(buf, s.outQueue, d);
    }
  }

  /** After the sends, every slot holds what it held before followed by the
      messages for it from node `k`, then node `k+1`, and so on. */
  lemma {:induction false} SendAllSlots(states: seq<V1State>, buf: seq<seq<Message>>, k: nat, d: nat)
    requires StatesOk(states, |buf|) && BufferOk(buf, |buf|) && k <= |states| && d < |buf|
    ensures SendAll(states, buf, k).1[d] == buf[d] + OutboxFrom(states, k, d)
    decreases |states| - k
  {
    if k < |states| {
      SendStepOk(states, buf, k);
      var next := SendSpec(states[k], buf);
      var states' := states[k := next.0];
      assert SendAll(states, buf, k) == SendAll(states', next.1, k + 1);
      SendAllSlots(states', next.1, k + 1, d);
      SendOneSlot(states[k], buf, d);
      OutboxFromTail(states, states', k + 1, d);
      assert OutboxFrom(states, k, d) == Outbox(states[k], d) + OutboxFrom(states, k + 1, d);
      ConcatAssoc(buf[d], Outbox(states[k], d), OutboxFrom(states, k + 1, d));
    }
  }

  /** The receives do not interact: node `j` ends up exactly as receiving its
      own slot would leave it, and its slot holds what it returned; slots
      and nodes before `k` are untouched. */
  lemma {:induction false} RecvAllPointwise(states: seq<V1State>, buf: seq<seq<Message>>, step: int, k: nat,
                                            counts: seq<real>, coin: (int, int) -> Coin)
    requires StatesOk(states, |buf|) && BufferOk(buf, |buf|) && k <= |states|
    requires CountsOk(counts, |buf|) && CoinsOk(coin, |buf|)
    ensures forall j :: k <= j < |states| ==>
      && InboxOk(buf[j], |buf|)
      && RecvAll(states, buf, step, k, counts, coin).0[j] == Recv(states[j], buf[j], step, counts, coin(step, j)).0
      && RecvAll(states, buf, step, k, counts, coin).1[j] == Recv(states[j], buf[j], step, counts, coin(step, j)).1
    ensures forall j :: 0 <= j < k ==>
      RecvAll(states, buf, step, k, counts, coin).0[j] == states[j] && RecvAll(states, buf, step, k, counts, coin).1[j] == buf[j]
    decreases |states| - k
  {
    if k < |states| {
      RecvStepOk(states, buf, step, k, counts, coin(step, k));
      var next := Recv(states[k], buf[k], step, counts, coin(step, k));
      RecvAllPointwise(states[k := next.0], buf[k := next.1], step, k + 1, counts, coin);
      forall j | k < j < |states| ensures InboxOk(buf[j], |buf|) {
        RecvStepOk(states, buf, step, j, counts, coin(step, j));
      }
    }
  }

  /** After a round, the slot of every live node is empty and the slot of
      every failed node holds its old messages followed by the ones just
      sent to it, node by node in index order. */
  lemma RoundSlots(states: seq<V1State>, buf: seq<seq<Message>>, step: int,
                   counts: seq<real>, coin: (int, int) -> Coin, d: nat)
    requires StatesOk(states, |buf|) && BufferOk(buf, |buf|) && d < |buf|
    requires CountsOk(counts, |buf|) && CoinsOk(coin, |buf|)
    ensures Round(states, buf, step, counts, coin).1[d] == if states[d].isFailed then buf[d] + OutboxFrom(states, 0, d) else []
  {
    var sent := SendAll(states, buf, 0);
    SendAllStates(states, buf, 0);
    SendAllSlots(states, buf, 0, d);
    var s := sent.0[d];
    assert s == SendSpec(states[d], buf).0;
    RecvAllAt(sent.0, sent.1, step, counts, coin, d);
    RecvSlot(s, sent.1[d], step, counts, coin(step, d));
  }

  /** `RecvAllPointwise` for the node and slot `d`. */
  lemma RecvAllAt(states: seq<V1State>, buf: seq<seq<Message>>, step: int,
                  counts: seq<real>, coin: (int, int) -> Coin, d: nat)
    requires StatesOk(states, |buf|) && BufferOk(buf, |buf|) && d < |buf|
    requires CountsOk(counts, |buf|) && CoinsOk(coin, |buf|)
    ensures InboxOk(buf[d], |buf|)
    ensures var r := Recv(states[d], buf[d], step, counts, coin(step, d));
      RecvAll(states, buf, step, 0, counts, coin).0[d] == r.0
      && RecvAll(states, buf, step, 0, counts, coin).1[d] == r.1
  {
    RecvAllPointwise(states, buf, step, 0, counts, coin);
  }

  /** What `recieve` hands back: a failed node its whole inbox, a live one
      nothing. */
  lemma RecvSlot(s: V1State, ms: seq<Message>, step: int, counts: seq<real>, coin: Coin)
    requires StateOk(s) && InboxOk(ms, s.n) && CountsOk(counts, s.n) && CoinOk(coin, s.n)
    ensures Recv(s, ms, step, counts, coin).1 == if s.isFailed then ms else []
  {
  }

  /** A failed node neither sends nor receives: a round leaves its state,
      outgoing queue included, exactly as it was. */
  lemma RoundFailedFrozen(states: seq<V1State>, buf: seq<seq<Message>>, step: int,
                          counts: seq<real>, coin: (int, int) -> Coin, d: nat)
    requires StatesOk(states, |buf|) && BufferOk(buf, |buf|) && d < |buf|
    requires CountsOk(counts, |buf|) && CoinsOk(coin, |buf|)
    requires states[d].isFailed
    ensures Round(states, buf, step, counts, coin).0[d] == states[d]
  {
    var sent := SendAll(states, buf, 0);
    SendAllStates(states, buf, 0);
    RecvAllPointwise(sent.0, sent.1, step, 0, counts, coin);
  }

  /** The nodes' states, in id order. */
  ghost function Snap(nodes: seq<V1Node>): (r: seq<V1State>)
    reads set nd | nd in nodes, set nd | nd in nodes :: nd.failureEstimates
    ensures |r| == |nodes| && forall k :: 0 <= k < |nodes| ==> r[k] == nodes[k].State()
  {
    seq(|nodes|, k reads set nd | nd in nodes, set nd | nd in nodes :: nd.failureEstimates =>
      if 0 <= k < |nodes| then nodes[k].State() else V1State(0, 0, false, [], 0, [], 0.0, 0.0, 0, 0))
  }

  /** Distinct nodes with distinct estimate arrays. */
  predicate Disjoint(nodes: seq<V1Node>)
  {
    && (forall a, b :: 0 <= a < b < |nodes| ==> nodes[a] != nodes[b])
    && (forall a, b :: 0 <= a < b < |nodes| ==> nodes[a].failureEstimates != nodes[b].failureEstimates)
  }

  ghost predicate Cluster(nodes: seq<V1Node>, buffer: array<seq<Message>>)
    reads buffer, set nd | nd in nodes, set nd | nd in nodes :: nd.failureEstimates
  {
    && |nodes| == buffer.Length
    && Disjoint(nodes)
    && (forall k :: 0 <= k < |nodes| ==> nodes[k].Valid() && nodes[k].totalNodes == |nodes|)
    && BufferOk(buffer[..], |nodes|)
  }

  /** A well-formed cluster has well-formed states and buffer. */
  lemma ClusterOk(nodes: seq<V1Node>, buffer: array<seq<Message>>)
    requires Cluster(nodes, buffer)
    ensures StatesOk(Snap(nodes), |nodes|) && BufferOk(buffer[..], |nodes|)
  {
  }

  /** `run_nodes`: rounds `0 .. steps-1`, one after the other. */
  method RunNodes(nodes: seq<V1Node>, buffer: array<seq<Message>>, steps: int,
                  counts: seq<real>, coin: (int, int) -> Coin)
    requires Cluster(nodes, buffer) && CountsOk(counts, |nodes|) && CoinsOk(coin, |nodes|)
    modifies buffer, set nd | nd in nodes, set nd | nd in nodes :: nd.failureEstimates
    ensures Cluster(nodes, buffer)
    ensures (Snap(nodes), buffer[..]) == RunFrom(old(Snap(nodes)), old(buffer[..]), 0, steps, counts, coin)
  {
    ClusterOk(nodes, buffer);
    ghost var target := RunFrom(Snap(nodes), buffer[..], 0, steps, counts, coin);
    var step := 0;
    while step < steps
      invariant Cluster(nodes, buffer)
      invariant StatesOk(Snap(nodes), |nodes|) && BufferOk(buffer[..], |nodes|)
      invariant RunFrom(Snap(nodes), buffer[..], step, steps, counts, coin) == target
      decreases steps - step
    {
      SendPhase(nodes, buffer);
      RecvPhase(nodes, buffer, step, counts, coin);
      step := step + 1;
    }
  }

  /** run_simulation.py:28-29. */
  method SendPhase(nodes: seq<V1Node>, buffer: array<seq<Message>>)
    requires Cluster(nodes, buffer)
    modifies buffer, set nd | nd in nodes
    ensures Cluster(nodes, buffer)
    ensures (Snap(nodes), buffer[..]) == SendAll(old(Snap(nodes)), old(buffer[..]), 0)
  {
    ClusterOk(nodes, buffer);
    ghost var target := SendAll(Snap(nodes), buffer[..], 0);
    var i := 0;
    while i < |nodes|
      invariant 0 <= i <= |nodes|
      invariant Cluster(nodes, buffer)
      invariant StatesOk(Snap(nodes), |nodes|) && BufferOk(buffer[..], |nodes|)
      invariant SendAll(Snap(nodes), buffer[..], i) == target
    {
      ghost var s0 := Snap(nodes);
      ghost var b0 := buffer[..];
      SendOne(nodes, buffer, i);
      ghost var next := SendSpec(s0[i], b0);
      assert SendAll(s0, b0, i) == SendAll(s0[i := next.0], next.1, i + 1);
      i := i + 1;
    }
  }

  /** run_simulation.py:29 for node `i`: only node `i` and the buffer
      change, as that node's `send` specifies. */
  method SendOne(nodes: seq<V1Node>, buffer: array<seq<Message>>, i: nat)
    requires Cluster(nodes, buffer) && i < |nodes|
    modifies buffer, nodes[i]
    ensures Cluster(nodes, buffer)
    ensures var next := SendSpec(old(Snap(nodes))[i], old(buffer[..]));
      Snap(nodes) == old(Snap(nodes))[i := next.0] && buffer[..] == next.1
  {
    ghost var s0 := Snap(nodes);
    ghost var b0 := buffer[..];
    SendStepOk(s0, b0, i);
    var node := nodes[i];
    node.Send(buffer);
    assert forall j :: 0 <= j < |nodes| && j != i ==> nodes[j] != node;
    assert Snap(nodes) == s0[i := node.State()];
  }

  /** run_simulation.py:32-33. */
  method RecvPhase(nodes: seq<V1Node>, buffer: array<seq<Message>>, step: int,
                   counts: seq<real>, coin: (int, int) -> Coin)
    requires Cluster(nodes, buffer) && CountsOk(counts, |nodes|) && CoinsOk(coin, |nodes|)
    modifies buffer, set nd | nd in nodes, set nd | nd in nodes :: nd.failureEstimates
    ensures Cluster(nodes, buffer)
    ensures (Snap(nodes), buffer[..]) == RecvAll(old(Snap(nodes)), old(buffer[..]), step, 0, counts, coin)
  {
    ClusterOk(nodes, buffer);
    ghost var target := RecvAll(Snap(nodes), buffer[..], step, 0, counts, coin);
    var i := 0;
    while i < |nodes|
      invariant 0 <= i <= |nodes|
      invariant Cluster(nodes, buffer)
      invariant StatesOk(Snap(nodes), |nodes|) && BufferOk(buffer[..], |nodes|)
      invariant RecvAll(Snap(nodes), buffer[..], step, i, counts, coin) == target
    {
      RecvStepOk(Snap(nodes), buffer[..], step, i, counts, coin(step, i));
      RecvOne(nodes, buffer, i, step, counts, coin);
      i := i + 1;
    }
  }

  /** One turn of the receive loop. */
  lemma RecvAllStep(states: seq<V1State>, buf: seq<seq<Message>>, step: int, k: nat,
                    counts: seq<real>, coin: (int, int) -> Coin)
    requires StatesOk(states, |buf|) && BufferOk(buf, |buf|) && k < |states|
    requires CountsOk(counts, |buf|) && CoinsOk(coin, |buf|)
    ensures InboxOk(buf[k], |buf|)
    ensures var next := Recv(states[k], buf[k], step, counts, coin(step, k));
      && StatesOk(states[k := next.0], |buf|) && BufferOk(buf[k := next.1], |buf|)
      && RecvAll(states, buf, step, k, counts, coin)
         == RecvAll(states[k := next.0], buf[k := next.1], step, k + 1, counts, coin)
  {
    RecvStepOk(states, buf, step, k, counts, coin(step, k));
  }

  /** run_simulation.py:33 for node `i`: only node `i` and slot `i` change. */
  method RecvOne(nodes: seq<V1Node>, buffer: array<seq<Message>>, i: nat, step: int,
                 counts: seq<real>, coin: (int, int) -> Coin)
    requires Cluster(nodes, buffer) && i < |nodes| && CountsOk(counts, |nodes|) && CoinsOk(coin, |nodes|)
    requires InboxOk(buffer[i], |nodes|)
    modifies buffer, nodes[i], nodes[i].failureEstimates
    ensures Cluster(nodes, buffer)
    ensures var next := Recv(old(Snap(nodes))[i], old(buffer[..])[i], step, counts, coin(step, i));
      Snap(nodes) == old(Snap(nodes))[i := next.0] && buffer[..] == old(buffer[..])[i := next.1]
    ensures StatesOk(Snap(nodes), |nodes|) && BufferOk(buffer[..], |nodes|)
    ensures RecvAll(Snap(nodes), buffer[..], step, i + 1, counts, coin)
         == RecvAll(old(Snap(nodes)), old(buffer[..]), step, i, counts, coin)
  {
    ghost var s0 := Snap(nodes);
    ghost var b0 := buffer[..];
    RecvAllStep(s0, b0, step, i, counts, coin);
    var node := nodes[i];
    var r, st := node.Recieve(buffer[i], step, counts, coin(step, i));
    buffer[i] := r;
    assert forall j :: 0 <= j < |nodes| && j != i ==> nodes[j] != node && nodes[j].failureEstimates != node.failureEstimates;
    assert Snap(nodes) == s0[i := node.State()];
    assert buffer[..] == b0[i := r];
  }
}
