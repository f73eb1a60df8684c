/** The round-based election engine of learning/v1.py. A node sends by
    popping its out-queue into the shared per-destination buffer, and
    receives the list addressed to it for the current step. The count
    array the program reads as `self.candidate_count` (an attribute no code
    defines) is the parameter `counts`; the random number and draw of
    `_select_leader` are the parameter `coin`. */
module V1 {
  import opened Common
  import opened Messages
  import Estimates
  import Selector
  import Vote

  /** The random inputs of one `_select_leader` call: `np.random.rand()` and
      the result of `rng.choice`. */
  datatype Coin = Coin(u: real, draw: seq<int>)

  /** A value snapshot of a v1 node. */
  datatype V1State = V1State(
    id: int, n: nat, isFailed: bool, est: seq<real>, leader: int,
    outQueue: seq<(int, Message)>, epsilon: real, decay: real,
    timeout: int, cnt: int)

  /** A message a node of an `n`-node cluster can receive: it comes from a
      node and proposes ids the selector can produce. */
  predicate MessageOk(m: Message, n: nat)
  {
    && 0 <= m.sender < n
    && (m.CandidateMessage? ==> forall x <- m.candidates :: -1 <= x < n)
  }

  predicate InboxOk(ms: seq<Message>, n: nat)
  {
    forall m <- ms :: MessageOk(m, n)
  }

  /** A message as the nodes of this engine send it: candidates are node ids. */
  predicate Proper(m: Message, n: nat)
  {
    MessageOk(m, n) && (m.CandidateMessage? ==> forall x <- m.candidates :: 0 <= x < n)
  }

  predicate InboxProper(ms: seq<Message>, n: nat)
  {
    forall m <- ms :: Proper(m, n)
  }

  predicate StateOk(s: V1State)
  {
    && |s.est| == s.n
    && 0 <= s.id < s.n
    && 0 <= s.leader < s.n
    && forall e <- s.outQueue :: 0 <= e.0 < s.n && Proper(e.1, s.n)
  }

  predicate CountsOk(counts: seq<real>, n: nat)
  {
    |counts| == n && forall i :: 0 <= i < n ==> counts[i] >= 0.0
  }

  predicate CoinOk(coin: Coin, n: nat)
  {
    Selector.ValidDraw(coin.draw, n, Selector.TopN(n))
  }

  /** One candidate message per node id `0 .. n-1`, the sender included. */
  function Broadcast(id: int, step: int, ids: seq<int>, n: nat): (q: seq<(int, Message)>)
    ensures |q| == n
    ensures forall i :: 0 <= i < n ==> q[i] == (i, CandidateMessage(id, step, ids))
  {
    seq(n, i => (i, CandidateMessage(id, step, ids)))
  }

  /** Appending a broadcast of node ids keeps the out-queue well formed. */
  lemma BroadcastKeepsQueueOk(s: V1State, step: int, ids: seq<int>)
    requires StateOk(s) && forall x <- ids :: 0 <= x < s.n
    ensures forall e <- s.outQueue + Broadcast(s.id, step, ids, s.n) :: 0 <= e.0 < s.n && Proper(e.1, s.n)
  {
  }

  /** learning/v1.py:90-95, the silence count at the timeout: lower the
      leader's estimate, propose candidates, decay ε and queue the proposal
      for every node. */
  function OnTimeout(s: V1State, step: int, counts: seq<real>, coin: Coin): (r: V1State)
    requires StateOk(s) && CountsOk(counts, s.n) && CoinOk(coin, s.n)
    ensures StateOk(r)
    ensures r.id == s.id && r.n == s.n && r.isFailed == s.isFailed && r.leader == s.leader
    ensures r.decay == s.decay && r.timeout == s.timeout && r.cnt == s.cnt
  {
    var est := s.est[s.leader := Estimates.Down(s.est[s.leader], counts[s.leader])];
    Selector.ChooseTopNIds(coin.u, s.epsilon, est, s.leader, coin.draw);
    var ids := Selector.Choose(coin.u, s.epsilon, est, Selector.TopN(s.n), s.leader, coin.draw);
    BroadcastKeepsQueueOk(s, step, ids);
    s.(est := est, epsilon := Selector.Decayed(s.epsilon, s.decay),
       outQueue := s.outQueue + Broadcast(s.id, step, ids, s.n))
  }

  /** learning/v1.py:84-97, an empty inbox: count one more silent step; when
      the count reaches the timeout, act on it. */
  function OnSilence(s: V1State, step: int, counts: seq<real>, coin: Coin): (r: V1State)
    requires StateOk(s) && CountsOk(counts, s.n) && CoinOk(coin, s.n)
    ensures StateOk(r)
    ensures r.id == s.id && r.n == s.n && r.isFailed == s.isFailed && r.leader == s.leader
    ensures r.decay == s.decay && r.timeout == s.timeout
  {
    var counted := s.(cnt := s.cnt + 1);
    if s.timeout == counted.cnt then OnTimeout(counted, step, counts, coin) else counted
  }

  /** One message of the receive loop (learning/v1.py:104-119): stale
      messages are skipped; a current one from the leader resets the silence
      count; a confirmation makes its sender the leader and raises its
      estimate; candidate ids are collected. */
  function ScanOne(s: V1State, m: Message, step: int, counts: seq<real>): (r: (V1State, seq<int>))
    requires StateOk(s) && MessageOk(m, s.n) && CountsOk(counts, s.n)
    ensures StateOk(r.0)
    ensures r.0 == s.(leader := r.0.leader, est := r.0.est, cnt := r.0.cnt)
  {
    if m.step != step - 1 then (s, [])
    else
      var s1 := if m.sender == s.leader then s.(cnt := 0) else s;
      var s2 := if m.ConfirmElectionMessage? then
          s1.(leader := m.sender, est := s1.est[m.sender := Estimates.Up(s1.est[m.sender], counts[m.sender])])
        else s1;
      (s2, if m.CandidateMessage? then m.candidates else [])
  }

  /** The receive loop over all messages, in order. */
  function Scan(s: V1State, ms: seq<Message>, step: int, counts: seq<real>): (r: (V1State, seq<int>))
    requires StateOk(s) && InboxOk(ms, s.n) && CountsOk(counts, s.n)
    ensures StateOk(r.0)
    ensures r.0 == s.(leader := r.0.leader, est := r.0.est, cnt := r.0.cnt)
  {
    if ms == [] then (s, [])
    else
      var prev := Scan(s, ms[..|ms| - 1], step, counts);
      var next := ScanOne(prev.0, ms[|ms| - 1], step, counts);
      (next.0, prev.1 + next.1)
  }

  /** `recieve`: returns the new state, the list returned to the driver and
      whether `np.bincount` raised. A failed node hands its inbox back
      untouched; a live one returns `[]` and, if it collected candidates,
      follows their plurality. */
  function Recv(s: V1State, ms: seq<Message>, step: int, counts: seq<real>, coin: Coin): (r: (V1State, seq<Message>, Status))
    requires StateOk(s) && InboxOk(ms, s.n) && CountsOk(counts, s.n) && CoinOk(coin, s.n)
  {
    if s.isFailed then (s, ms, Completed)
    else if ms == [] then (OnSilence(s, step, counts, coin), [], Completed)
    else
      var (s1, cands) := Scan(s, ms, step, counts);
      if cands == [] then (s1, [], Completed)
      else match Vote.Plurality(cands)
        case None => (s1, [], Raised(ValueError))
        case Some(w) => (s1.(leader := w), [], Completed)
  }

  /** `recieve` on a failed node changes nothing and hands its input back. */
  lemma RecvFailed(s: V1State, ms: seq<Message>, step: int, counts: seq<real>, coin: Coin)
    requires StateOk(s) && InboxOk(ms, s.n) && CountsOk(counts, s.n) && CoinOk(coin, s.n)
    requires s.isFailed
    ensures Recv(s, ms, step, counts, coin) == (s, ms, Completed)
  {
  }

  /** An empty inbox counts exactly one silent step. Before the timeout is
      reached nothing else changes; on reaching it the node queues one
      candidate message for every node id, itself included, stamped with the
      current step, and ε decays once. */
  lemma RecvSilence(s: V1State, step: int, counts: seq<real>, coin: Coin)
    requires StateOk(s) && CountsOk(counts, s.n) && CoinOk(coin, s.n) && !s.isFailed
    ensures var r := Recv(s, [], step, counts, coin);
      && r.0.cnt == s.cnt + 1 && r.1 == [] && r.2 == Completed
      && r.0.leader == s.leader && r.0.isFailed == s.isFailed
      && (s.cnt + 1 != s.timeout ==> r.0 == s.(cnt := s.cnt + 1))
      && (s.cnt + 1 == s.timeout ==>
            && r.0.epsilon == Selector.Decayed(s.epsilon, s.decay)
            && |r.0.outQueue| == |s.outQueue| + s.n
            && r.0.outQueue[..|s.outQueue|] == s.outQueue
            && forall j :: |s.outQueue| <= j < |r.0.outQueue| ==>
                 && r.0.outQueue[j].0 == j - |s.outQueue|
                 && r.0.outQueue[j].1.CandidateMessage?
                 && r.0.outQueue[j].1.sender == s.id
                 && r.0.outQueue[j].1.step == step)
  {
  }

  /** The messages of `ms` stamped with `step`. */
  function Current(ms: seq<Message>, step: int): (r: seq<Message>)
    ensures forall m <- r :: m in ms && m.step == step
  {
    if ms == [] then []
    else Current(ms[..|ms| - 1], step) + (if ms[|ms| - 1].step == step then [ms[|ms| - 1]] else [])
  }

  /** The receive loop over one more message. */
  lemma ScanSnoc(s: V1State, ms: seq<Message>, k: nat, step: int, counts: seq<real>)
    requires StateOk(s) && InboxOk(ms, s.n) && CountsOk(counts, s.n) && k < |ms|
    ensures InboxOk(ms[..k], s.n) && InboxOk(ms[..k + 1], s.n) && MessageOk(ms[k], s.n)
    ensures var prev := Scan(s, ms[..k], step, counts);
      var next := ScanOne(prev.0, ms[k], step, counts);
      Scan(s, ms[..k + 1], step, counts) == (next.0, prev.1 + next.1)
  {
    InboxOkPrefix(ms, k, s.n);
    InboxOkPrefix(ms, k + 1, s.n);
    assert ms[k] in ms;
    assert ms[..k + 1][..k] == ms[..k];
  }

  lemma InboxOkPrefix(ms: seq<Message>, k: nat, n: nat)
    requires InboxOk(ms, n) && k <= |ms|
    ensures InboxOk(ms[..k], n)
  {
    forall m <- ms[..k] ensures MessageOk(m, n) {
      assert m in ms;
    }
  }

  /** Only messages of the previous step matter: dropping every other
      message leaves the receive loop's result unchanged. */
  lemma {:induction false} ScanOnlyPrevious(s: V1State, ms: seq<Message>, step: int, counts: seq<real>)
    requires StateOk(s) && InboxOk(ms, s.n) && CountsOk(counts, s.n)
    ensures InboxOk(Current(ms, step - 1), s.n)
    ensures Scan(s, Current(ms, step - 1), step, counts) == Scan(s, ms, step, counts)
  {
    if ms != [] {
      var init := ms[..|ms| - 1];
      var last := ms[|ms| - 1];
      InboxOkPrefix(ms, |ms| - 1, s.n);
      ScanOnlyPrevious(s, init, step, counts);
      var c := Current(init, step - 1);
      var prev := Scan(s, init, step, counts);
      assert Scan(s, c, step, counts) == prev;
      if last.step == step - 1 {
        var c2 := c + [last];
        assert Current(ms, step - 1) == c2;
        assert c2[..|c2| - 1] == c;
        assert c2[|c2| - 1] == last;
      } else {
        assert Current(ms, step - 1) == c + [];
        assert c + [] == c;
        assert ScanOne(prev.0, last, step, counts) == (prev.0, []);
        assert prev.1 + [] == prev.1;
      }
    }
  }

  /** A current message from the leader that is not a confirmation resets
      the silence count to 0 and leaves the leader in place. */
  lemma ScanLeaderResets(s: V1State, m: Message, step: int, counts: seq<real>)
    requires StateOk(s) && MessageOk(m, s.n) && CountsOk(counts, s.n)
    requires m.step == step - 1 && m.sender == s.leader
    ensures ScanOne(s, m, step, counts).0.cnt == 0
    ensures ScanOne(s, m, step, counts).0.leader == s.leader
  {
  }

  /** The receive loop never raises the silence count: it keeps it or
      resets it to 0. */
  lemma {:induction false} ScanCount(s: V1State, ms: seq<Message>, step: int, counts: seq<real>)
    requires StateOk(s) && InboxOk(ms, s.n) && CountsOk(counts, s.n)
    ensures Scan(s, ms, step, counts).0.cnt in {0, s.cnt}
  {
    if ms != [] {
      assert InboxOk(ms[..|ms| - 1], s.n) by {
        forall m <- ms[..|ms| - 1] ensures MessageOk(m, s.n) {
          assert m in ms;
        }
      }
      ScanCount(s, ms[..|ms| - 1], step, counts);
    }
  }

  /** Once candidates were collected the node follows the most frequent
      one, lowest on ties, unless a negative id makes numpy raise. */
  lemma RecvElects(s: V1State, ms: seq<Message>, step: int, counts: seq<real>, coin: Coin)
    requires StateOk(s) && InboxOk(ms, s.n) && CountsOk(counts, s.n) && CoinOk(coin, s.n)
    requires !s.isFailed && ms != [] && Scan(s, ms, step, counts).1 != []
    ensures var cands := Scan(s, ms, step, counts).1;
      var r := Recv(s, ms, step, counts, coin);
      && (r.2 == Completed <==> Vote.NonNegative(cands))
      && (r.2 == Completed ==> Vote.IsLowestMode(cands, r.0.leader))
      && r.1 == []
  {
    Vote.PluralityIsLowestMode(Scan(s, ms, step, counts).1);
  }

  /** The ids collected by the receive loop come from candidate messages. */
  lemma {:induction false} ScanCandidates(s: V1State, ms: seq<Message>, step: int, counts: seq<real>, lo: int)
    requires StateOk(s) && InboxOk(ms, s.n) && CountsOk(counts, s.n)
    requires forall m <- ms :: m.CandidateMessage? ==> forall x <- m.candidates :: lo <= x < s.n
    ensures forall x <- Scan(s, ms, step, counts).1 :: lo <= x < s.n
  {
    if ms != [] {
      assert InboxOk(ms[..|ms| - 1], s.n) by {
        forall m <- ms[..|ms| - 1] ensures MessageOk(m, s.n) {
          assert m in ms;
        }
      }
      assert forall m <- ms[..|ms| - 1] :: m in ms;
      ScanCandidates(s, ms[..|ms| - 1], step, counts, lo);
    }
  }

  /** A node receiving only messages as the engine sends them never raises,
      and stays well formed. */
  lemma RecvProper(s: V1State, ms: seq<Message>, step: int, counts: seq<real>, coin: Coin)
    requires StateOk(s) && InboxProper(ms, s.n) && CountsOk(counts, s.n) && CoinOk(coin, s.n)
    ensures InboxOk(ms, s.n)
    ensures var r := Recv(s, ms, step, counts, coin);
      && r.2 == Completed && StateOk(r.0) && r.0.n == s.n && r.0.id == s.id
      && r.0.isFailed == s.isFailed && r.0.timeout == s.timeout && r.0.decay == s.decay
      && InboxProper(r.1, s.n)
  {
    assert InboxOk(ms, s.n);
    if !s.isFailed && ms != [] {
      var cands := Scan(s, ms, step, counts).1;
      ScanCandidates(s, ms, step, counts, 0);
      if cands != [] {
        Vote.PluralityIsLowestMode(cands);
        var w := Vote.Plurality(cands).value;
        assert w in multiset(cands);
        assert w in cands;
      }
    }
  }

  /** The messages for destination `d`, in the order `pop()` takes them off
      the end of the queue. */
  function Popped(q: seq<(int, Message)>, d: int): seq<Message>
  {
    if q == [] then []
    else (if q[|q| - 1].0 == d then [q[|q| - 1].1] else []) + Popped(q[..|q| - 1], d)
  }

  /** learning/v1.py:65-67: pop entries off the end of the queue and append
      each message to its destination's list. */
  function Deliver(buf: seq<seq<Message>>, q: seq<(int, Message)>): (r: seq<seq<Message>>)
    requires forall e <- q :: 0 <= e.0 < |buf|
    ensures |r| == |buf|
    decreases |q|
  {
    if q == [] then buf
    else
      var e := q[|q| - 1];
      assert forall f <- q[..|q| - 1] :: f in q;
      Deliver(buf[e.0 := buf[e.0] + [e.1]], q[..|q| - 1])
  }

  /** Each destination's list gains exactly the messages addressed to it, in
      pop order; a destination nothing is addressed to keeps its list. */
  lemma {:induction false} DeliverSlot(buf: seq<seq<Message>>, q: seq<(int, Message)>, d: int)
    requires forall e <- q :: 0 <= e.0 < |buf|
    requires 0 <= d < |buf|
    ensures Deliver(buf, q)[d] == buf[d] + Popped(q, d)
    decreases |q|
  {
    if q != [] {
      var e := q[|q| - 1];
      assert forall f <- q[..|q| - 1] :: f in q;
      DeliverSlot(buf[e.0 := buf[e.0] + [e.1]], q[..|q| - 1], d);
    }
  }

  /** `send`: a failed node keeps its queue and leaves the buffer alone; a
      live one empties its queue into the buffer. */
  function SendSpec(s: V1State, buf: seq<seq<Message>>): (r: (V1State, seq<seq<Message>>))
    requires StateOk(s) && |buf| == s.n
  {
    if s.isFailed then (s, buf) else (s.(outQueue := []), Deliver(buf, s.outQueue))
  }

  lemma {:induction false} DeliverProper(buf: seq<seq<Message>>, q: seq<(int, Message)>, n: nat)
    requires |buf| == n && forall e <- q :: 0 <= e.0 < n && Proper(e.1, n)
    requires forall b <- buf :: InboxProper(b, n)
    ensures forall b <- Deliver(buf, q) :: InboxProper(b, n)
    decreases |q|
  {
    if q != [] {
      var e := q[|q| - 1];
      assert forall f <- q[..|q| - 1] :: f in q;
      var buf' := buf[e.0 := buf[e.0] + [e.1]];
      assert forall b <- buf' :: InboxProper(b, n) by {
        forall i | 0 <= i < |buf'| ensures InboxProper(buf'[i], n) {
          assert buf[i] in buf;
        }
      }
      DeliverProper(buf', q[..|q| - 1], n);
    }
  }

  /** Sending keeps the node well formed and the buffer made of messages as
      the engine sends them. */
  lemma SendProper(s: V1State, buf: seq<seq<Message>>)
    requires StateOk(s) && |buf| == s.n && forall b <- buf :: InboxProper(b, s.n)
    ensures StateOk(SendSpec(s, buf).0) && SendSpec(s, buf).0.n == s.n
    ensures |SendSpec(s, buf).1| == s.n
    ensures forall b <- SendSpec(s, buf).1 :: InboxProper(b, s.n)
  {
    DeliverProper(buf, s.outQueue, s.n);
  }

  class V1Node {
    const id: int
    const totalNodes: nat
    var isFailed: bool
    const failureEstimates: array<real>
    var leader: int
    var outQueue: seq<(int, Message)>
    var epsilon: real
    const decay: real
    const leaderTimeout: int
    var leaderTimeoutCnt: int

    ghost function State(): V1State
      reads this, failureEstimates
    {
      V1State(id, totalNodes, isFailed, failureEstimates[..], leader, outQueue, epsilon, decay,
              leaderTimeout, leaderTimeoutCnt)
    }

    ghost predicate Valid()
      reads this, failureEstimates
    {
      failureEstimates.Length == totalNodes && StateOk(State())
    }

    /** learning/v1.py:9-23 on top of learning/node.py:11-25. */
    constructor (id: int, n: nat, initialEstimates: seq<real>, epsilon: real, decay: real, leaderTimeout: int)
      requires 0 <= id < n && n >= 2 && |initialEstimates| == n
      ensures Valid() && fresh(failureEstimates)
      ensures State() == V1State(id, n, false, initialEstimates, 1, [], epsilon, decay, leaderTimeout, 0)
    {
      this.id := id;
      totalNodes := n;
      isFailed := false;
      failureEstimates := new real[n](i => if 0 <= i < |initialEstimates| then initialEstimates[i] else 0.0);
      leader := 1;
      outQueue := [];
      this.epsilon := epsilon;
      this.decay := decay;
      this.leaderTimeout := leaderTimeout;
      leaderTimeoutCnt := 0;
    }

    /** `send`: the pop loop of learning/v1.py:65-67 on the shared buffer. */
    method Send(buffer: array<seq<Message>>)
      requires Valid() && buffer.Length == totalNodes
      modifies this, buffer
      ensures Valid()
      ensures (State(), buffer[..]) == SendSpec(old(State()), old(buffer[..]))
    {
      if !isFailed {
        while |outQueue| > 0
          invariant Valid()
          invariant isFailed == old(isFailed) && leader == old(leader) && epsilon == old(epsilon)
          invariant leaderTimeoutCnt == old(leaderTimeoutCnt)
          invariant forall e <- outQueue :: e in old(outQueue)
          invariant Deliver(buffer[..], outQueue) == Deliver(old(buffer[..]), old(outQueue))
          decreases |outQueue|
        {
          var e := outQueue[|outQueue| - 1];
          assert forall f <- outQueue[..|outQueue| - 1] :: f in outQueue;
          outQueue := outQueue[..|outQueue| - 1];
          buffer[e.0] := buffer[e.0] + [e.1];
        }
      }
    }

    /** `recieve` (learning/v1.py:72-124). */
    method Recieve(messages: seq<Message>, step: int, counts: seq<real>, coin: Coin)
      returns (r: seq<Message>, st: Status)
      requires Valid() && InboxOk(messages, totalNodes) && CountsOk(counts, totalNodes) && CoinOk(coin, totalNodes)
      modifies this, failureEstimates
      ensures Valid()
      ensures (State(), r, st) == Recv(old(State()), messages, step, counts, coin)
    {
      if isFailed {
        return messages, Completed;
      }
      if |messages| == 0 {
        CountSilence(step, counts, coin);
        return [], Completed;
      }
      var candidates := ScanMessages(messages, step, counts);
      if |candidates| > 0 {
        var w := Vote.Plurality(candidates);
        if w.None? {
          return [], Raised(ValueError);
        }
        ScanCandidates(old(State()), messages, step, counts, -1);
        Vote.PluralityIsLowestMode(candidates);
        assert w.value in multiset(candidates);
        assert w.value in candidates;
        leader := w.value;
      }
      return [], Completed;
    }

    /** The empty-inbox path of learning/v1.py:84-97. */
    method CountSilence(step: int, counts: seq<real>, coin: Coin)
      requires Valid() && CountsOk(counts, totalNodes) && CoinOk(coin, totalNodes)
      modifies this, failureEstimates
      ensures Valid()
      ensures State() == OnSilence(old(State()), step, counts, coin)
    {
      leaderTimeoutCnt := leaderTimeoutCnt + 1;
      if leaderTimeout == leaderTimeoutCnt {
        failureEstimates[leader] := Estimates.Down(failureEstimates[leader], counts[leader]);
        var ids := SelectLeader(Selector.TopN(totalNodes), coin);
        QueueCandidates(step, ids);
      }
    }

    /** learning/v1.py:94-95: one candidate message per node id. */
    method QueueCandidates(step: int, ids: seq<int>)
      requires Valid() && forall x <- ids :: 0 <= x < totalNodes
      modifies this
      ensures Valid()
      ensures State() == old(State()).(outQueue := old(outQueue) + Broadcast(id, step, ids, totalNodes))
    {
      var queue := outQueue;
      var i := 0;
      while i < totalNodes
        invariant 0 <= i <= totalNodes
        invariant queue == outQueue + Broadcast(id, step, ids, totalNodes)[..i]
      {
        queue := queue + [(i, CandidateMessage(id, step, ids))];
        i := i + 1;
      }
      outQueue := queue;
    }

    /** The loop of learning/v1.py:101-119 over the received messages. */
    method ScanMessages(messages: seq<Message>, step: int, counts: seq<real>) returns (candidates: seq<int>)
      requires Valid() && InboxOk(messages, totalNodes) && CountsOk(counts, totalNodes)
      modifies this, failureEstimates
      ensures Valid()
      ensures (State(), candidates) == Scan(old(State()), messages, step, counts)
    {
      ghost var start := State();
      candidates := [];
      var i := 0;
      while i < |messages|
        invariant 0 <= i <= |messages|
        invariant Valid()
        invariant InboxOk(messages[..i], totalNodes)
        invariant (State(), candidates) == Scan(start, messages[..i], step, counts)
      {
        ScanSnoc(start, messages, i, step, counts);
        assert messages[i] in messages;
        var found := ScanStep(messages[i], step, counts);
        candidates := candidates + found;
        i := i + 1;
      }
      assert messages[..i] == messages;
    }

    /** One turn of the loop of learning/v1.py:101-119. */
    method ScanStep(m: Message, step: int, counts: seq<real>) returns (found: seq<int>)
      requires Valid() && MessageOk(m, totalNodes) && CountsOk(counts, totalNodes)
      modifies this, failureEstimates
      ensures Valid()
      ensures (State(), found) == ScanOne(old(State()), m, step, counts)
    {
      found := [];
      if m.step == step - 1 {
        if m.sender == leader {
          leaderTimeoutCnt := 0;
        }
        if m.ConfirmElectionMessage? {
          leader := m.sender;
          failureEstimates[leader] := Estimates.Up(failureEstimates[leader], counts[leader]);
        }
        if m.CandidateMessage? {
          found := m.candidates;
        }
      }
    }

    /** `_select_leader` as the receive path calls it. */
    method SelectLeader(topn: nat, coin: Coin) returns (ids: seq<int>)
      requires Valid() && CoinOk(coin, totalNodes) && topn == Selector.TopN(totalNodes)
      modifies this
      ensures Valid()
      ensures ids == Selector.Choose(coin.u, old(epsilon), failureEstimates[..], topn, leader, coin.draw)
      ensures forall x <- ids :: 0 <= x < totalNodes
      ensures State() == old(State()).(epsilon := Selector.Decayed(old(epsilon), decay))
    {
      Selector.ChooseTopNIds(coin.u, epsilon, failureEstimates[..], leader, coin.draw);
      ids := Selector.Choose(coin.u, epsilon, failureEstimates[..], topn, leader, coin.draw);
      epsilon := Selector.Decayed(epsilon, decay);
    }
  }
}
