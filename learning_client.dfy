/** The request coordinator of learning/client.py. The client keeps a view
    of the current leader (an id with the time stamp it was learned at), a
    set of acknowledged request ids and a count of leader elections it
    triggered. Replies arrive on a listening thread while the request loop
    sleeps; the model takes the replies that arrive during each of the two
    sleeps of an iteration as a parameter and runs every handler as one
    atomic step. Sockets, threads, sleeps and the clock are not modelled. */
module LearningClient {

  /** `self.leader`, a record with an `id` and a `stamp`. */
  datatype LeaderView = LeaderView(id: int, stamp: real)

  /** What the client receives from the replicas: the fields the handlers
      read off a confirm-election and a response message. */
  datatype Notice =
    | ConfirmElection(sender: int, leader: int, stamp: real)
    | Response(sender: int, leader: int, stamp: real, requestId: int)

  /** One `ClientRequestMessage` sent to a replica's port. */
  datatype Request = Request(port: int, requestId: int)

  /** The client's mutable state: leader view, acknowledged ids
      (`message_buffer`, whose values are always 1) and `num_leader_election`. */
  datatype ClientState = ClientState(view: LeaderView, acked: set<int>, elections: nat)

  /** A notice as the replicas send it: every id it carries is a node id. */
  predicate NoticeOk(m: Notice, n: nat)
  {
    0 <= m.sender < n && 0 <= m.leader < n
  }

  predicate NoticesOk(ms: seq<Notice>, n: nat)
  {
    forall i :: 0 <= i < |ms| ==> NoticeOk(ms[i], n)
  }

  /** learning/client.py:36-38: the view moves to the announced leader only
      when the announcement is strictly newer. */
  function OnConfirm(v: LeaderView, leader: int, stamp: real): (r: LeaderView)
    ensures r.stamp >= v.stamp
    ensures stamp > v.stamp ==> r == LeaderView(leader, stamp)
    ensures stamp <= v.stamp ==> r == v
  {
    if stamp > v.stamp then LeaderView(leader, stamp) else v
  }

  /** learning/client.py:46-49: a reply naming a different leader with a
      newer stamp makes its sender the leader. */
  function OnResponse(v: LeaderView, sender: int, leader: int, stamp: real): (r: LeaderView)
    ensures r.stamp >= v.stamp
    ensures v.id != leader && v.stamp < stamp ==> r == LeaderView(sender, stamp)
    ensures !(v.id != leader && v.stamp < stamp) ==> r == v
  {
    if v.id != leader && v.stamp < stamp then LeaderView(sender, stamp) else v
  }

  /** The dispatch of learning/client.py:66-70. */
  function Handle(s: ClientState, m: Notice): ClientState
  {
    match m
    case ConfirmElection(_, leader, stamp) => s.(view := OnConfirm(s.view, leader, stamp))
    case Response(sender, leader, stamp, requestId) =>
      s.(view := OnResponse(s.view, sender, leader, stamp), acked := s.acked + {requestId})
  }

  /** Notices handled one after the other, in arrival order. */
  function HandleAll(s: ClientState, ms: seq<Notice>): ClientState
    decreases |ms|
  {
    if ms == [] then s else HandleAll(Handle(s, ms[0]), ms[1..])
  }

  /** The request ids the responses among `ms` acknowledge. */
  function ResponseIds(ms: seq<Notice>): set<int>
    decreases |ms|
  {
    if ms == [] then {}
    else (if ms[0].Response? then {ms[0].requestId} else {}) + ResponseIds(ms[1..])
  }

  /** Handling replies never makes the leader view older, acknowledges
      exactly the ids of the responses among them, forgets no earlier
      acknowledgement and does not touch the election count. */
  lemma {:induction false} HandleAllFacts(s: ClientState, ms: seq<Notice>)
    ensures HandleAll(s, ms).view.stamp >= s.view.stamp
    ensures HandleAll(s, ms).acked == s.acked + ResponseIds(ms)
    ensures HandleAll(s, ms).elections == s.elections
    decreases |ms|
  {
    if ms != [] {
      HandleAllFacts(Handle(s, ms[0]), ms[1..]);
    }
  }

  /** Handling well-formed replies keeps the leader a node id. */
  lemma {:induction false} HandleAllLeaderOk(s: ClientState, ms: seq<Notice>, n: nat)
    requires 0 <= s.view.id < n && NoticesOk(ms, n)
    ensures 0 <= HandleAll(s, ms).view.id < n
    decreases |ms|
  {
    if ms != [] {
      assert NoticeOk(ms[0], n);
      assert NoticesOk(ms[1..], n) by {
        forall i | 0 <= i < |ms[1..]| ensures NoticeOk(ms[1..][i], n) {
          assert ms[1..][i] == ms[i + 1];
        }
      }
      HandleAllLeaderOk(Handle(s, ms[0]), ms[1..], n);
    }
  }

  /** The ports learning/client.py:111-112 sends a broadcast to, in order. */
  function Targets(ports: seq<int>, leaderPort: int): (r: seq<int>)
    decreases |ports|
  {
    if ports == [] then []
    else (if ports[0] != leaderPort then [ports[0]] else []) + Targets(ports[1..], leaderPort)
  }

  /** A broadcast reaches every port except the leader's, and nothing else. */
  lemma {:induction false} TargetsMembers(ports: seq<int>, leaderPort: int)
    ensures forall p :: p in Targets(ports, leaderPort) <==> p in ports && p != leaderPort
    ensures |Targets(ports, leaderPort)| <= |ports|
    decreases |ports|
  {
    if ports != [] {
      TargetsMembers(ports[1..], leaderPort);
      assert forall p :: p in ports <==> p == ports[0] || p in ports[1..];
    }
  }

  /** One request `i` to each of `ports`. */
  function Requests(ports: seq<int>, i: int): (r: seq<Request>)
    ensures |r| == |ports| && forall k :: 0 <= k < |r| ==> r[k] == Request(ports[k], i)
  {
    seq(|ports|, k requires 0 <= k < |ports| => Request(ports[k], i))
  }

  /** One pass of the loop of learning/client.py:128-146 for request `i`,
      with `early` the replies handled during the first sleep and `late`
      those handled during the second. Gives the new state, the next
      request index and the requests sent. */
  function Iteration(s: ClientState, i: int, ports: seq<int>, early: seq<Notice>, late: seq<Notice>)
    : (r: (ClientState, int, seq<Request>))
    requires 0 <= s.view.id < |ports| && NoticesOk(early, |ports|) && NoticesOk(late, |ports|)
  {
    var first := Request(ports[s.view.id], i);
    var s1 := HandleAll(s, early);
    HandleAllLeaderOk(s, early, |ports|);
    if i in s1.acked then
      (HandleAll(s1.(acked := s1.acked - {i}), late), i + 1, [first])
    else
      var s2 := HandleAll(s1.(elections := s1.elections + 1), late);
      var out := [first] + Requests(Targets(ports, ports[s1.view.id]), i);
      (s2, if s2.view.id != s.view.id then i + 1 else i, out)
  }

  /** The advance rule: an acknowledged request is dropped from the buffer
      and the index moves on by one; an unacknowledged one is broadcast,
      counts one more election, and the index moves on only if the leader
      id changed during the iteration. Every request sent is request `i`;
      the first goes to the leader of the moment, the others to every other
      port. */
  lemma IterationAdvance(s: ClientState, i: int, ports: seq<int>, early: seq<Notice>, late: seq<Notice>)
    requires 0 <= s.view.id < |ports| && NoticesOk(early, |ports|) && NoticesOk(late, |ports|)
    ensures var r := Iteration(s, i, ports, early, late);
      var ack := i in s.acked + ResponseIds(early);
      && 0 <= r.0.view.id < |ports|
      && r.0.view.stamp >= s.view.stamp
      && (ack ==> r.1 == i + 1 && r.0.elections == s.elections && |r.2| == 1)
      && (!ack ==> r.0.elections == s.elections + 1 && r.1 == (if r.0.view.id != s.view.id then i + 1 else i))
      && 0 <= HandleAll(s, early).view.id < |ports|
      && |r.2| >= 1 && r.2[0] == Request(ports[s.view.id], i)
      && (forall k :: 0 <= k < |r.2| ==> r.2[k].requestId == i && r.2[k].port in ports)
      && (forall k :: 1 <= k < |r.2| ==> r.2[k].port != ports[HandleAll(s, early).view.id])
  {
    var s1 := HandleAll(s, early);
    HandleAllFacts(s, early);
    HandleAllLeaderOk(s, early, |ports|);
    if i in s1.acked {
      IterationAcked(s, s1, i, ports, early, late);
    } else {
      IterationUnacked(s, s1, i, ports, early, late);
    }
  }

  /** An acknowledged request: dropped, and the index moves on. */
  lemma IterationAcked(s: ClientState, s1: ClientState, i: int, ports: seq<int>, early: seq<Notice>, late: seq<Notice>)
    requires 0 <= s.view.id < |ports| && NoticesOk(early, |ports|) && NoticesOk(late, |ports|)
    requires s1 == HandleAll(s, early) && i in s1.acked
    requires 0 <= s1.view.id < |ports| && s1.view.stamp >= s.view.stamp && s1.elections == s.elections
    ensures var r := Iteration(s, i, ports, early, late);
      && 0 <= r.0.view.id < |ports| && r.0.view.stamp >= s.view.stamp
      && r.1 == i + 1 && r.0.elections == s.elections && r.2 == [Request(ports[s.view.id], i)]
  {
    var s2 := s1.(acked := s1.acked - {i});
    HandleAllFacts(s2, late);
    HandleAllLeaderOk(s2, late, |ports|);
  }

  /** An unacknowledged request: an election is counted and the request is
      broadcast. */
  lemma IterationUnacked(s: ClientState, s1: ClientState, i: int, ports: seq<int>, early: seq<Notice>, late: seq<Notice>)
    requires 0 <= s.view.id < |ports| && NoticesOk(early, |ports|) && NoticesOk(late, |ports|)
    requires s1 == HandleAll(s, early) && i !in s1.acked
    requires 0 <= s1.view.id < |ports| && s1.view.stamp >= s.view.stamp && s1.elections == s.elections
    ensures var r := Iteration(s, i, ports, early, late);
      && 0 <= r.0.view.id < |ports| && r.0.view.stamp >= s.view.stamp
      && r.0.elections == s.elections + 1 && r.1 == (if r.0.view.id != s.view.id then i + 1 else i)
      && r.2 == [Request(ports[s.view.id], i)] + Requests(Targets(ports, ports[s1.view.id]), i)
      && r.2[0] == Request(ports[s.view.id], i)
      && (forall k :: 0 <= k < |r.2| ==> r.2[k].requestId == i && r.2[k].port in ports)
      && (forall k :: 1 <= k < |r.2| ==> r.2[k].port != ports[s1.view.id])
  {
    var s2 := s1.(elections := s1.elections + 1);
    HandleAllFacts(s2, late);
    HandleAllLeaderOk(s2, late, |ports|);
    BroadcastRequests(ports, Request(ports[s.view.id], i), ports[s1.view.id], i);
  }

  /** The requests of an unacknowledged iteration: `first`, then request `i`
      to every port but the leader's. */
  lemma BroadcastRequests(ports: seq<int>, first: Request, leaderPort: int, i: int)
    requires first.requestId == i && first.port in ports
    ensures var out := [first] + Requests(Targets(ports, leaderPort), i);
      && out[0] == first
      && (forall k :: 0 <= k < |out| ==> out[k].requestId == i && out[k].port in ports)
      && (forall k :: 1 <= k < |out| ==> out[k].port != leaderPort)
  {
    TargetsMembers(ports, leaderPort);
    var out := [first] + Requests(Targets(ports, leaderPort), i);
    forall k | 1 <= k < |out|
      ensures out[k].requestId == i && out[k].port in ports && out[k].port != leaderPort
    {
      assert out[k] == Request(Targets(ports, leaderPort)[k - 1], i);
    }
  }

  /** The request loop of learning/client.py:128-146 from index `i`, one
      iteration per entry of `script` (the replies of its two sleeps), until
      `n` requests are served or the script ends. */
  function RunSpec(s: ClientState, i: int, n: int, ports: seq<int>, script: seq<(seq<Notice>, seq<Notice>)>)
    : (r: (ClientState, int, seq<Request>))
    requires 0 <= s.view.id < |ports|
    requires forall k :: 0 <= k < |script| ==> NoticesOk(script[k].0, |ports|) && NoticesOk(script[k].1, |ports|)
    decreases |script|
  {
    if i >= n || script == [] then (s, i, [])
    else
      IterationAdvance(s, i, ports, script[0].0, script[0].1);
      var step := Iteration(s, i, ports, script[0].0, script[0].1);
      var rest := RunSpec(step.0, step.1, n, ports, script[1..]);
      (rest.0, rest.1, step.2 + rest.2)
  }

  /** The request index never decreases and never passes `n`; the loop
      stops early only when the script of replies runs out; every request
      sent carries an id between the starting and the final index, and
      below `n`; the leader stamp never decreases. */
  lemma {:induction false} RunProgress(s: ClientState, i: int, n: int, ports: seq<int>, script: seq<(seq<Notice>, seq<Notice>)>)
    requires 0 <= s.view.id < |ports| && i <= n
    requires forall k :: 0 <= k < |script| ==> NoticesOk(script[k].0, |ports|) && NoticesOk(script[k].1, |ports|)
    ensures var r := RunSpec(s, i, n, ports, script);
      && i <= r.1 <= n
      && r.0.view.stamp >= s.view.stamp
      && forall k :: 0 <= k < |r.2| ==> i <= r.2[k].requestId <= r.1 && r.2[k].requestId < n
    decreases |script|
  {
    if i < n && script != [] {
      IterationAdvance(s, i, ports, script[0].0, script[0].1);
      var step := Iteration(s, i, ports, script[0].0, script[0].1);
      RunProgress(step.0, step.1, n, ports, script[1..]);
      var rest := RunSpec(step.0, step.1, n, ports, script[1..]);
      assert RunSpec(s, i, n, ports, script) == (rest.0, rest.1, step.2 + rest.2);
      forall k | 0 <= k < |step.2 + rest.2|
        ensures i <= (step.2 + rest.2)[k].requestId <= rest.1 && (step.2 + rest.2)[k].requestId < n
      {
        if k >= |step.2| {
          assert (step.2 + rest.2)[k] == rest.2[k - |step.2|];
        }
      }
    }
  }

  class Client {
    /** -1 for the client. */
    const id: int
    const totalNodes: nat
    /** The replicas' ports, indexed by node id. */
    const ports: seq<int>
    const numRequests: int
    var leader: LeaderView
    /** `message_buffer`: the acknowledged request ids. */
    var messageBuffer: set<int>
    var numLeaderElection: nat

    ghost function State(): ClientState
      reads this
    {
      ClientState(leader, messageBuffer, numLeaderElection)
    }

    ghost predicate Valid()
      reads this
    {
      |ports| == totalNodes && 0 <= leader.id < totalNodes
    }

    /** learning/client.py:12-24; the leader view and the ports are given. */
    constructor (id: int, n: nat, ports: seq<int>, numRequests: int, leader: LeaderView)
      requires |ports| == n && 0 <= leader.id < n
      ensures Valid()
      ensures this.id == id && totalNodes == n && this.ports == ports && this.numRequests == numRequests
      ensures State() == ClientState(leader, {}, 0)
    {
      this.id := id;
      totalNodes := n;
      this.ports := ports;
      this.numRequests := numRequests;
      this.leader := leader;
      messageBuffer := {};
      numLeaderElection := 0;
    }

    /** learning/client.py:34-41. */
    method ReceiveConfirmElection(leader: int, stamp: real)
      requires Valid() && 0 <= leader < totalNodes
      modifies this
      ensures Valid()
      ensures State() == old(State()).(view := OnConfirm(old(this.leader), leader, stamp))
    {
      if stamp > this.leader.stamp {
        this.leader := LeaderView(leader, stamp);
      }
    }

    /** learning/client.py:44-53. */
    method ReceiveResponse(sender: int, leader: int, stamp: real, requestId: int)
      requires Valid() && 0 <= sender < totalNodes
      modifies this
      ensures Valid()
      ensures State() == old(State()).(view := OnResponse(old(this.leader), sender, leader, stamp),
                                       acked := old(messageBuffer) + {requestId})
    {
      if this.leader.id != leader {
        if this.leader.stamp < stamp {
          this.leader := LeaderView(sender, stamp);
        }
      }
      messageBuffer := messageBuffer + {requestId};
    }

    /** The replies handled while the loop sleeps, in arrival order. */
    method Deliver(ms: seq<Notice>)
      requires Valid() && NoticesOk(ms, totalNodes)
      modifies this
      ensures Valid()
      ensures State() == HandleAll(old(State()), ms)
    {
      var k := 0;
      while k < |ms|
        invariant 0 <= k <= |ms|
        invariant Valid()
        invariant HandleAll(State(), ms[k..]) == HandleAll(old(State()), ms)
        decreases |ms| - k
      {
        assert NoticeOk(ms[k], totalNodes);
        assert ms[k..] == [ms[k]] + ms[k + 1..];
        match ms[k] {
          case ConfirmElection(_, leader, stamp) =>
            ReceiveConfirmElection(leader, stamp);
          case Response(sender, leader, stamp, requestId) =>
            ReceiveResponse(sender, leader, stamp, requestId);
        }
        k := k + 1;
      }
    }

    /** learning/client.py:90-103: the request goes to the leader's port. */
    method SendRequest(requestId: int) returns (r: Request)
      requires Valid()
      ensures r.port in ports && r.port == ports[leader.id] && r.requestId == requestId
    {
      r := Request(ports[leader.id], requestId);
    }

    /** learning/client.py:106-120: the ports the same request is sent to. */
    method SendRequestBroadcast(requestId: int) returns (targets: seq<int>)
      requires Valid()
      ensures targets == Targets(ports, ports[leader.id])
    {
      var leaderPort := ports[leader.id];
      targets := [];
      var k := 0;
      assert ports[0..] == ports;
      while k < |ports|
        invariant 0 <= k <= |ports|
        invariant targets + Targets(ports[k..], leaderPort) == Targets(ports, leaderPort)
      {
        assert ports[k..][1..] == ports[k + 1..];
        if ports[k] != leaderPort {
          targets := targets + [ports[k]];
        }
        k := k + 1;
      }
    }

    /** One iteration of learning/client.py:128-146. */
    method Iterate(i: int, early: seq<Notice>, late: seq<Notice>) returns (next: int, sent: seq<Request>)
      requires Valid() && NoticesOk(early, totalNodes) && NoticesOk(late, totalNodes)
      modifies this
      ensures Valid()
      ensures (State(), next, sent) == Iteration(old(State()), i, ports, early, late)
    {
      var currentLeader := leader.id;
      var isBroadcast := false;
      var first := SendRequest(i);
      sent := [first];
      Deliver(early);
      next := i;
      if i in messageBuffer {
        messageBuffer := messageBuffer - {i};
        next := i + 1;
      } else {
        var targets := SendRequestBroadcast(i);
        sent := sent + Requests(targets, i);
        numLeaderElection := numLeaderElection + 1;
        isBroadcast := true;
      }
      Deliver(late);
      if isBroadcast {
        if currentLeader != leader.id {
          next := i + 1;
        }
      }
    }

    /** `run_node` without the listening thread: one iteration per entry
        of `script`, while requests remain. Returns the final index. */
    method RunNode(script: seq<(seq<Notice>, seq<Notice>)>) returns (i: int, sent: seq<Request>)
      requires Valid()
      requires forall k :: 0 <= k < |script| ==> NoticesOk(script[k].0, totalNodes) && NoticesOk(script[k].1, totalNodes)
      modifies this
      ensures Valid()
      ensures (State(), i, sent) == RunSpec(old(State()), 0, numRequests, ports, script)
    {
      i := 0;
      sent := [];
      var k := 0;
      assert script[0..] == script;
      assert [] + RunSpec(State(), 0, numRequests, ports, script).2 == RunSpec(State(), 0, numRequests, ports, script).2;
      while i < numRequests && k < |script|
        invariant 0 <= k <= |script|
        invariant Valid()
        invariant var rest := RunSpec(State(), i, numRequests, ports, script[k..]);
          RunSpec(old(State()), 0, numRequests, ports, script) == (rest.0, rest.1, sent + rest.2)
        decreases |script| - k
      {
        assert script[k..][0] == script[k] && script[k..][1..] == script[k + 1..];
        ghost var before := sent;
        var next, out := Iterate(i, script[k].0, script[k].1);
        ghost var rest := RunSpec(State(), next, numRequests, ports, script[k + 1..]);
        assert before + (out + rest.2) == before + out + rest.2;
        sent := sent + out;
        i := next;
        k := k + 1;
      }
      assert k == |script| ==> script[k..] == [];
      assert sent + [] == sent;
    }
  }
}
