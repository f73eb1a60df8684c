/** The older request driver of client.py. It numbers requests itself
    (`request_id`, incremented before every request), follows the sender of
    the last confirm-election message unconditionally, and records
    acknowledged ids. As in learning/client.py, the replies that arrive
    during each of the two sleeps of an iteration are a parameter, each
    handled atomically; sockets, threads and sleeps are not modelled. */
module SimpleClient {
  import opened Common
  import LearningClient

  /** The fields the handlers of client.py:29-35 read off a reply. */
  datatype Reply = ConfirmElection(sender: int) | Response(requestId: int)

  /** A `RequestMessage` sent to a replica's port. */
  datatype Request = Request(port: int, requestId: int)

  /** What one iteration of `run_client` sends: the request to the leader
      and the ports the broadcast went to (none if the request was acked). */
  datatype Attempt = Attempt(direct: Request, broadcast: seq<int>)

  datatype ClientState = ClientState(requestId: int, leader: int, acked: set<int>)

  predicate ReplyOk(m: Reply, n: nat)
  {
    m.ConfirmElection? ==> 0 <= m.sender < n
  }

  predicate RepliesOk(ms: seq<Reply>, n: nat)
  {
    forall i :: 0 <= i < |ms| ==> ReplyOk(ms[i], n)
  }

  /** The ports of client.py:15-18: consecutive from the base port. */
  function Ports(base: int, n: nat): (r: seq<int>)
    ensures |r| == n && forall i :: 0 <= i < n ==> r[i] == base + i
  {
    Range(base, base + n)
  }

  /** client.py:19 puts the client's own listening port on the base
      port, which is also the port of replica 0. */
  lemma ClientPortIsReplicaZero(base: int, n: nat)
    requires n >= 1
    ensures Ports(base, n)[0] == base
    ensures forall i :: 0 <= i < n ==> (Ports(base, n)[i] == base <==> i == 0)
  {
  }

  /** client.py:29-35 and the dispatch of client.py:40-45. */
  function Handle(s: ClientState, m: Reply): ClientState
  {
    match m
    case ConfirmElection(sender) => s.(leader := sender)
    case Response(requestId) => s.(acked := s.acked + {requestId})
  }

  function HandleAll(s: ClientState, ms: seq<Reply>): ClientState
    decreases |ms|
  {
    if ms == [] then s else HandleAll(Handle(s, ms[0]), ms[1..])
  }

  /** The ids the responses among `ms` acknowledge. */
  function ResponseIds(ms: seq<Reply>): set<int>
    decreases |ms|
  {
    if ms == [] then {}
    else (if ms[0].Response? then {ms[0].requestId} else {}) + ResponseIds(ms[1..])
  }

  /** The last confirm-election among `ms` names the leader; with none,
      the leader stays. */
  function LastSender(leader: int, ms: seq<Reply>): int
    decreases |ms|
  {
    if ms == [] then leader
    else LastSender(if ms[0].ConfirmElection? then ms[0].sender else leader, ms[1..])
  }

  /** Handling replies never touches the request counter, adds exactly the
      acknowledged ids, and leaves as leader the sender of the last
      confirm-election, which is a node id. */
  lemma {:induction false} HandleAllFacts(s: ClientState, ms: seq<Reply>, n: nat)
    requires 0 <= s.leader < n && RepliesOk(ms, n)
    ensures HandleAll(s, ms).requestId == s.requestId
    ensures HandleAll(s, ms).acked == s.acked + ResponseIds(ms)
    ensures HandleAll(s, ms).leader == LastSender(s.leader, ms)
    ensures 0 <= HandleAll(s, ms).leader < n
    decreases |ms|
  {
    if ms != [] {
      assert ReplyOk(ms[0], n);
      assert RepliesOk(ms[1..], n) by {
        forall i | 0 <= i < |ms[1..]| ensures ReplyOk(ms[1..][i], n) {
          assert ms[1..][i] == ms[i + 1];
        }
      }
      HandleAllFacts(Handle(s, ms[0]), ms[1..], n);
    }
  }

  /** One iteration of client.py:97-103. */
  function Step(s: ClientState, ports: seq<int>, early: seq<Reply>, late: seq<Reply>): (ClientState, Attempt)
    requires 0 <= s.leader < |ports| && RepliesOk(early, |ports|) && RepliesOk(late, |ports|)
  {
    var id := s.requestId + 1;
    var direct := Request(ports[s.leader], id);
    var s1 := HandleAll(s.(requestId := id), early);
    HandleAllFacts(s.(requestId := id), early, |ports|);
    if id in s1.acked then
      (HandleAll(s1.(acked := s1.acked - {id}), late), Attempt(direct, []))
    else
      (HandleAll(s1, late), Attempt(direct, LearningClient.Targets(ports, ports[s1.leader])))
  }

  /** Each iteration sends one fresh id, one above the last, to the leader;
      an acked id is removed from the buffer (it is back only if a late
      reply acknowledges it again) and is not broadcast; an unacked one is
      broadcast under the same id to every port but the leader's. */
  lemma StepFacts(s: ClientState, ports: seq<int>, early: seq<Reply>, late: seq<Reply>)
    requires 0 <= s.leader < |ports| && RepliesOk(early, |ports|) && RepliesOk(late, |ports|)
    ensures var (t, a) := Step(s, ports, early, late);
      var id := s.requestId + 1;
      var ack := id in s.acked + ResponseIds(early);
      && t.requestId == id && 0 <= t.leader < |ports|
      && a.direct == Request(ports[s.leader], id)
      && (ack ==> a.broadcast == [] && (id in t.acked <==> id in ResponseIds(late)))
      && 0 <= LastSender(s.leader, early) < |ports|
      && (!ack ==> forall p :: p in a.broadcast <==> p in ports && p != ports[LastSender(s.leader, early)])
  {
    var id := s.requestId + 1;
    var s0 := s.(requestId := id);
    HandleAllFacts(s0, early, |ports|);
    var s1 := HandleAll(s0, early);
    if id in s1.acked {
      HandleAllFacts(s1.(acked := s1.acked - {id}), late, |ports|);
    } else {
      HandleAllFacts(s1, late, |ports|);
      LearningClient.TargetsMembers(ports, ports[s1.leader]);
    }
  }

  /** The `for` loop of client.py:96-103, one iteration per entry. */
  function RunSpec(s: ClientState, ports: seq<int>, script: seq<(seq<Reply>, seq<Reply>)>): (ClientState, seq<Attempt>)
    requires 0 <= s.leader < |ports|
    requires forall k :: 0 <= k < |script| ==> RepliesOk(script[k].0, |ports|) && RepliesOk(script[k].1, |ports|)
    decreases |script|
  {
    if script == [] then (s, [])
    else
      StepFacts(s, ports, script[0].0, script[0].1);
      var (t, a) := Step(s, ports, script[0].0, script[0].1);
      var (u, rest) := RunSpec(t, ports, script[1..]);
      (u, [a] + rest)
  }

  /** `run_client` issues exactly one fresh request per iteration, with
      the ids following on from the counter one by one: no id is retried
      and none is skipped. */
  lemma {:induction false} RunFreshIds(s: ClientState, ports: seq<int>, script: seq<(seq<Reply>, seq<Reply>)>)
    requires 0 <= s.leader < |ports|
    requires forall k :: 0 <= k < |script| ==> RepliesOk(script[k].0, |ports|) && RepliesOk(script[k].1, |ports|)
    ensures var (u, attempts) := RunSpec(s, ports, script);
      && |attempts| == |script|
      && u.requestId == s.requestId + |script|
      && forall k :: 0 <= k < |attempts| ==> attempts[k].direct.requestId == s.requestId + k + 1
    decreases |script|
  {
    if script != [] {
      StepFacts(s, ports, script[0].0, script[0].1);
      var (t, a) := Step(s, ports, script[0].0, script[0].1);
      RunFreshIds(t, ports, script[1..]);
    }
  }

  class Client {
    const ports: seq<int>
    const clientPort: int
    const totalRequests: int
    var requestId: int
    var leader: int
    /** `message_buffer`: the acknowledged request ids. */
    var messageBuffer: set<int>

    ghost function State(): ClientState
      reads this
    {
      ClientState(requestId, leader, messageBuffer)
    }

    ghost predicate Valid()
      reads this
    {
      0 <= leader < |ports|
    }

    /** client.py:10-24. */
    constructor (n: nat, basePort: int, totalRequests: int)
      requires n >= 1
      ensures Valid()
      ensures ports == Ports(basePort, n) && clientPort == basePort
      ensures this.totalRequests == totalRequests
      ensures State() == ClientState(0, 0, {})
    {
      var ps := [];
      var i := 0;
      while i < n
        invariant 0 <= i <= n
        invariant ps == Ports(basePort, i)
      {
        ps := ps + [basePort + i];
        i := i + 1;
      }
      ports := ps;
      clientPort := basePort;
      this.totalRequests := totalRequests;
      requestId := 0;
      leader := 0;
      messageBuffer := {};
    }

    /** client.py:29-31. */
    method RecieveConfirmElection(sender: int)
      requires Valid() && 0 <= sender < |ports|
      modifies this
      ensures Valid() && State() == Handle(old(State()), ConfirmElection(sender))
    {
      leader := sender;
    }

    /** client.py:33-35. */
    method RecieveResponse(id: int)
      requires Valid()
      modifies this
      ensures Valid() && State() == Handle(old(State()), Response(id))
    {
      messageBuffer := messageBuffer + {id};
    }

    method Deliver(ms: seq<Reply>)
      requires Valid() && RepliesOk(ms, |ports|)
      modifies this
      ensures Valid() && State() == HandleAll(old(State()), ms)
    {
      var k := 0;
      while k < |ms|
        invariant 0 <= k <= |ms|
        invariant Valid()
        invariant HandleAll(State(), ms[k..]) == HandleAll(old(State()), ms)
        decreases |ms| - k
      {
        assert ReplyOk(ms[k], |ports|);
        assert ms[k..][1..] == ms[k + 1..];
        match ms[k] {
          case ConfirmElection(sender) => RecieveConfirmElection(sender);
          case Response(id) => RecieveResponse(id);
        }
        k := k + 1;
      }
    }

    /** client.py:63-76: the counter goes up by one first. */
    method SendRequest() returns (r: Request)
      requires Valid()
      modifies this
      ensures Valid()
      ensures State() == old(State()).(requestId := old(requestId) + 1)
      ensures r == Request(ports[leader], requestId)
    {
      requestId := requestId + 1;
      r := Request(ports[leader], requestId);
    }

    /** client.py:78-91: the current id goes to every port but the leader's. */
    method SendRequestBroadcast() returns (targets: seq<int>)
      requires Valid()
      ensures targets == LearningClient.Targets(ports, ports[leader])
    {
      var leaderPort := ports[leader];
      targets := [];
      var k := 0;
      assert ports[0..] == ports;
      while k < |ports|
        invariant 0 <= k <= |ports|
        invariant targets + LearningClient.Targets(ports[k..], leaderPort) == LearningClient.Targets(ports, leaderPort)
      {
        assert ports[k..][1..] == ports[k + 1..];
        if ports[k] != leaderPort {
          targets := targets + [ports[k]];
        }
        k := k + 1;
      }
    }

    /** One iteration of client.py:97-103. */
    method Iterate(early: seq<Reply>, late: seq<Reply>) returns (a: Attempt)
      requires Valid() && RepliesOk(early, |ports|) && RepliesOk(late, |ports|)
      modifies this
      ensures Valid()
      ensures (State(), a) == Step(old(State()), ports, early, late)
    {
      var direct := SendRequest();
      HandleAllFacts(State(), early, |ports|);
      Deliver(early);
      var targets := [];
      if requestId in messageBuffer {
        messageBuffer := messageBuffer - {requestId};
      } else {
        targets := SendRequestBroadcast();
      }
      Deliver(late);
      a := Attempt(direct, targets);
    }

    /** `run_client` without the listening thread: `total_requests`
        iterations, the replies of each given by `script`. */
    method RunClient(script: seq<(seq<Reply>, seq<Reply>)>) returns (attempts: seq<Attempt>)
      requires Valid()
      requires |script| == if totalRequests > 0 then totalRequests else 0
      requires forall k :: 0 <= k < |script| ==> RepliesOk(script[k].0, |ports|) && RepliesOk(script[k].1, |ports|)
      modifies this
      ensures Valid()
      ensures (State(), attempts) == RunSpec(old(State()), ports, script)
    {
      attempts := [];
      var i := 0;
      assert script[0..] == script;
      assert [] + RunSpec(State(), ports, script).1 == RunSpec(State(), ports, script).1;
      while i < totalRequests
        invariant 0 <= i <= |script|
        invariant i < totalRequests ==> i < |script|
        invariant Valid()
        invariant var rest := RunSpec(State(), ports, script[i..]);
          RunSpec(old(State()), ports, script) == (rest.0, attempts + rest.1)
        decreases totalRequests - i
      {
        assert script[i..][0] == script[i] && script[i..][1..] == script[i + 1..];
        ghost var before := attempts;
        var a := Iterate(script[i].0, script[i].1);
        ghost var rest := RunSpec(State(), ports, script[i + 1..]);
        assert before + ([a] + rest.1) == before + [a] + rest.1;
        attempts := attempts + [a];
        i := i + 1;
      }
      assert script[i..] == [];
      assert attempts + [] == attempts;
    }
  }
}
