# Bandit leader election, modelled in Dafny

The repository simulates a cluster of replica nodes that elect a leader
while an environment fails nodes at random. Each node keeps a failure
estimate per peer: a running average of "it answered" (0) and "it failed"
(1) signals. When a node suspects its leader, it proposes candidates. The
proposal is epsilon-greedy: with probability epsilon it picks random ids,
otherwise the ids with the lowest estimates. The nodes then elect the
lowest id that was proposed most often.

The model covers these parts of the program:

- the base node (`learning/node.py`);
- the threaded node of `learning/v2.py`, as a class whose handlers change
  its fields;
- the step-driven node of `learning/v1.py`, and the `run_nodes` loop of
  `run_simulation.py` that drives a list of such nodes over a shared
  message buffer;
- the two clients (`learning/client.py`, `client.py`);
- the failure-injection environments (`learning/environment.py`,
  `learning/environment_v2.py`, `learning/environment_v2_non_stationary.py`);
- the stand-alone round-robin simulation (`simulate_failure.py`);
- the message records and their text form (`learning/message.py`);
- the message-frequency count of `log_parser.py`.

Randomness enters every operation as a parameter: the uniform sample, the
drawn ids, the binomial outcomes, `choice` and the repair-time sample.
Sockets, threads and sleeps become explicit inputs: the messages a handler
receives, or the number of loop turns. Estimates and probabilities are
`real`s.

Each imperative part of the program is a class with a method per source
method. Each method is proved against a pure specification function. The
lemmas beside that function state what the source promises:

- the vote elects the lowest most-voted id;
- every proposed id names a node;
- a round never leaves more than `max_failed_nodes` machines dead;
- the rendering of a candidate message is injective: distinct messages
  give distinct text. The program never parses this text; the reader that
  shows it is defined only in the model;
- the round-robin leader settles on a running node after at most
  `max_failed_nodes` view changes;
- splitting a log line loses nothing.

## Model

| member | source | states |
|---|---|---|
| Common.Range | learning/v1.py:39 | `np.arange(lo, hi)`: hi - lo consecutive ids starting at lo, none when hi <= lo. |
| Common.RangeMembers | learning/v1.py:39 | The range holds exactly the ids lo..hi-1, strictly ascending and distinct. |
| Common.Without | learning/v1.py:40-41 | `np.delete` of every position equal to x: exactly the other elements remain, none added. |
| Common.WithoutDistinct | learning/v1.py:40-41 | On distinct ids the deletion keeps them distinct, removes exactly one element when x is present and changes nothing otherwise. |
| Common.Insert | learning/v1.py:47 | Inserting into the sorted list adds exactly one element. |
| Common.SortAsc | learning/v1.py:47 | `np.sort` keeps the length. |
| Common.SortAscFacts | learning/v1.py:47 | `np.sort` returns an ascending permutation of its input. |
| Common.SortDistinct | learning/v1.py:47 | Sorting distinct ids gives strictly ascending ids with exactly the same members. |
| Common.Flatten | learning/v2.py:285 | Flattening the lists keeps exactly the ids they hold. |
| Common.SumUpdate | learning/environment_v2.py:67 | Overwriting one status changes `np.sum` by the difference. |
| Estimates.Down | learning/v2.py:296-306 | Folding in a "peer answered" signal never raises the estimate. It stays within [0, e], drops strictly when e > 0, and becomes 0 on a first observation. |
| Estimates.Up | learning/v2.py:309-318 | Folding in a "peer failed" signal never lowers the estimate. It stays within [e, 1], rises strictly when e < 1, and becomes 1 on a first observation. |
| Estimates.ZeroCountKeepsLastSignal | learning/v2.py:296-318 | node_count is never incremented, so after any sequence of updates the estimate is just the last signal (0 or 1). |
| Vote.MaxOf | learning/v2.py:286 | The largest element of a non-empty list is in the list and bounds all the others. |
| Vote.ArgMaxCount | learning/v2.py:286 | `argmax(bincount)`: the result has the highest count, and every smaller id has a strictly lower count, so ties go to the lowest id. |
| Vote.PluralityIsLowestMode | learning/v1.py:121-122 | The vote is defined exactly when the list is non-empty and non-negative (bincount raises otherwise). The winner is then the lowest most frequent id. |
| Vote.LowestModeUnique | learning/v2.py:285-286 | The lowest mode is unique, so the vote is a function of the multiset of candidates. |
| Vote.PluralityOrderIndependent | learning/v2.py:285-286 | Two lists with the same multiset of candidates elect the same leader, whatever order the messages arrived in. |
| Selector.TopN | learning/v2.py:206 | `int((n - 1) / 3)`: at most a third of the nodes, and (n >= 1) n - 1 < 3(k + 1). |
| Selector.TopNFloor | learning/v2.py:206 | Truncated toward zero: 0 without nodes, otherwise the largest k with 3k <= n - 1. |
| Selector.InsertBy | learning/v2.py:64 | Insertion into an id list keeps every id in range and adds exactly the inserted id to the multiset. |
| Selector.ArgSortDesc | learning/v2.py:64 | Sorting ids by estimate is a permutation of the ids it was given. |
| Selector.InsertByDescending | learning/v2.py:64 | Insertion keeps an id list ordered by non-increasing estimate. |
| Selector.ArgSortDescending | learning/v2.py:64 | `(-est).argsort()` lists the ids by non-increasing estimate. |
| Selector.LastK | learning/v2.py:64 | `[-k:]` has k elements, or all of them when k is 0 or at least the length (Python slice semantics). |
| Selector.ArgSortAll | learning/v2.py:64 | Sorting all ids yields each node id exactly once, ordered by non-increasing estimate. |
| Selector.SuffixBound | learning/v2.py:64 | Every id in a suffix of the descending order has an estimate no larger than any id before it. |
| Selector.GreedyOf | learning/v2.py:64-66 | For any ordering of all ids that is non-increasing by estimate, whatever its ties, the last topn ids sorted are distinct and ascending, have the greedy size, and no id left out has a lower estimate than a chosen one. |
| Selector.GreedyChoice | learning/v2.py:64-66 | The greedy proposal is sorted and distinct, has min(topn, n) ids when topn > 0 (all n when topn is 0), and every id not chosen has an estimate at least as high as every chosen one. |
| Selector.ExploreChoice | learning/v2.py:53-62 | The exploratory proposal never contains the current leader, is sorted, and draws from -1..n-1. When the draw does not raise, it has exactly topn ids, all naming nodes. |
| Selector.ChooseWellFormed | learning/v2.py:41-68 | Every proposal is sorted and distinct, with ids in -1..n-1. |
| Selector.TopNNeverRaises | learning/v2.py:56-58 | With topn = int((n-1)/3), drawing topn+1 distinct ids out of n never raises, so the -1 fallback cannot occur. |
| Selector.ChooseTopNIds | learning/v2.py:206 | With the topn the program uses, every proposed id names a node (0 <= id < n). |
| Messages.NatText | learning/message.py:24 | The decimal text of a natural number is non-empty. |
| Messages.NatTextDigits | learning/message.py:24 | The decimal text of a natural number is made of digits only. |
| Messages.IntText | learning/message.py:24 | The text of an int is non-empty. |
| Messages.ReadNatText | learning/message.py:24 | Reading back the decimal text of a natural number gives the number. |
| Messages.ReadIntText | learning/message.py:24 | Reading back the text of an int, sign included, gives the int. |
| Messages.ListText | learning/message.py:39 | `str(list)` is bracketed by "[" and "]". |
| Messages.Str | learning/message.py:23-39 | Only estimates and candidate messages have a text form (the others have no `__str__`). It starts with "From: ". |
| Messages.RenderedTextHasNoTag | learning/v2.py:146-179 | No rendered message starts with any dispatch tag the receiver recognises, so a rendered message falls through to `continue`. |
| Messages.TakeNumber | learning/message.py:39 | Model-side reader helper, not source behaviour: splitting off a number loses no text. |
| Messages.ReadToken | learning/message.py:39 | Model-side reader helper, not source behaviour: reading a token consumes at least one character. |
| Messages.ReadTokenOf | learning/message.py:39 | Model-side reader helper, not source behaviour: an int token followed by a non-number character reads back as that int. |
| Messages.ReadItemsOf | learning/message.py:39 | Model-side reader helper, not source behaviour: the items of `str(list)` read back as the list, so the list text is injective. |
| Messages.Expect | learning/message.py:39 | Model-side reader helper, not source behaviour: removing a prefix returns exactly the rest of the text. |
| Messages.DecodeHeadOf | learning/message.py:24 | Model-side reader helper, not source behaviour: the "From: sender @ step" head reads back as sender and step. |
| Messages.DecodeCandidateStr | learning/message.py:27-39 | The candidate rendering of message.py is injective: a reader defined only in the model (the program never parses this text) recovers every field of the message from it. |
| NodeBase.Node.constructor | learning/node.py:4-25 | A fresh node is not failed, has leader 1 and an empty out queue, holds the given estimates, and has zero counts. |
| NodeBase.Node.Send | learning/node.py:28-38 | The base `send` returns nothing. |
| NodeBase.Node.Recieve | learning/node.py:41-46 | The base `recieve` returns nothing. |
| V2.DecideAttempted | learning/v2.py:281-284 | A vote is attempted exactly when there are more than 2(N-1)/3 received lists and an own proposal. The own proposal joins the lists only then. |
| V2.DecideElectsLowestMode | learning/v2.py:284-286 | Given a quorum, the vote elects exactly when the lists have equal length (else `array().flatten` raises) and hold no negative id. The leader is then the lowest most-proposed id. |
| V2.ElectedIsNode | learning/v2.py:286 | If all proposals name nodes, the elected leader names a node. |
| V2.Repeat | learning/v2.py:208-210 | n copies of a value: the candidate message queued once per other node. |
| V2.EmptyBuffer | learning/v2.py:31 | The message buffer starts with an empty set for each node id, and no other keys. |
| V2.V2Node.constructor | learning/v2.py:17-38 | A fresh node holds the given parameters and estimates, is alive with leader 1, and has no candidates, an empty out queue and consecutive ports. |
| V2.V2Node.UpdateDown | learning/v2.py:296-306 | Only peer k's estimate changes, to Down of its old value; with node_count at 0 that is 0. |
| V2.V2Node.UpdateUp | learning/v2.py:309-318 | Only peer k's estimate changes, to Up of its old value; with node_count at 0 that is 1. |
| V2.V2Node.SelectLeader | learning/v2.py:41-68 | The proposal is the epsilon-greedy choice on the current estimates, with every id naming a node. It is stored as my_candidates. Epsilon decays; nothing else changes. |
| V2.V2Node.ReceiveRequestBroadcast | learning/v2.py:183-190 | A live node fails with AttributeError: messages are appended to `message_buffer`, which is a dict, before the estimate is touched. A failed node does nothing. The lock left held is under Left out. |
| V2.V2Node.RecieveRequest | learning/v2.py:193-210 | The leader answers the client and queues a request broadcast. Any other node marks the leader failed (estimate 1), picks new candidates and queues one candidate message per other node. The request id is never found in `message_buffer`, which stays empty. |
| V2.V2Node.QueueToOthers | learning/v2.py:208-210 | The queue gains exactly n - 1 copies of the message, one for every node except this one, after what it held. |
| V2.V2Node.ReceiveConfirmElection | learning/v2.py:213-224 | The sender becomes leader, its estimate drops to Down (0), and both candidate lists are cleared. |
| V2.V2Node.ReceiveCandidate | learning/v2.py:269-293 | The proposal is recorded and the sender's estimate lowered. With a quorum the node votes: it elects the lowest mode, or raises when the lists differ in length or hold a negative id. A live elected node queues a confirmation. |
| V2.V2Node.ReceiveFailure | learning/v2.py:168-176 | The failed flag becomes true unless the value is "True" (the program's inverted test). The node's own estimate goes Up (to 1). |
| V1.Broadcast | learning/v1.py:94-95 | One candidate message addressed to each of the n nodes, in id order. |
| V1.OnSilence | learning/v1.py:84-97 | Counting a silent step keeps the node's identity, flag, leader and parameters, and keeps its state well formed. |
| V1.OnTimeout | learning/v1.py:87-95 | Acting on the timeout keeps the node's identity, flag, leader, silence count and parameters, and keeps its state well formed: every queued candidate message goes to a node and proposes node ids. |
| V1.ScanOne | learning/v1.py:104-119 | Reading one message changes only the leader, the estimates and the timeout counter. |
| V1.Scan | learning/v1.py:101-119 | Reading the inbox changes only the leader, the estimates and the timeout counter. |
| V1.RecvFailed | learning/v1.py:80-81 | A failed node changes nothing and hands its messages back. |
| V1.RecvSilence | learning/v1.py:84-97 | With no messages the timeout counter grows by one and the inbox is emptied. Below the timeout nothing else changes. At the timeout epsilon decays and one candidate message per node is queued, addressed to nodes 0..n-1 in order, from this node and this step. |
| V1.Current | learning/v1.py:104 | The messages kept are messages of the inbox stamped with the given step. |
| V1.ScanOnlyPrevious | learning/v1.py:101-104 | Messages not stamped step-1 are ignored: scanning only the previous step's messages gives the same result. |
| V1.ScanLeaderResets | learning/v1.py:106-108 | A message from the leader resets the timeout counter. |
| V1.ScanCount | learning/v1.py:106-108 | After a scan the timeout counter is either unchanged or 0. |
| V1.RecvElects | learning/v1.py:121-122 | When candidates arrived, the step completes exactly when they are non-negative. The new leader is then their lowest mode, and the inbox is emptied. |
| V1.ScanCandidates | learning/v1.py:117-119 | Any bounds that hold for the ids of every candidate message in the inbox also hold for every collected candidate. |
| V1.RecvProper | learning/v1.py:72-124 | A live or failed node given messages with in-range ids never raises, keeps a well-formed state, and leaves a well-formed inbox. |
| V1.Deliver | learning/v1.py:65-67 | Delivering the out queue keeps one slot per node. |
| V1.DeliverSlot | learning/v1.py:65-67 | Slot d receives exactly the messages addressed to d, in the order they are popped (from the end of the queue). |
| V1.DeliverProper | learning/v1.py:65-67 | Delivering well-formed messages keeps every slot well formed. |
| V1.SendProper | learning/v1.py:51-69 | Sending keeps the state well formed and the buffer at one well-formed slot per node. |
| V1.V1Node.constructor | learning/v1.py:9-23 | A fresh node is alive with leader 1, an empty queue, the given estimates and parameters, and timeout counter 0. |
| V1.V1Node.Send | learning/v1.py:51-69 | The state and buffer after `send` are those of the specification: a failed node sends nothing; a live node empties its queue into the buffer. |
| V1.V1Node.Recieve | learning/v1.py:72-124 | The state, returned inbox and outcome are those of the receive specification. |
| V1.V1Node.CountSilence | learning/v1.py:84-97 | The state is that of OnSilence. |
| V1.V1Node.QueueCandidates | learning/v1.py:94-95 | The out queue grows by one candidate message per node; nothing else changes. |
| V1.V1Node.ScanMessages | learning/v1.py:99-119 | The state and the collected candidates are those of Scan. |
| V1.V1Node.ScanStep | learning/v1.py:104-119 | One message: the node's new state and the ids it collects are those of ScanOne. |
| V1.V1Node.SelectLeader | learning/v1.py:26-48 | The proposal is the epsilon-greedy choice, with every id naming a node; only epsilon changes (it decays). |
| RunSimulation.SendStepOk | run_simulation.py:29 | One node's send keeps every state and buffer slot well formed. |
| RunSimulation.RecvStepOk | run_simulation.py:33 | One node's receive completes without raising, keeps every state and slot well formed, and never changes its failed flag. |
| RunSimulation.SendAll | run_simulation.py:28-29 | The send phase keeps states and buffer well formed. |
| RunSimulation.RecvAll | run_simulation.py:32-33 | The receive phase keeps states and buffer well formed. |
| RunSimulation.Round | run_simulation.py:26-34 | One step keeps states and buffer well formed. |
| RunSimulation.RunFrom | run_simulation.py:25-34 | Any number of steps keeps states and buffer well formed. |
| RunSimulation.OutboxFromTail | run_simulation.py:28-29 | What nodes k.. deliver to a slot depends only on nodes k... |
| RunSimulation.SendAllStates | run_simulation.py:28-29 | Each node's state after the send phase is its own send specification applied to its old state; nodes before k are untouched. |
| RunSimulation.SendOneSlot | learning/v1.py:51-69 | One node's send appends to slot d exactly what it addresses to d. |
| RunSimulation.SendAllSlots | run_simulation.py:28-29 | After the send phase each slot holds its old messages followed by what each node, in order, addressed to it. |
| RunSimulation.RecvAllPointwise | run_simulation.py:32-33 | The receive phase acts on each node and its own slot independently: slot j and node j become the results of node j's receive. |
| RunSimulation.RecvSlot | learning/v1.py:80-123 | A failed node's receive hands back its whole inbox; a live node's hands back nothing. |
| RunSimulation.RoundSlots | run_simulation.py:26-34 | After a step, a live node's slot is empty. A failed node's slot keeps everything delivered to it. |
| RunSimulation.RoundFailedFrozen | run_simulation.py:26-34 | A failed node's state does not change during a step. |
| RunSimulation.Snap | run_simulation.py:16 | The snapshot has one state per node, in node order. |
| RunSimulation.RunNodes | run_simulation.py:19-35 | The nodes and buffer after `steps` steps are those of RunFrom from step 0. |
| RunSimulation.SendPhase | run_simulation.py:28-29 | Nodes and buffer after the send loop are those of SendAll. |
| RunSimulation.SendOne | run_simulation.py:29 | Only node i and the buffer change, to the results of node i's send. |
| RunSimulation.RecvPhase | run_simulation.py:32-33 | Nodes and buffer after the receive loop are those of RecvAll. |
| RunSimulation.RecvOne | run_simulation.py:33 | Only node i and slot i change, to the results of node i's receive. |
| LearningClient.OnConfirm | learning/client.py:34-41 | A confirmation with a strictly newer stamp installs the announced leader (`message.leader`) and that stamp. An older or equal one changes nothing; the stamp never goes back. |
| LearningClient.OnResponse | learning/client.py:44-53 | A newer response whose leader differs from the believed one installs the responder as leader; otherwise nothing changes. The stamp never goes back. |
| LearningClient.HandleAllFacts | learning/client.py:56-72 | Handling a batch never rewinds the stamp, adds exactly the acknowledged request ids, and counts no election. |
| LearningClient.HandleAllLeaderOk | learning/client.py:56-72 | The believed leader stays a node id. |
| LearningClient.TargetsMembers | learning/client.py:111-112 | A broadcast reaches exactly the ports other than the leader's. |
| LearningClient.Requests | learning/client.py:111-117 | One request with the given id per port, in port order. |
| LearningClient.IterationAdvance | learning/client.py:128-146 | Each iteration first sends to the leader. If the request was acknowledged, the next request follows. Otherwise an election is counted, the request is broadcast to every other port, and the id advances only if the leader changed. |
| LearningClient.IterationAcked | learning/client.py:135-137 | An acknowledged request is sent once, to the leader, and the index moves on by one without counting an election. |
| LearningClient.IterationUnacked | learning/client.py:138-146 | An unacknowledged request counts one election and is sent to the leader and then to every port but the current leader's. The index moves on only if the leader id changed. |
| LearningClient.BroadcastRequests | learning/client.py:111-112 | The broadcast after the first request carries the same id to ports of the cluster, never the leader's. |
| LearningClient.RunProgress | learning/client.py:123-146 | Request ids never go back or past the total, and every request sent carries an id in that range. |
| LearningClient.Client.constructor | learning/client.py:12-31 | A fresh client has the given leader view, no acknowledgements and no elections. |
| LearningClient.Client.ReceiveConfirmElection | learning/client.py:34-41 | The view becomes OnConfirm of the old one; nothing else changes. |
| LearningClient.Client.ReceiveResponse | learning/client.py:44-53 | The view becomes OnResponse of the old one, and the request id is acknowledged. |
| LearningClient.Client.Deliver | learning/client.py:56-72 | The state is that of HandleAll. |
| LearningClient.Client.SendRequest | learning/client.py:90-103 | The request goes to the believed leader's port with the given id. |
| LearningClient.Client.SendRequestBroadcast | learning/client.py:106-120 | The targets are the ports other than the leader's. |
| LearningClient.Client.Iterate | learning/client.py:128-146 | State, next id and requests are those of Iteration. |
| LearningClient.Client.RunNode | learning/client.py:123-146 | State, final id and requests are those of RunSpec. |
| SimpleClient.Ports | client.py:15-18 | Replica ports are consecutive from the base port. |
| SimpleClient.ClientPortIsReplicaZero | client.py:19 | The client's port equals replica 0's port and no other replica's. |
| SimpleClient.HandleAllFacts | client.py:29-35 | Replies keep the request id and add their ids to the acknowledged set. The leader becomes the last confirming sender and stays a node id. |
| SimpleClient.StepFacts | client.py:97-103 | Each attempt uses the next request id and sends it to the leader. Unacknowledged, it is broadcast to exactly the ports other than the new leader's. Acknowledged, nothing is broadcast. |
| SimpleClient.RunFreshIds | client.py:96-103 | Every attempt uses a fresh id, one more than the previous. |
| SimpleClient.Client.constructor | client.py:10-27 | The client knows consecutive replica ports, takes replica 0's port as its own, and starts at leader 0, request 0, nothing acknowledged. |
| SimpleClient.Client.RecieveConfirmElection | client.py:29-31 | The state is that of handling the confirmation. |
| SimpleClient.Client.RecieveResponse | client.py:33-35 | The state is that of handling the response. |
| SimpleClient.Client.Deliver | client.py:37-48 | The state is that of HandleAll. |
| SimpleClient.Client.SendRequest | client.py:63-76 | The request id grows by one and the request goes to the leader's port. |
| SimpleClient.Client.SendRequestBroadcast | client.py:78-91 | The targets are the ports other than the leader's. |
| SimpleClient.Client.Iterate | client.py:97-103 | State and attempt are those of Step. |
| SimpleClient.Client.RunClient | client.py:93-103 | State and attempts are those of RunSpec. |
| FailureInjection.AddFresh | learning/environment_v2.py:72-73 | Appending a fresh alive id keeps the draw distinct and alive. |
| FailureInjection.PassFacts | learning/environment_v2.py:70-73 | A binomial pass only appends to the draw, and the draw stays distinct and made of alive ids. |
| FailureInjection.GatherFacts | learning/environment_v2.py:67-73 | Repeated passes leave a distinct draw of alive nodes. |
| FailureInjection.CapFacts | learning/environment_v2.py:76-81 | The cap raises (ValueError from `choice`) exactly when more than max_failed_nodes are already dead. Otherwise the kept ids come from the draw and, with the dead, number at most max_failed_nodes. |
| FailureInjection.Mark | learning/environment_v2.py:92 | Marking keeps one status per node. |
| FailureInjection.Told | learning/environment_v2.py:89-96 | One failure value per node. |
| FailureInjection.TellsDead | learning/environment_v2.py:89-96 | Each node is told "True" exactly when it is dead after marking. Drawn nodes die; the others keep their status. |
| FailureInjection.MarkDead | learning/environment_v2.py:89-92 | Marking a distinct draw of alive nodes adds exactly that many dead nodes. |
| FailureInjection.RepairDead | learning/environment_v2.py:46 | A repair keeps statuses 0/1 and lowers the dead count by one exactly when that node was dead. |
| FailureInjection.DrawFacts | learning/environment_v2.py:63-81 | A round raises exactly when more than max_failed_nodes are already dead. Otherwise it draws distinct alive nodes, and marking them leaves at most max_failed_nodes dead. |
| FailureInjection.SelectNodes | learning/environment_v2.py:63-73 | The loop of binomial passes gathers the draw of the specification. |
| FailureInjection.MarkAndTell | learning/environment_v2.py:86-96 | The statuses and the values sent are those of Mark and Told. |
| BaseEnvironment.Environment.constructor | learning/environment.py:4-6 | A fresh environment has zero probabilities for n nodes. |
| BaseEnvironment.Environment.SetProbability | learning/environment.py:8-9 | Returns 0. |
| BaseEnvironment.Environment.UpdateProbability | learning/environment.py:11-12 | Returns 0. |
| EnvironmentV2.Probabilities | learning/environment_v2.py:50-53 | One probability per node. |
| EnvironmentV2.RoundKeepsBound | learning/environment_v2.py:59-104 | Starting within the bound, a round does not raise, keeps at most max_failed_nodes dead, and tells each node "True" exactly when it is dead. Only drawn nodes die; the others keep their status. |
| EnvironmentV2.Environment.constructor | learning/environment_v2.py:14-38 | Every machine starts alive, and each probability is its type's base probability times the scaling constant. |
| EnvironmentV2.Environment.SetProbability | learning/environment_v2.py:50-56 | Each probability is its type's base probability times the scaling constant. |
| EnvironmentV2.Environment.SleepForRepair | learning/environment_v2.py:40-47 | Only the repaired node's status changes, to alive. |
| EnvironmentV2.Environment.FailNodes | learning/environment_v2.py:59-104 | Outcome, statuses and the values sent are those of Round. |
| EnvironmentV2Ns.RepairDurationClamp | learning/environment_v2_non_stationary.py:48-49 | A repair lasts between 7 and 30. A duration already in range is kept, shorter ones become 7 and longer ones 30; the clamp is monotone. |
| EnvironmentV2Ns.SwappedProbabilities | learning/environment_v2_non_stationary.py:64-68 | One probability per node. |
| EnvironmentV2Ns.SwappedProbabilitiesFacts | learning/environment_v2_non_stationary.py:64-68 | Nodes 0 and 1 exchange probabilities; every other node has its type's base probability times the scaling constant. |
| EnvironmentV2Ns.FailureVector | learning/environment_v2_non_stationary.py:103-105 | One entry per node. |
| EnvironmentV2Ns.LogVector | learning/environment_v2_non_stationary.py:103-105 | Filling the zero array at the drawn indices gives the failure vector. |
| EnvironmentV2Ns.RoundFacts | learning/environment_v2_non_stationary.py:79-128 | Within the bound a round does not raise and keeps at most max_failed_nodes dead. With nothing drawn, nothing is sent, logged or changed. Otherwise the logged vector is 1 exactly at the drawn nodes, and each node is told "True" exactly when it is dead. |
| EnvironmentV2Ns.Environment.constructor | learning/environment_v2_non_stationary.py:17-42 | Every machine starts alive with the swapped probabilities. |
| EnvironmentV2Ns.Environment.SetProbability | learning/environment_v2_non_stationary.py:60-72 | The given types are stored. With two or more nodes the probabilities are the swapped ones. With fewer, the swap raises IndexError after the unswapped ones are written. |
| EnvironmentV2Ns.Environment.SleepForRepair | learning/environment_v2_non_stationary.py:44-57 | The delay is the clamped duration, and only that node comes back alive. |
| EnvironmentV2Ns.Environment.FailNodes | learning/environment_v2_non_stationary.py:75-128 | Outcome, statuses, values sent and the logged vector are those of Round. |
| SimulateFailure.Next | simulate_failure.py:20 | The successor stays a node id. |
| SimulateFailure.Advance | simulate_failure.py:20 | Any number of steps round the ring stays a node id. |
| SimulateFailure.AdvanceWraps | simulate_failure.py:20 | Fewer than n steps wrap round at most once. |
| SimulateFailure.Elect | simulate_failure.py:18-21 | The final leader is a node, and there are no more view changes than iterations. |
| SimulateFailure.ElectStep | simulate_failure.py:18-21 | One turn: a failed leader hands over to `(l + 1) % n` and one view change is counted; a running leader stays. |
| SimulateFailure.ElectWalk | simulate_failure.py:18-21 | After m view changes the leader sits m places on and every node it left was failed. If it stopped early, it sits on a running node. |
| SimulateFailure.SumConcat | simulate_failure.py:29 | The failed count of two parts adds up. |
| SimulateFailure.SumNonNegative | simulate_failure.py:29 | The failed count lies between 0 and the node count. |
| SimulateFailure.SumOnes | simulate_failure.py:29 | With every node failed, the failed count is the node count. |
| SimulateFailure.SettlesWithinFailed | simulate_failure.py:18-21 | If some node runs, the leader changes view at most as many times as nodes have failed. Given more iterations, it ends on a running node. |
| SimulateFailure.Marks | simulate_failure.py:28-32 | The marking has one 0/1 entry per node. |
| SimulateFailure.MarksSum | simulate_failure.py:28-32 | Marking distinct ids fails exactly that many nodes. |
| SimulateFailure.ZerosSum | simulate_failure.py:8 | No node is failed at the start. |
| SimulateFailure.LeaderSettles | simulate_failure.py:6-7 | After any marking pass the leader changes view at most max_failed_nodes times. Given more iterations than that, it ends on a node not failed. |
| SimulateFailure.Simulation.constructor | simulate_failure.py:8-10 | Ten running nodes, leader 0, no view changes. |
| SimulateFailure.Simulation.SelectLeader | simulate_failure.py:14-21 | The leader and the view changes added are those of Elect. |
| SimulateFailure.Simulation.FailNodes | simulate_failure.py:23-33 | The nodes become the marking of the drawn ids. |
| LogParser.Find | log_parser.py:12 | A found position lies at or after the start, with room for the separator. |
| LogParser.FindFacts | log_parser.py:12 | Find returns the leftmost occurrence at or after the start, or none when there is none. |
| LogParser.Split | log_parser.py:12 | `str.split` returns at least one piece. |
| LogParser.SplitJoin | log_parser.py:12 | Joining the pieces with the separator gives back the line. |
| LogParser.SplitPiecesClean | log_parser.py:12 | No piece contains the separator. |
| LogParser.PrefixClean | log_parser.py:12 | The text before the first occurrence of the separator holds no occurrence of it. |
| LogParser.SplitPieces | log_parser.py:14-15 | There is a second piece exactly when the separator occurs. |
| LogParser.Keys | log_parser.py:18-21 | There are no more names than words. |
| LogParser.KeysMembers | log_parser.py:20-21 | A name is counted exactly when some word is "[Message]" followed by that name. |
| LogParser.KeysConcat | log_parser.py:18-21 | The names of two runs of words concatenate. |
| LogParser.CountWordsKeys | log_parser.py:18-21 | Counting words adds each qualifying word's name once. |
| LogParser.IgnoredWord | log_parser.py:20 | A word without the prefix changes no count, wherever it stands. |
| LogParser.IgnoredLine | log_parser.py:12-17 | A line without the separator contributes nothing. Otherwise its contribution depends only on its second piece, which must start with "receive". |
| LogParser.CountLinesKeys | log_parser.py:6-23 | The counter holds exactly the names of the qualifying words, once per occurrence; its total is their number. |
| LogParser.MessageFreq | log_parser.py:6-23 | The counter built by the nested loops is that of the specification. |

## Left out

- Selector.ArgSortDesc: ties between equal estimates are put in ascending id order. numpy's default `argsort` (quicksort, not stable) does not promise any tie order, and ties are common because an update with a zero count sets an estimate to exactly 0.0 or 1.0. So the exact `ids == Choose(...)` in the ensures of V2.V2Node.SelectLeader, V2.V2Node.RecieveRequest and V1.OnTimeout fixes one tie order the source does not. Selector.GreedyOf proves the facts of Selector.GreedyChoice for every order that is descending by estimate, whatever its ties.
- Sockets, threads, locks, sleeps and the clock. Message arrival becomes the sequence of messages a handler receives, and a `while run` loop becomes a given number of turns or a script of inputs.
- Randomness. `np.random.rand`, `rng.choice`, the binomial and multinomial draws, `np.random.choice`, the lognormal repair time and `train_test_split` are parameters. The retry loop of environment_v2.py:67-73 runs over a given list of passes, so its termination is not modelled.
- Floating point. Estimates, probabilities and durations are `real`s; rounding is not modelled.
- `print`, `logging`, the plots and logger of `utils/` and `run_simulation_v2.py`: output only, or outside this model. One exception is not output only: the final `print` of learning/client.py:148 evaluates `self.num_requests. self.num_leader_election`, which raises AttributeError when `run_node` ends. LearningClient.Client.RunNode does not model that raise.
- The command line and the reading of files in `log_parser.py` (`glob`, `chdir`, `readlines`). MessageFreq takes the lines of one file, newline characters included, and returns the counter instead of printing it.
- V2 `simulate_client`, `send`, `send_to_client` and `multi_threaded_client` are socket loops. Their dispatch is stated by Messages.RenderedTextHasNoTag, and each branch is modelled by its handler.
- V2 `recieve_response_message` (learning/v2.py:242-266) is never called, and it sleeps on a per-node timer; it is not modelled.
- Parsing of malformed text. Messages.DecodeCandidate reads only what `__str__` produces. `parse_candidates` and the classes `RequestMessage`, `ResponseMessage`, `ClientRequestMessage`, `RequestBroadcastMessage` and `FailureMessage` are not defined in learning/message.py. The model gives them the fields their handlers read.
- `learning/client.py` never sets `self.ports` and calls an undefined `parse_and_construct`. Its node-level `leader` is the integer 1 from node.py. The model takes the ports and a (leader, stamp) view as constructor parameters.
- `client.py` reads ids from text as strings (client.py:40-45). The model takes them as ints. In the source the consequences are: after a confirmation, `self.ports[self.leader]` indexes a list with a str and raises TypeError (client.py:66, 83); and the acked keys are strings, so `self.request_id in self.message_buffer.keys()` (client.py:99) never matches and every request is followed by a broadcast. SimpleClient.Client models the int reading, where lookups succeed and acks match.
- The environment constructors call `super().__init__` with more arguments than learning/environment.py:4 accepts, and never set `max_failed_nodes`, `min_fail_fraction`, `ports` or `replica_base_port`. These are constructor parameters. The failure message to node i is taken to go to port `replica_base_port + i`.
- V1 reads `self.candidate_count` and `self.self`, which do not exist. Its estimate updates take a `counts` parameter in their place. A node whose updates would raise `AttributeError` is modelled as if the attribute existed.
- V2.V2Node.ReceiveRequestBroadcast: the `.append` on a dict raises AttributeError between `lock.acquire()` and `lock.release()` (learning/v2.py:187-189), so the module-level lock stays held. From then on the source blocks for ever on the next failure notice (learning/v2.py:170) and on queueing a self-confirmation (learning/v2.py:291). The model has no lock: it returns the error, and ReceiveFailure and ReceiveCandidate go on as normal afterwards.
- The node constructors (NodeBase, V1, V2) require at least two nodes because the initial leader is node 1. EnvironmentV2Ns.Environment.constructor requires at least two nodes for another reason: its `set_probability` swaps the probabilities of nodes 0 and 1 and raises IndexError otherwise (SetProbability models that raise).
- SimulateFailure.Simulation: the two threads become atomic calls. `nodes` holds ints 0/1 rather than float zeros, and the number of `select_leader` turns is a parameter.
- Selector.ChooseWellFormed: the -1 fallback of `np.arange(-1, n)` is modelled, but TopNNeverRaises shows it cannot occur with the topn the program passes.
