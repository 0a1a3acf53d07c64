# Sharkstore: Raft engine, queue, key space, ids and placement

A Dafny model of the master server's consensus engine (`master-server/raft`) and of four smaller mechanisms
around it, with proofs. `dafny verify dfyconfig.toml` checks everything.

## How the Raft part is built

Three transition systems, each proved to be a run of the next.

1. **The ready loop** (`Batched`). A node handles any number of inputs in memory, queueing messages. A ready turn
   persists the log and the hard state, applies, advances and only then sends. A crash loses everything since the
   last turn. `BatchedSafety` replays each node's unpersisted inputs to show that this is a run of the cluster.
2. **The cluster** (`Cluster`, `FsmSpec`). Any set of nodes and a bag of messages that may be lost, repeated and
   reordered; node steps are one message through the receive filter and `Step`, a timeout with or without force, a
   lease tick, a heartbeat tick, a batch of proposals, a ready turn, a restart. `FsmSpec` holds the state machine as
   functions, with a `fault` mark where the code panics. The `Sim*` modules show that every step is a sequence of
   enabled actions of the same node in the core protocol.
3. **The core protocol** (`CoreRaft`). Votes, leaders' logs, acknowledgements and sent commit indexes are kept as
   history. The inductive invariant (`CoreInvariant`, proved in `CoreElection`, `CoreReplication`, `CoreSafety`)
   says of every promise a node has made to a leader that its log still holds that leader's prefix, or that a
   majority has left the leader's term without acknowledging the prefix, so that it can no longer be committed.

The theorems about all runs are in `RaftSafety` (cluster), `ReadyLoopSafety` and `MemoryCommits` (ready loop). They
speak of two nodes at two times, not only of one state.

The imperative code is modelled in place: `RaftLog` (storage plus unstable tail), `Inflight` (ring buffer), `Replica`
(progress of one follower), `ReplicaTable` (the map of replicas, with each replica's objects kept apart from the
others') and `RaftFsm` on top of them (the state machine: its loops over the replicas, its message queue, apply,
recovery). Each method is proved equal to the function of the layer above on the object's abstract value.

`ApplyOnce`, `MatchRises` and `ProbeConverges` are about single nodes or one leader and one follower, for arbitrary
inputs and states, and do not need the protocol invariants. `GivenExactly` joins them with the ready loop: what each
state machine has been given, across crashes. `ThreeServers`, `RemovalRun` and `OneServer` are concrete runs,
built in `Witness` from what single inputs do.

Safety says nothing of a system that does nothing. `Elections`, `VoteRule`, `Heartbeats`, `CatchUp`, `Commitment`,
`Messages` and `Submissions` say what each input brings about, in terms of logs, votes, priorities and progress: a
majority elects, votes follow logs and priorities, a follower that its leader can reach catches up, a majority commits
and everybody is told, and what state machines are given is what was submitted.

Some promises fail as stated and are proved with their exact conditions. Entries are handed to the state machine exactly
once unless applying a member's removal lets the leader commit beyond the batch it is applying, because `apply` takes
its batch before and `advance` reads the commit index after (`ApplyOnce`, with a run in `RemovalRun`). Commits
that a crash may still take back agree exactly when there is more than one server (`MemoryCommits`, `OneServer`).
Ids are unique exactly when the received blocks are disjoint (`IdBlocks`). They are as long as the stored counter does
not run over 64 bits and no two generators interleave a read and a write of it, and runs show what happens otherwise
(`IdGenerator`).

Assumptions of the safety theorems: the set of members is fixed (configuration changes may update members or name
existing ones); no preset leader; no compaction and no snapshots; one persist is atomic and durable; storage cuts at
the first stored index and then appends; heartbeats carry no term and may arrive at any time; timers fire at any time.

## The other parts

- `BlockingQueue`: `Put`, `Poll` and `Dispose` of `util/queue.go` as steps between synchronisation points, for any
  number of threads, with the wait group and the one-slot channel of each waiter.
- `KeySpace`: byte order, prefix successor, table prefixes, and the pre-split of a new table.
- `IdGenerator`: block allocation on a store whose writes may fail before or after they happen.
- `Placement`: the rank-sum choice of a node.

Where code and comments disagree the code is followed. `BytesPrefix` exists twice, in `util/util.go` and in
`master-server/server/util.go`; the two are the same loop and modelled once.

## Model

| member | source | states |
|---|---|---|
| `RaftSafety.ElectionSafety` | master-server/raft/raft_fsm_candidate.go:66-81 | In every run, with the lease check on or off and through crashes and restarts, no two nodes ever lead the same term, at whatever two times one looks. |
| `RaftSafety.LogMatching` | master-server/raft/raft_log.go:112-163 | Two logs, of any nodes at any times, that hold the same term at an index are equal up to that index. |
| `RaftSafety.StateMachineSafety` | master-server/raft/raft_fsm_leader.go:319-331 | What any node has committed at any time agrees with what any node has committed at any other time. |
| `RaftSafety.LeaderCompleteness` | master-server/raft/raft_log.go:194-200 | What any node has committed in a term, at any time, is in the log of every leader of a later term at any other time, earlier ones included, and in the log of a leader of the same term from then on. |
| `RaftSafety.NoPanic` | master-server/raft/raft_log.go:132-223 | In every reachable state no panic has been met (append, commitTo, appliedTo, committed conflict, double configuration entry, snapshot due below the first index, becoming leader or candidate from a wrong state) and applied <= committed <= last index. |
| `RaftSafety.NeverBack` | master-server/raft/raft_log.go:202-211 | A node's term and commit index never fall over a run, restarts included. |
| `RaftSafety.OneConfPending` | master-server/raft/raft_fsm_leader.go:26-38 | In every reachable state at most one configuration entry lies above a node's commit index. |
| `RaftSafety.MatchSound` | master-server/raft/raft_fsm_leader.go:90-125 | In every reachable state a leader's match index for a follower in the same term is a prefix on which both logs agree, and a follower with a positive match index has not fallen behind the leader's term. |
| `RaftSafety.WindowsInOrder` | master-server/raft/raft_replica.go:135-182 | In every reachable state each of a leader's windows is within its capacity, strictly rising and between match and next, and next > match while replicating. |
| `RaftSafety.RunLinked` | master-server/raft/raft.go:200-331 | Forward simulation: every run of the detailed cluster has behind it a run of the core protocol from its initial state, in which each step of a node is matched by enabled actions of that same node; each state stands for the cluster's and the recorded history only grows. |
| `ThreeServers.MajorityReachable` | master-server/raft/raft_fsm_candidate.go:26-113 | The theorems are not empty: a run of three servers in which votes and acknowledgements travel as messages, a leader is elected and its first entry is committed by a majority. |
| `CoreSafety.StepInv` | master-server/raft/raft_fsm.go:121-180 | Every action of the core protocol keeps the inductive invariant (votes, campaigns, leaders' logs, acknowledgements, blocked and chosen prefixes, commits). |
| `CoreSafety.StepConf` | master-server/raft/raft_fsm_leader.go:54-62 | Every action keeps at most one configuration entry above the commit index, and every append request carries a commit index that keeps it so at the receiver. |
| `CoreReplication.LeaderCompleteness` | master-server/raft/raft_fsm_follower.go:56-86 | A prefix acknowledged by a majority in a term is in the log of every leader of a later term. |
| `CoreElection.LogMatching` | master-server/raft/raft_log.go:120-130 | Logs whose entries all come from leaders' logs agree below any index where their terms agree. |
| `SimFollower.PrefixMatches` | master-server/raft/raft_log.go:69-89 | The term reads as 0 outside the log; a request whose previous term matches there still agrees with the log, since only index 0 is sent with term 0. |
| `SimFollower.AppendIsAdopt` | master-server/raft/raft_log.go:132-163 | Cutting at the first conflict and appending gives exactly: the log itself if it already has the leader's entries, else the leader's log up to the last new entry; it never panics. |
| `SimStep.StepSim` | master-server/raft/raft_fsm.go:121-180 | One message handled by `Step` in any state is a sequence of enabled core protocol actions of that node that leads to a state standing for the result, and what it sends is on record. |
| `SimApply.RestartSim` | master-server/raft/raft_fsm.go:42-118 | A restart from the hard state and the stored log is a sequence of enabled core protocol actions of that node and forgets nothing promised. |
| `BatchedSafety.BRunLinked` | master-server/raft/raft.go:285-297 | Every run of the ready loop, which handles many inputs in memory before one persist and loses them in a crash, is a run of the cluster in which each input is persisted and sent at once. |
| `ReadyLoopSafety.PersistBeforeSend` | master-server/raft/raft.go:285-297 | For every message ever sent, the sender's durable term is higher, or equal with the durable vote being the granted one and the durable log covering the acknowledged (or holding the sent) entries. |
| `ReadyLoopSafety.AcknowledgedIsStored` | master-server/raft/raft_fsm_follower.go:124-156 | While the term of an acknowledgement lasts, its sender's durable log holds every entry the leader ever sent up to the acknowledged index. |
| `ReadyLoopSafety.ElectionSafety` | master-server/raft/raft.go:200-331 | No two nodes ever lead the same term in memory, at any two times, even if one has crashed since without persisting anything. |
| `ReadyLoopSafety.OneVoicePerTerm` | master-server/raft/raft_fsm_leader.go:342-418 | All append requests of a term ever sent come from one node. |
| `ReadyLoopSafety.AppliedSafety` | master-server/raft/raft.go:526-571 | What any two nodes have durably committed at any two times agrees. |
| `GivenExactly.GivenExact` | master-server/raft/raft.go:526-571 | In every reachable state of the ready loop, through any crashes and recoveries, a node's state machine has been given exactly the non-empty entries of the durable committed prefix, each once and in index order. |
| `GivenExactly.GivenAgree` | master-server/raft/raft_fsm.go:193-219 | What any two state machines have been given, at any two times, is the same as far as both have come. |
| `ReadyLoopSafety.DurableNeverBack` | master-server/raft/raft.go:510-524 | The durable term and commit index never fall. |
| `ReadyLoopSafety.MemorySafety` | master-server/raft/raft.go:200-331 | The states in memory between persists are panic-free, in order, with one configuration entry pending at most, one leader per term and agreeing committed prefixes. |
| `OneServer.MemoryCommitsExactly` | master-server/raft/raft_fsm_leader.go:319-331 | Committed prefixes in memory agree between any nodes at any two times of any run, crashes before a persist included, if and only if there is more than one server. |
| `MemoryCommits.MemoryCommitsAgree` | master-server/raft/raft.go:200-331 | With two servers or more, what any node has committed in memory at any time agrees with what any node has committed in memory at any other time, even if it crashed before persisting it. |
| `MemoryCommits.MovesBacked` | master-server/raft/raft_fsm_leader.go:319-331 | Wherever one node's own actions lead, whatever it commits on the way had been chosen by a majority on record before: a leader's commit needs another's acknowledgement, and so entries that it had sent and stored. |
| `OneServer.OneForgets` | master-server/raft/raft_fsm_leader.go:319-331 | A server on its own commits an entry in memory, crashes before the next turn and commits another one in its place. |
| `CatchUp.FollowersCatchUp` | master-server/raft/raft_fsm_leader.go:90-142 | In every reachable state, whatever was lost before, a follower that knows its leader catches up within a stated number of exchanges (tick, heartbeat answers, request, answer): it then holds all of the leader's log and the leader knows; its commit index too, unless the leader had overstated it. |
| `CatchUp.CatchesUp` | master-server/raft/raft_fsm_leader.go:90-142 | The same for any leader and follower of one term whose logs come from leaders' logs and agree on what is committed and matched. |
| `CatchUp.FollowerExactly` | master-server/raft/raft_fsm_follower.go:124-156 | An append request is answered in exactly one of three ways: below the commit index with the commit index, at a disagreement with a rejection naming the log's end and nothing changed, else by adopting the entries and the commit index as far as they reach. |
| `CatchUp.RejectTaken` | master-server/raft/raft_fsm_leader.go:94-103 | A taken rejection leads to probing from the match index on, or from the follower's end if that is lower, and to the request from there. |
| `CatchUp.RejectStale` | master-server/raft/raft_replica.go:86-107 | A stale rejection changes nothing but the note of activity and commit index, and sends nothing. |
| `Heartbeats.AnswerExactly` | master-server/raft/raft_fsm_leader.go:129-142 | A heartbeat answer makes the leader send the request from `next` on if and only if the replica lags, nothing is pending and it is not paused once a full window has given up an entry. |
| `Heartbeats.TwoAnswersSend` | master-server/raft/raft_fsm_leader.go:129-142 | Whatever was lost before, a heartbeat tick and two answers of a lagging replica outside snapshot state draw out the request from `next` on. |
| `Heartbeats.RequestCarries` | master-server/raft/raft_fsm_leader.go:342-418 | A request carries the longest stretch of the log from `next` on within the message size, and something if there is anything. |
| `Heartbeats.OneProbe` | master-server/raft/raft_fsm_leader.go:408-410 | While probing, after a request with entries nothing more is sent until an answer or a tick. |
| `Commitment.NewAck` | master-server/raft/raft_fsm_leader.go:105-125 | After a new acknowledgement the commit index is the greatest index that a majority has reached, if the entry there is of the leader's term; if that is new, exactly the others that can be sent to are sent it, else only a sender that had been paused. |
| `Commitment.OldAck` | master-server/raft/raft_replica.go:69-84 | An acknowledgement of nothing new moves no commit index and is not answered. |
| `Commitment.SubmitSent` | master-server/raft/raft_fsm_leader.go:49-66 | A batch taken in goes out at once, from each one's `next` on, to exactly the other members that can be sent to. |
| `Commitment.SubmitMarked` | master-server/raft/raft_fsm_leader.go:401-415 | Sending leaves a pending mark, a pause while probing and a longer window while replicating, on exactly the members sent to. |
| `Elections.TimeoutExactly` | master-server/raft/raft_fsm_candidate.go:85-113 | A timeout makes a member a candidate of the next term with its own vote and asks every other one, naming the end of its log; it waits while a committed configuration change is unapplied. |
| `Elections.VoteCounted` | master-server/raft/raft_fsm_candidate.go:66-81 | A vote brings office, or the acknowledgement round with the lease check, exactly at a majority of grants; a majority of refusals ends the candidacy; a second vote of a member does not count. |
| `Elections.AckCounted` | master-server/raft/raft_fsm_leader.go:247-256 | In the acknowledgement round a majority of answers brings office, fewer are collected. |
| `Elections.MajorityElects` | master-server/raft/raft_fsm_candidate.go:66-81 | The grants of any majority, in any order and for any number of members, bring a candidate into office, or into the acknowledgement round with the lease check. |
| `Elections.MajorityInstalls` | master-server/raft/raft_fsm_leader.go:210-258 | The acknowledgements of any majority, in any order, bring office. |
| `Elections.OfficeAnnounced` | master-server/raft/raft_fsm_leader.go:13-44 | A new leader's log is opened by an empty entry of its term, and exactly that entry is sent to every other member. |
| `VoteRule.VoteExactly` | master-server/raft/raft_fsm_follower.go:56-86 | A follower grants if and only if it has no other vote this term, with the lease check knows no leader, and the candidate's last term and index are above its own, or level with a priority at least its own (65535 for an unknown candidate, 0 for an unknown self); it always answers. |
| `VoteRule.HigherTerm` | master-server/raft/raft_fsm.go:149-170 | A vote request of a higher term: while the lease holds nothing changes and the leader is told; else the node moves to the term and votes by logs and priorities alone. |
| `VoteRule.GrantedDeserves` | master-server/raft/raft_log.go:227-230 | In any state and term a vote goes only to a candidate whose log is above the voter's, or level with no lower priority. |
| `VoteRule.LowerPriorityRefused` | master-server/raft/raft_log.go:227-230 | Of two members with equal logs the one with the lower priority is never voted for by the other. |
| `VoteRule.OthersRefuse` | master-server/raft/raft_fsm_candidate.go:54-64 | Candidates and leaders refuse a request of their own term and change nothing. |
| `VoteRule.StrangerHeard` | master-server/raft/raft.go:262-264 | A vote request of a node that is no member is heard only if its log is at least level. |
| `VoteRule.LeaderReleases` | master-server/raft/raft_fsm_leader.go:144-156 | A leader told that a member has lost touch steps down in its term and releases every other member. |
| `VoteRule.FollowerReleased` | master-server/raft/raft_fsm_follower.go:88-97 | A follower released by its leader campaigns as on a timeout. |
| `Messages.YieldsToLeader` | master-server/raft/raft_fsm_candidate.go:41-52 | Anybody but a leader gives way to a node that shows itself as leader of the term, keeping term, vote and log, and answers its request. |
| `Messages.CandidateFollows` | master-server/raft/raft_fsm_candidate.go:35-39 | A candidate handles an append request of its term as the sender's follower. |
| `Messages.LaterTerm` | master-server/raft/raft_fsm.go:149-170 | A message of a later term is handled in that term, without a vote, by a follower of its sender. |
| `Messages.OldTermIgnored` | master-server/raft/raft_fsm.go:172-177 | Messages of an older term are dropped. |
| `Messages.StrangerIgnored` | master-server/raft/raft.go:262-264 | Answers of nodes that are no members are dropped. |
| `Messages.HeartbeatFiltered` | master-server/raft/raft.go:266-273 | A heartbeat counts only from the known leader and its answer only at a leader. |
| `Messages.ProposalForwarded` | master-server/raft/raft_fsm_follower.go:23-32 | A follower passes proposals on to the leader it knows, unchanged. |
| `Messages.LeaseRunsOut` | master-server/raft/raft_fsm_leader.go:260-271 | A leader whose lease has run out steps down in its term; nobody else is affected. |
| `Messages.MemberAdded` | master-server/raft/raft_fsm.go:237-249 | A turn that adds a member notes it with nothing matched, to be sent to from the end of a leader's log on, and leaves the others alone. |
| `Messages.MemberUpdated` | master-server/raft/raft_fsm.go:266-273 | A turn that updates a member changes its description and nothing else. |
| `Messages.StartAhead` | master-server/raft/raft_fsm.go:72-86 | A start with an application ahead of the stored commit index raises it, as far as the log goes. |
| `Submissions.GivenSubmitted` | master-server/raft/raft.go:526-571 | In every run of the ready loop, through crashes, whatever a state machine has been given was taken in by a leader of the entry's term, as that proposal of a batch, at that index. |
| `Submissions.SubmitLogged` | master-server/raft/raft.go:230-260 | A leader logs a batch in the order submitted: the old log, then one entry of its term per proposal, with that proposal's payload, or empty for a configuration change while one is pending. |
| `Submissions.SubmitRefused` | master-server/raft/raft.go:230-235 | Anybody else turns the batch away. |
| `Submissions.BatchInOrder` | master-server/raft/raft.go:236-259 | The entries of one batch are given to state machines in the order of the batch. |
| `QuorumIndex.PickAgreed` | master-server/raft/raft_fsm_leader.go:319-326 | The element at place quorum-1 of the descending sort is the greatest index that a majority of the replicas has reached. |
| `QuorumIndex.DescendingPlace` | master-server/raft/raft_fsm_leader.go:319-326 | In a descending list, place q-1 has reached an index exactly when at least q entries have. |
| `MatchRises.MatchNeverFalls` | master-server/raft/raft_fsm_leader.go:90-125 | Whatever the input, while a node leads a term a member's match index falls if and only if the input is a ready turn whose batch takes that member out and lets it in again, and the index was not 0. |
| `MatchRises.TurnMatch` | master-server/raft/raft_fsm.go:237-264 | After a ready turn of a node that goes on leading, a member's match index is 0 if the batch took it out (and let it in again), and unchanged otherwise. |
| `ApplyOnce.ExactlyOnce` | master-server/raft/raft.go:526-571 | Over any inputs in any order, the entries handed over are exactly the non-empty committed ones between the first and the last position, in order, if and only if at every ready turn only empty entries lie between the commit index and the one that the batch's removals lead to, a value computed from the match indexes before the turn; handed and passed-over entries always add up. |
| `ApplyOnce.TurnExact` | master-server/raft/raft.go:565-571 | A ready turn counts as applied its batch and the stretch up to the commit index that its removals lead to, which is empty if and only if no removal lets the remaining members agree on an index beyond the batch. |
| `ApplyOnce.NoRemovalNoLoss` | master-server/raft/raft.go:526-571 | A batch that removes no other member is counted as applied exactly. |
| `RemovalRun.RemovalPassesOver` | master-server/raft/raft_fsm.go:251-264 | From its start, through an election, two proposals and the acknowledgements, with a ready turn before each answer to what it sends, a leader of four comes to a ready turn that applies a removal and counts the next entry as applied without handing it over. |
| `ApplyOnce.InputKept` | master-server/raft/raft_log.go:132-223 | No input other than a ready turn or a restart, whatever it contains, undoes anything a node has committed or moves its applied index. |
| `ApplyOnce.BatchApplies` | master-server/raft/raft_fsm.go:221-264 | Applying a batch leads to exactly the commit index, membership and leadership computed from the match indexes before it. |
| `ApplyOnce.HandedExact` | master-server/raft/raft.go:526-563 | What is handed over of a stretch of log is its non-empty entries, each once, with rising indexes. |
| `ProbeConverges.ProbeEnds` | master-server/raft/raft_replica.go:97-106 | Over unchanged logs the exchange of append requests and rejections ends in an acceptance after fewer than `next` rejections, and after at most one more than the follower's log is long. |
| `ProbeConverges.ProbeRetried` | master-server/raft/raft_fsm_leader.go:94-103 | A rejection taken while probing strictly lowers `next`, to at most one past the follower's end, and sends the next request from there. |
| `ProbeConverges.ProbeAnswered` | master-server/raft/raft_fsm_follower.go:124-156 | A follower rejects a probe exactly when it disagrees at the previous index, then keeps its log; otherwise it accepts without a panic. |
| `ProgressSpec.DropExact` | master-server/raft/raft_replica.go:154-169 | On a rising window, freeing up to an index drops exactly the elements up to it. |
| `ProgressSpec.DropFirst` | master-server/raft/raft_replica.go:171-173 | Freeing the first element of a rising window drops exactly that one. |
| `ProgressSpec.DecrKeeps` | master-server/raft/raft_replica.go:86-107 | A rejection keeps the window's order and the match index, and strictly lowers `next` while probing. |
| `ProgressSpec.UpdateKeeps` | master-server/raft/raft_replica.go:69-84 | A new acknowledgement while replicating keeps the window rising and between match and next. |
| `ProgressSpec.SendKeeps` | master-server/raft/raft_fsm_leader.go:401-407 | Sending while replicating, which happens only when the window is not full, keeps it rising and between match and next. |
| `ReplicaClass.Inflight.constructor` | master-server/raft/raft_replica.go:23-35 | A new ring buffer stands for the empty queue. |
| `ReplicaClass.Inflight.Add` | master-server/raft/raft_replica.go:142-152 | The ring buffer appends to its queue; refused exactly when full. |
| `ReplicaClass.Inflight.FreeTo` | master-server/raft/raft_replica.go:154-169 | The ring buffer drops from its queue the leading entries up to an index, across the wrap-around. |
| `ReplicaClass.Inflight.FreeFirstOne` | master-server/raft/raft_replica.go:171-173 | Drops the leading entries up to the first one, nothing if empty; a panic exactly when the buffer has no room at all. |
| `ReplicaClass.Inflight.Reset` | master-server/raft/raft_replica.go:179-182 | Empties the queue. |
| `ReplicaClass.Replica.constructor` | master-server/raft/raft_replica.go:23-35 | A new replica's progress. |
| `ReplicaClass.Replica.BecomeProbe` | master-server/raft/raft_replica.go:44-53 | Probe state; next is past match, or past the pending snapshot. |
| `ReplicaClass.Replica.BecomeReplicate` | master-server/raft/raft_replica.go:55-58 | Replicate state from match on, with an empty window. |
| `ReplicaClass.Replica.BecomeSnapshot` | master-server/raft/raft_replica.go:60-63 | Snapshot state. |
| `ReplicaClass.Replica.MaybeUpdate` | master-server/raft/raft_replica.go:69-84 | Match, next and commit rise to what is acknowledged; true exactly when the index is new. |
| `ReplicaClass.Replica.MaybeDecrTo` | master-server/raft/raft_replica.go:86-107 | Next goes back as the rejection says; true exactly when the rejection is not stale. |
| `ReplicaClass.Replica.Acknowledge` | master-server/raft/raft_fsm_leader.go:105-119 | An acknowledgement in place: probing turns to replicating, replicating frees the window up to the index; true exactly when the index is new. |
| `ReplicaClass.Replica.Reject` | master-server/raft/raft_fsm_leader.go:98-102 | A taken rejection lowers next and turns replicating to probing. |
| `ReplicaClass.Replica.RecordSent` | master-server/raft/raft_fsm_leader.go:401-415 | A request sent moves next and fills the ring buffer, or pauses; the buffer is never found full. |
| `ReplicaClass.Replica.MakeRoom` | master-server/raft/raft_fsm_leader.go:129-133 | A full window gives up its first entry; a panic exactly when the buffer has no room at all. |
| `ReplicaTableClass.ReplicaTable.Put` | master-server/raft/raft_fsm.go:237-249 | A new replica object with its own ring buffer stands for a new progress of one member; the objects of the others are apart from it. |
| `ReplicaTableClass.ReplicaTable.Acknowledge` | master-server/raft/raft_fsm_leader.go:106-119 | One replica's object and ring buffer change as an acknowledgement says; the progress of every other replica is unchanged. |
| `ReplicaTableClass.ReplicaTable.Reject` | master-server/raft/raft_fsm_leader.go:98-102 | The same for a rejection. |
| `ReplicaTableClass.ReplicaTable.RecordSent` | master-server/raft/raft_fsm_leader.go:401-415 | The same for a request sent. |
| `ReplicaTableClass.ReplicaTable.MakeRoom` | master-server/raft/raft_fsm_leader.go:129-133 | The same for a heartbeat answer that finds the window full. |
| `ReplicaTableClass.ReplicaTable.Remove` | master-server/raft/raft_fsm.go:251-264 | The member is gone and the others' progress is unchanged. |
| `ReplicaTableClass.ReplicaTable.Renew` | master-server/raft/raft_fsm.go:288-315 | The loop over the replicas replaces each by a new object, and the outcome is the specified progress of all. |
| `ReplicaTableClass.ReplicaTable.Unpause` | master-server/raft/raft_fsm_leader.go:276-287 | The loop over the replicas unpauses, object by object, exactly those specified. |
| `LogSpec.CompactedAppend` | master-server/raft/raft_log.go:132-150 | An append request has the same outcome on a compacted log as on the whole one. |
| `LogSpec.LimitLongest` | master-server/raft/raft_log.go:328-342 | A size-limited read is the longest prefix within the limit, and not empty if there is anything to read. |
| `RaftLogClass.RaftLog.constructor` | master-server/raft/raft_log.go:22-40 | A log on what storage holds stands for just that. |
| `RaftLogClass.RaftLog.LastIndex` | master-server/raft/raft_log.go:56-67 | The last index of the one log that storage and the unstable tail stand for, stale stored entries not counting. |
| `RaftLogClass.RaftLog.Term` | master-server/raft/raft_log.go:69-89 | The term at an index of that log; 0 outside it. |
| `RaftLogClass.RaftLog.FindConflict` | master-server/raft/raft_log.go:120-130 | The first index whose term the log does not have; 0 if none. |
| `RaftLogClass.RaftLog.TruncateAndAppend` | master-server/raft/raft_log_unstable.go:68-88 | The log is cut before the first new entry and extended, in all three cases of the tail. |
| `RaftLogClass.RaftLog.Append` | master-server/raft/raft_log.go:152-163 | The same, or a panic exactly when committed entries would be cut or a gap left. |
| `RaftLogClass.RaftLog.CommitTo` | master-server/raft/raft_log.go:202-211 | The commit index rises; a panic exactly when the log does not reach. |
| `RaftLogClass.RaftLog.MaybeAppend` | master-server/raft/raft_log.go:132-150 | The whole outcome of an append request on the two-part log is that of its specification on one sequence. |
| `RaftLogClass.RaftLog.MaybeCommit` | master-server/raft/raft_log.go:194-200 | Commits exactly an index above the commit index whose entry has the given term. |
| `RaftLogClass.RaftLog.AppliedTo` | master-server/raft/raft_log.go:213-223 | The applied index rises; a panic exactly when it would fall or pass the commit index. |
| `RaftLogClass.RaftLog.Slice` | master-server/raft/raft_log.go:241-301 | A read returns the size-limited stretch of the one log, across storage and tail; the compaction error and the panic exactly when out of bounds. |
| `RaftLogClass.RaftLog.Entries` | master-server/raft/raft_log.go:187-192 | The entries from an index on, size-limited. |
| `RaftLogClass.RaftLog.LimitSize` | master-server/raft/raft_log.go:328-342 | The entry-by-entry loop gives the longest prefix within the limit. |
| `RaftLogClass.RaftLog.NextEnts` | master-server/raft/raft_log.go:172-185 | The committed entries not yet applied, size-limited and not empty if there are any. |
| `RaftLogClass.RaftLog.Persist` | master-server/raft/raft.go:510-515 | Storage becomes the one log; the log itself is unchanged. |
| `RaftLogClass.RaftLog.StableTo` | master-server/raft/raft_log_unstable.go:41-58 | The tail gives up what is stored; the log itself is unchanged. |
| `RaftLogClass.RaftLog.Advance` | master-server/raft/raft.go:565-571 | After a persist everything committed counts as applied and the tail is empty; the log is unchanged. |
| `FsmParts.NumOfPendingConf` | master-server/raft/raft_fsm.go:357-365 | The number of configuration changes in a stretch of log. |
| `RaftFsmClass.RaftFsm.constructor` | master-server/raft/raft_fsm.go:42-64 | The state before storage is loaded. |
| `RaftFsmClass.RaftFsm.Reset` | master-server/raft/raft_fsm.go:288-315 | In place, the state that the specification of `reset` gives. |
| `RaftFsmClass.RaftFsm.BecomeFollower` | master-server/raft/raft_fsm_follower.go:10-19 | In place, the specified follower state. |
| `RaftFsmClass.RaftFsm.BecomeCandidate` | master-server/raft/raft_fsm_candidate.go:10-24 | In place, the specified candidate state; a leader panics. |
| `RaftFsmClass.RaftFsm.BecomeLeader` | master-server/raft/raft_fsm_leader.go:13-44 | In place, the specified leader state with its first entry appended; panics of a follower and of two pending configuration entries. |
| `RaftFsmClass.RaftFsm.AppendEntry` | master-server/raft/raft_fsm_leader.go:420-424 | The leader's log, own progress and commit index as specified. |
| `RaftFsmClass.RaftFsm.MaybeCommit` | master-server/raft/raft_fsm_leader.go:319-331 | The commit index becomes the sorted list's quorum element as specified; true exactly when it advances. |
| `RaftFsmClass.RaftFsm.SendAppend` | master-server/raft/raft_fsm_leader.go:342-418 | The replica's progress and the queued append request as specified; nothing for a paused replica. |
| `RaftFsmClass.RaftFsm.BcastAppend` | master-server/raft/raft_fsm_leader.go:333-340 | One loop over the replicas, in any order, gives the specified progress of all and queues exactly the specified requests. |
| `RaftFsmClass.RaftFsm.Poll` | master-server/raft/raft_fsm_candidate.go:115-132 | Records the first vote of a node and returns the number of grants. |
| `RaftFsmClass.RaftFsm.BecomeElectionAck` | master-server/raft/raft_fsm_leader.go:186-208 | As specified: leader at once when alone, else the acknowledgement round. |
| `RaftFsmClass.RaftFsm.Campaign` | master-server/raft/raft_fsm_candidate.go:85-113 | As specified: candidate state, own vote, then victory or vote requests to all others. |
| `RaftFsmClass.RaftFsm.Hup` | master-server/raft/raft_fsm.go:122-144 | As specified: no campaign while a committed configuration change is unapplied. |
| `RaftFsmClass.RaftFsm.HandleAppendEntries` | master-server/raft/raft_fsm_follower.go:124-156 | Log, commit index and the one answer as specified. |
| `RaftFsmClass.RaftFsm.HandleVote` | master-server/raft/raft_fsm_follower.go:56-86 | A vote is granted exactly under the specified rule. |
| `RaftFsmClass.RaftFsm.StepFollower` | master-server/raft/raft_fsm_follower.go:21-99 | State and messages as specified for every message. |
| `RaftFsmClass.RaftFsm.StepCandidate` | master-server/raft/raft_fsm_candidate.go:26-83 | State and messages as specified for every message. |
| `RaftFsmClass.RaftFsm.StepElectionAck` | master-server/raft/raft_fsm_leader.go:210-258 | State and messages as specified for every message. |
| `RaftFsmClass.RaftFsm.StepLeader` | master-server/raft/raft_fsm_leader.go:46-184 | State and messages as specified for every message but snapshot answers. |
| `RaftFsmClass.RaftFsm.TakeProposals` | master-server/raft/raft_fsm_leader.go:49-66 | Proposals are appended with all but the first pending configuration change blanked, and broadcast. |
| `RaftFsmClass.RaftFsm.TakeReject` | master-server/raft/raft_fsm_leader.go:94-103 | A taken rejection goes back to probing and resends. |
| `RaftFsmClass.RaftFsm.TakeAck` | master-server/raft/raft_fsm_leader.go:105-125 | An acknowledgement raises the progress, may commit, and then broadcasts or resends. |
| `RaftFsmClass.RaftFsm.TakeHeartbeat` | master-server/raft/raft_fsm_leader.go:129-142 | A heartbeat answer frees a full window by one, resends if something is missing and clears the pending mark. |
| `RaftFsmClass.RaftFsm.Step` | master-server/raft/raft_fsm.go:121-180 | State and messages as specified for any term: local, higher with and without lease, lower, equal. |
| `RaftFsmClass.RaftFsm.Receive` | master-server/raft/raft.go:262-280 | Messages pass the filter in front of `Step` exactly as specified. |
| `RaftFsmClass.RaftFsm.Propose` | master-server/raft/raft.go:230-260 | A batch of proposals is numbered from the end of the log and handed to `Step`; refused unless this node leads. |
| `RaftFsmClass.RaftFsm.ResumeAll` | master-server/raft/raft_fsm_leader.go:276-287 | The heartbeat tick unpauses all other replicas but those that get a snapshot. |
| `RaftFsmClass.RaftFsm.ApplyConfChange` | master-server/raft/raft_fsm.go:221-235 | Membership, progress, commit index and messages as specified for each kind of change. |
| `RaftFsmClass.RaftFsm.AddPeer` | master-server/raft/raft_fsm.go:237-249 | As specified: a new member starts at the end of the log. |
| `RaftFsmClass.RaftFsm.RemovePeer` | master-server/raft/raft_fsm.go:251-264 | As specified: steps down if removed itself, else may commit and broadcast. |
| `RaftFsmClass.RaftFsm.UpdatePeer` | master-server/raft/raft_fsm.go:266-273 | As specified: only the peer's description changes. |
| `RaftFsmClass.RaftFsm.Apply` | master-server/raft/raft.go:526-563 | State and messages of applying the committed entries, and the non-empty ones handed over in order. |
| `RaftFsmClass.RaftFsm.ReadyTurn` | master-server/raft/raft.go:285-297 | Persist, apply and advance together give the specified state; storage then holds the whole log. |
| `RaftFsmClass.RaftFsm.RecoverCommit` | master-server/raft/raft_fsm.go:193-219 | Ends, after applying in limited chunks, in the state of one turn over everything committed, with the same entries handed over. |
| `RaftFsmClass.RaftFsm.Load` | master-server/raft/raft_fsm.go:42-118 | After a restart the state is the specified one and the entries handed over are those committed and not yet applied; refused exactly when the stored commit index is beyond the log. |
| `BlockingQueue.Exclusive` | util/queue.go:121-153 | For any number of threads, at most one is about to touch the items: the lock holder, or the waiter the blocked lock holder waits for. |
| `BlockingQueue.NoLostWakeUp` | util/queue.go:214-265 | Whenever the lock is free, no waiter is queued or there are no items. |
| `BlockingQueue.Conserved` | util/queue.go:121-153 | What was put equals what was delivered, then what was disposed of, then what is left, in order, including the timeout race. |
| `BlockingQueue.PutNeverStuck` | util/queue.go:133-147 | A Put that waits for a poller can go on, or that poller can take its next step. |
| `BlockingQueue.LockNeverStuck` | util/queue.go:121-334 | Whoever holds the lock can take its next step, or is a Put whose poller can. |
| `BlockingQueue.DisposeReleases` | util/queue.go:313-334 | Once Dispose has given up the lock every poller still waiting can go on, whatever timeouts fell between its wake-ups. |
| `BlockingQueue.ServedExactly` | util/queue.go:72-87 | A poll that is served, at once or when woken, gets exactly the first items, as many as it asked for or there are, and at least one. |
| `BlockingQueue.OtherwiseKept` | util/queue.go:121-334 | Nothing else moves items: a Put adds exactly its arguments at the end, Dispose takes exactly what is left. |
| `BlockingQueue.CallsKeepArguments` | util/queue.go:214-230 | A call goes in with its argument and keeps it, and ends at once on a disposed queue. |
| `BlockingQueue.ServedWithin` | util/queue.go:214-265 | Every poll served so far got between one item and as many as it asked for. |
| `BlockingQueue.NeverNegative` | util/queue.go:234-258 | The timeout race never makes a wait group negative. |
| `BlockingQueue.StepKeeps` | util/queue.go:121-334 | Every step of every thread keeps the handoff invariant. |
| `BlockingQueue.GetItems` | util/queue.go:72-87 | Moves the first min(number, length) items into the buffer, leaves the rest of the items and of the buffer, and returns that number. |
| `BlockingQueue.RemoveWaiter` | util/queue.go:55-68 | The waiters without one of them, in their order. |
| `KeySpace.PrefixExact` | util/util.go:70-82 | The keys from a prefix up to its successor, in byte order, are exactly the keys with that prefix; for all prefixes, 0xff ones included. |
| `KeySpace.BytesPrefix` | util/util.go:70-82 | The backward loop computes that successor. |
| `KeySpace.StorePrefixRound` | util/encoding.go:32-48 | Every key under an encoded prefix decodes to the prefix byte and table id; buffers under 9 bytes are refused. |
| `KeySpace.PrefixDigits` | util/encoding.go:32-38 | Byte 0 of a prefix is the prefix byte and byte 1+k is the id's digit (id / 256^(7-k)) % 256. |
| `KeySpace.PrefixOrder` | util/encoding.go:32-38 | Prefixes are ordered as the table ids are. |
| `KeySpace.TablesDisjoint` | master-server/server/cluster.go:399-401 | The key spaces of different tables have no key in common. |
| `KeySpace.SortKeys` | master-server/server/cluster.go:328-332 | The split keys in ascending byte order, as a permutation. |
| `KeySpace.PreSplit` | master-server/server/cluster.go:399-447 | The ranges queued for any split keys tile the table: each key with its prefix lies in exactly one, any other key in none. |
| `KeySpace.PreSplitTiles` | master-server/server/cluster.go:425-447 | The same for any ascending cut points under the prefix, repeated and empty ones included. |
| `IdGenerator.IdsUnique` | master-server/server/idgenerator.go:46-64 | Over any moves of any number of generators on one store, failed writes (applied or not) included, no id is taken twice and each generator's ids rise, as long as nothing is written between a generator's read and its write of the counter and the counter does not run over 64 bits. |
| `IdBlocks.IdsUniqueExactly` | master-server/server/idgenerator.go:81-103 | For any moves and failures: the blocks that generators have received are disjoint if and only if no id is taken twice, now or by going on taking ids. |
| `IdBlocks.FittingBlocks` | master-server/server/idgenerator.go:81-103 | Writes between whose read and itself nothing is written, and that do not run over, reserve disjoint blocks. |
| `IdBlocks.RunPlaced` | master-server/server/idgenerator.go:46-64 | In every run the ids taken are, each once, the places used so far of the received blocks. |
| `IdGenerator.IdsRepeat` | master-server/server/idgenerator.go:81-103 | Without the second condition an id is taken twice, for every step: enough lost replies bring the counter back to 0. |
| `IdGenerator.IdsRepeatWhenOvertaken` | master-server/server/idgenerator.go:81-103 | Without the first condition an id is taken twice, for every step and without a failure: two generators read before either writes. |
| `IdGenerator.RefillsCover` | master-server/server/idgenerator.go:105-125 | The number of refills on the way is the least number of blocks that, with the ids left, covers the size. |
| `IdGenerator.Generator.Generate` | master-server/server/idgenerator.go:81-103 | A read and a write of the system: the reserved block and the counter after each kind of failure. |
| `IdGenerator.Generator.GenID` | master-server/server/idgenerator.go:46-64 | With ids left it succeeds with the next one and leaves the store alone; with none left it makes one write, and succeeds if and only if that is known to have been written, with the id after the counter read. The calls are moves of the system. |
| `IdGenerator.Generator.GetBatchIds` | master-server/server/idgenerator.go:105-125 | Succeeds if and only if every refill on the way is known to have been written, then with as many ids as asked for, which are exactly those taken; else with none. The calls are moves of the system. |
| `Placement.SelectBestNode` | master-server/server/cluster.go:1323-1355 | The choice is the first candidate without any ranges or, if there is none, one with the highest sum of places in some two descending orders, and no candidate beats it strictly in both counts. |
| `Placement.ChosenUndominated` | master-server/server/cluster.go:1323-1355 | Any such choice is beaten in both counts by none. |
| `Placement.BestUndominated` | master-server/server/cluster.go:1339-1353 | A node with the highest sum of places in two descending orders is beaten in both counts by none. |
| `Placement.SortDistributions` | master-server/server/node.go:647-659 | Some descending order of the same distributions. |

## Left out

- Snapshots: `sendAppend` below the first index, snapshot answers, streaming and restore. In the model the first index is 1, and reaching that branch is a fault that is proved not to occur.
- Changing the set of members in the safety theorems. Adding and removing members is modelled in `FsmSpec`, `RaftFsm` and `ApplyOnce`.
- Preset leaders, and truncation of the log by a caller-supplied index.
- Wall-clock timing: tick counters, randomised timeouts, `checkLeaderLease` and the `active` flags it clears. Ticks may fire at any time.
- Futures, status and monitoring, peer state for other goroutines, message pooling, and the 64-proposal bound of a batch. A reused message may keep its force mark; a campaign started by a lease timeout is modelled without force.
- Errors of the state machine's `Apply` during recovery, which stop the start.
- Transport, heartbeat senders and storage engines.
- `PutOrUpdate`, `ExecuteInParallel`, `Peek` and the size queries of the queue.
- Column encodings of split keys (any byte strings here), the duplicate check on the input string, range caches and task chains.
- Console, HTTP and gRPC handlers, metrics, configuration and tools.
- RaftFsmClass.RaftFsm.Step: proposals must be numbered without a gap, as the event loop numbers them.
- RaftFsmClass.RaftFsm.Receive: proposals must be numbered without a gap.
- RaftFsmClass.RaftFsm.StepLeader: snapshot answers are left out, and proposals must be numbered without a gap.
- RaftFsmClass.RaftFsm.TakeProposals: proposals must be numbered without a gap.
- RaftFsmClass.RaftFsm.AppendEntry: entries must be numbered without a gap.
- RaftFsmClass.RaftFsm.SendAppend: the snapshot branch is a fault here.
- RaftFsmClass.RaftFsm.BcastAppend: the order in which messages are queued is not stated, only which; the code loops over a map.
- RaftFsmClass.RaftFsm.RecoverCommit: an error of the state machine, which stops the start, is left out.
- RaftFsmClass.RaftFsm.Load: a preset leader and errors of the state machine are left out.
- RaftLogClass.RaftLog.MaybeAppend: entries must be numbered consecutively; `RaftFsm` marks a request whose entries are not as a fault.
- RaftLogClass.RaftLog.StableTo: is called after the entries have been stored, as the ready turn does.
- SimApply.RestartSim: the application's position is at most the durable commit index; `GivenExactly.GivenExact` shows that no state machine has been given more. The code also accepts a higher one and raises the commit index to it.
- ProgressSpec.DecrKeeps: while probing, a repeated old rejection may bring `next` down to match or below, so `next > match` is claimed only while replicating.
