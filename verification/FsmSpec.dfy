/**
 The Raft state machine as functions: from a node's state and one input to its next state and the
 messages it queues. Where the code panics, the next state has `fault` set.
 */
module FsmSpec {
  import opened RaftTypes
  import opened LogSpec
  import opened ProgressSpec
  import opened QuorumIndex
  import CoreRaft

  datatype FsmState = StateFollower | StateCandidate | StateLeader | StateElectionAck

  datatype Config = Config(leaseCheck: bool, maxInflight: nat, maxSizePerMsg: nat)

  datatype Fsm = Fsm(
    id: Id, term: nat, vote: Id, leader: Id, state: FsmState, pendingConf: bool,
    log: seq<Entry>, committed: nat, applied: nat,
    votes: map<Id, bool>, acks: set<Id>, replicas: map<Id, Progress>, fault: bool)

  /** A node's next state and what it sends. */
  datatype Res = Res(r: Fsm, out: set<Message>)

  const MAX_PRIORITY: nat := 65535

  function Quorum(r: Fsm): nat { QuorumSize(|r.replicas|) }

  function Matches(replicas: map<Id, Progress>): map<Id, nat> {
    map k | k in replicas :: replicas[k].matched
  }

  function Msg(r: Fsm, to: Id, body: Body): Message { Message(r.id, to, r.term, body) }

  // ---- becoming something else ----

  function Reset(cfg: Config, r: Fsm, term: nat, lasti: nat, isLeader: bool): Fsm {
    r.(term := term,
       vote := if r.term != term then NO_LEADER else r.vote,
       leader := NO_LEADER, votes := map[], pendingConf := false,
       replicas := map k | k in r.replicas ::
         if isLeader then
           var p := NewProgress(r.replicas[k].peer, cfg.maxInflight).(next := lasti + 1);
           if k == r.id then p.(matched := lasti, committed := r.committed) else p
         else NewProgress(r.replicas[k].peer, 0))
  }

  function BecomeFollower(cfg: Config, r: Fsm, term: nat, lead: Id): Fsm {
    Reset(cfg, r, term, 0, false).(leader := lead, state := StateFollower)
  }

  function BecomeCandidate(cfg: Config, r: Fsm): Fsm {
    if r.state == StateLeader then r.(fault := true)
    else Reset(cfg, r, r.term + 1, 0, false).(vote := r.id, state := StateCandidate)
  }

  ghost function BecomeLeader(cfg: Config, r: Fsm): Fsm {
    if r.state == StateFollower || r.committed > |r.log| then r.(fault := true)
    else
      var nconf := CoreRaft.ConfsAbove(r.log[r.committed..], 0);
      var r1 := Reset(cfg, r, r.term, |r.log|, true).(leader := r.id, state := StateLeader, acks := {});
      if nconf > 1 then r1.(fault := true)
      else AppendEntry(cfg, r1.(pendingConf := nconf == 1), [Entry(r.term, |r.log| + 1, Normal([]))])
  }

  // ---- the leader's log ----

  ghost function AppendEntry(cfg: Config, r: Fsm, ents: seq<Entry>): Fsm {
    if r.id !in r.replicas || (ents != [] && !(r.committed < ents[0].index <= |r.log| + 1)) then r.(fault := true)
    else
      var r1 := r.(log := AppendEnts(0, r.log, ents));
      var r2 := r1.(replicas := r1.replicas[r.id := r1.replicas[r.id].MaybeUpdate(|r1.log|, r1.committed)]);
      MaybeCommit(r2)
  }

  /** The index to commit, if a majority has it and it is of the leader's own term. */
  ghost predicate Commits(r: Fsm) {
    r.replicas != map[] && var mci := Agreed(Matches(r.replicas)); mci > r.committed && TermAt(r.log, mci) == r.term
  }

  ghost function MaybeCommit(r: Fsm): Fsm {
    if r.replicas == map[] then r.(fault := true)
    else
      var mci := Agreed(Matches(r.replicas));
      var r1 := if !Commits(r) then r else if mci > |r.log| then r.(fault := true) else r.(committed := mci);
      if r1.state == StateLeader && r1.id in r1.replicas
      then r1.(replicas := r1.replicas[r1.id := r1.replicas[r1.id].(committed := r1.committed)])
      else r1
  }

  /** The entries an append request carries: from `next` on, as many as the message size allows. */
  function Batch(cfg: Config, log: seq<Entry>, next: nat): seq<Entry> {
    if next < 1 || next > |log| then [] else LimitSize(log[next - 1..], Bytes(cfg.maxSizePerMsg))
  }

  function AppendBody(cfg: Config, r: Fsm, pr: Progress): Body {
    var prev := if pr.next < 1 then 0 else pr.next - 1;
    ReqAppend(prev, TermAt(r.log, prev), r.committed, Batch(cfg, r.log, pr.next))
  }

  /** A replica's progress after an append request has been queued for it. */
  function Sent(pr: Progress, ents: seq<Entry>): Progress {
    var p := if ents == [] then pr
             else match pr.state
               case Replicate => var last := ents[|ents| - 1].index; pr.(next := last + 1, window := pr.window + [last])
               case _ => pr.(paused := true);
    p.(pending := true)
  }

  /** What `sendAppend` leaves of a replica, unless it is paused. Below the first index a snapshot would be due. */
  function SendProgress(cfg: Config, r: Fsm, pr: Progress): Progress {
    if pr.IsPaused() || pr.next < 1 then pr else Sent(pr, Batch(cfg, r.log, pr.next))
  }

  function SendOut(cfg: Config, r: Fsm, to: Id, pr: Progress): set<Message> {
    if pr.IsPaused() || pr.next < 1 then {} else {Msg(r, to, AppendBody(cfg, r, pr))}
  }

  predicate SendFaults(pr: Progress) { !pr.IsPaused() && pr.next < 1 }

  function SendAppend(cfg: Config, r: Fsm, to: Id): Res {
    if to !in r.replicas then Res(r.(fault := true), {})
    else
      var pr := r.replicas[to];
      Res(r.(replicas := r.replicas[to := SendProgress(cfg, r, pr)], fault := r.fault || SendFaults(pr)),
          SendOut(cfg, r, to, pr))
  }

  ghost function BcastAppend(cfg: Config, r: Fsm): Res {
    Res(r.(replicas := map k | k in r.replicas ::
             if k == r.id then r.replicas[k] else SendProgress(cfg, r, r.replicas[k]),
           fault := r.fault || exists k :: k in r.replicas && k != r.id && SendFaults(r.replicas[k])),
        set k | k in r.replicas && k != r.id && !r.replicas[k].IsPaused() && r.replicas[k].next >= 1
          :: Msg(r, k, AppendBody(cfg, r, r.replicas[k])))
  }

  // ---- elections ----

  function Granted(votes: map<Id, bool>): set<Id> { set v | v in votes && votes[v] }

  function Poll(r: Fsm, from: Id, v: bool): Fsm {
    if from in r.votes then r else r.(votes := r.votes[from := v])
  }

  /** One message to every other replica. */
  function ToOthers(r: Fsm, body: Body): set<Message> {
    set k | k in r.replicas && k != r.id :: Msg(r, k, body)
  }

  ghost function BecomeElectionAck(cfg: Config, r: Fsm): Res {
    var r1 := r.(acks := {r.id});
    if 1 >= Quorum(r) then Res(BecomeLeader(cfg, r1), {})
    else
      var r2 := Reset(cfg, r1, r1.term, 0, false).(state := StateElectionAck);
      Res(r2, ToOthers(r2, ReqElectAck))
  }

  ghost function Campaign(cfg: Config, r: Fsm, force: bool): Res {
    var r1 := Poll(BecomeCandidate(cfg, r), r.id, true);
    if Quorum(r1) == |Granted(r1.votes)| then
      if cfg.leaseCheck then BecomeElectionAck(cfg, r1) else Res(BecomeLeader(cfg, r1), {})
    else Res(r1, ToOthers(r1, ReqVote(force, |r1.log|, TermAt(r1.log, |r1.log|))))
  }

  /** The Hup message: a campaign, unless a committed configuration change is still to be applied. */
  ghost function Hup(cfg: Config, r: Fsm, force: bool): Res {
    if r.state == StateLeader || r.id !in r.replicas then Res(r, {})
    else if r.applied > r.committed || r.committed > |r.log| then Res(r.(fault := true), {})
    else if CoreRaft.ConfsAbove(r.log[r.applied..r.committed], 0) != 0 then Res(r, {})
    else Campaign(cfg, r, force)
  }

  // ---- one message ----

  function HandleAppend(cfg: Config, r: Fsm, from: Id, index: nat, logTerm: nat, commit: nat, ents: seq<Entry>): Res {
    if index < r.committed then Res(r, {Msg(r, from, RespAppend(false, r.committed, r.committed, 0))})
    else if !Consecutive(ents, index) then Res(r.(fault := true), {})
    else
      var a := MaybeAppend(0, 0, r.log, r.committed, index, logTerm, commit, ents);
      var r1 := r.(log := a.log, committed := a.committed, fault := r.fault || a.panic);
      if a.ok then Res(r1, {Msg(r1, from, RespAppend(false, a.last, r1.committed, 0))})
      else Res(r1, {Msg(r1, from, RespAppend(true, index, r1.committed, |r1.log|))})
  }

  function Priority(r: Fsm, k: Id, default: nat): nat {
    if k in r.replicas then r.replicas[k].peer.priority else default
  }

  predicate Grants(cfg: Config, r: Fsm, from: Id, index: nat, logTerm: nat) {
    && (!cfg.leaseCheck || r.leader == NO_LEADER)
    && (r.vote == NO_LEADER || r.vote == from)
    && UpToDateWith(r.log, index, logTerm, Priority(r, from, MAX_PRIORITY), Priority(r, r.id, 0))
  }

  function FollowerVote(cfg: Config, r: Fsm, from: Id, index: nat, logTerm: nat): Res {
    if Grants(cfg, r, from, index, logTerm)
    then Res(r.(vote := from), {Msg(r, from, RespVote(false))})
    else Res(r, {Msg(r, from, RespVote(true))})
  }

  ghost function StepFollower(cfg: Config, r: Fsm, m: Message): Res {
    match m.body
    case Prop(ents) =>
      if r.leader == NO_LEADER then Res(r, {}) else Res(r, {Message(r.id, r.leader, m.term, m.body)})
    case ReqAppend(index, logTerm, commit, ents) =>
      HandleAppend(cfg, r.(leader := m.from), m.from, index, logTerm, commit, ents)
    case ReqHeartBeat => Res(r.(leader := m.from), {})
    case ReqElectAck => Res(r.(leader := m.from), {Msg(r, m.from, RespElectAck)})
    case ReqVote(_, index, logTerm) => FollowerVote(cfg, r, m.from, index, logTerm)
    case LeaseTimeout => if r.leader == m.from then Hup(cfg, r, false) else Res(r, {})
    case _ => Res(r, {})
  }

  /** A candidate counts one more vote. */
  ghost function CandidateVote(cfg: Config, r: Fsm, from: Id, granted: bool): Res {
    var r1 := Poll(r, from, granted);
    var gr := |Granted(r1.votes)|;
    if Quorum(r1) == gr then
      if cfg.leaseCheck then BecomeElectionAck(cfg, r1) else BcastAppend(cfg, BecomeLeader(cfg, r1))
    else if Quorum(r1) == |r1.votes| - gr then Res(BecomeFollower(cfg, r1, r1.term, NO_LEADER), {})
    else Res(r1, {})
  }

  ghost function StepCandidate(cfg: Config, r: Fsm, m: Message): Res {
    match m.body
    case ReqAppend(index, logTerm, commit, ents) =>
      HandleAppend(cfg, BecomeFollower(cfg, r, r.term, m.from), m.from, index, logTerm, commit, ents)
    case ReqHeartBeat => Res(BecomeFollower(cfg, r, r.term, m.from), {})
    case ReqElectAck => Res(BecomeFollower(cfg, r, r.term, m.from), {Msg(r, m.from, RespElectAck)})
    case ReqVote(_, _, _) => Res(r, {Msg(r, m.from, RespVote(true))})
    case RespVote(reject) => CandidateVote(cfg, r, m.from, !reject)
    case _ => Res(r, {})
  }

  ghost function ElectionAcked(cfg: Config, r: Fsm, from: Id): Res {
    if from !in r.replicas then Res(r.(fault := true), {})
    else
      var r1 := r.(replicas := r.replicas[from := r.replicas[from].(active := true)], acks := r.acks + {from});
      if |r1.acks| >= Quorum(r1) then BcastAppend(cfg, BecomeLeader(cfg, r1)) else Res(r1, {})
  }

  ghost function StepElectionAck(cfg: Config, r: Fsm, m: Message): Res {
    match m.body
    case ReqAppend(index, logTerm, commit, ents) =>
      HandleAppend(cfg, BecomeFollower(cfg, r, r.term, m.from), m.from, index, logTerm, commit, ents)
    case ReqHeartBeat => Res(BecomeFollower(cfg, r, r.term, m.from), {})
    case ReqElectAck => Res(BecomeFollower(cfg, r, r.term, m.from), {Msg(r, m.from, RespElectAck)})
    case ReqVote(_, _, _) => Res(r, {Msg(r, m.from, RespVote(true))})
    case RespElectAck => ElectionAcked(cfg, r, m.from)
    case _ => Res(r, {})
  }

  /** Proposed configuration changes but the first are blanked while one is pending. */
  function Screen(ents: seq<Entry>, pending: bool): seq<Entry> {
    if ents == [] then []
    else if ents[0].payload.Conf? then
      [if pending then Entry(ents[0].term, ents[0].index, Normal([])) else ents[0]] + Screen(ents[1..], true)
    else [ents[0]] + Screen(ents[1..], pending)
  }

  predicate AnyConf(ents: seq<Entry>) { exists i :: 0 <= i < |ents| && ents[i].payload.Conf? }

  ghost function LeaderProp(cfg: Config, r: Fsm, ents: seq<Entry>): Res {
    if r.id !in r.replicas || ents == [] then Res(r, {})
    else
      var r1 := r.(pendingConf := r.pendingConf || AnyConf(ents));
      BcastAppend(cfg, AppendEntry(cfg, r1, Screen(ents, r.pendingConf)))
  }

  function WithProgress(r: Fsm, k: Id, pr: Progress): Fsm { r.(replicas := r.replicas[k := pr]) }

  ghost function LeaderReject(cfg: Config, r: Fsm, from: Id, index: nat, last: nat, commit: nat): Res
    requires from in r.replicas
  {
    var pr := r.replicas[from];
    var pr1 := pr.MaybeDecrTo(index, last, commit);
    if !pr.TakesReject(index) then Res(WithProgress(r, from, pr1), {})
    else SendAppend(cfg, WithProgress(r, from, if pr1.state == Replicate then pr1.BecomeProbe() else pr1), from)
  }

  /** A replica's progress after an acknowledgement that raised its match index. */
  function Acknowledged(pr: Progress, index: nat, commit: nat): Progress {
    var p := pr.MaybeUpdate(index, commit);
    match p.state
    case Probe => p.BecomeReplicate()
    case Snapshot => if p.NeedSnapshotAbort() then p.BecomeProbe() else p
    case Replicate => p.FreeTo(index)
  }

  ghost function LeaderAck(cfg: Config, r: Fsm, from: Id, index: nat, commit: nat): Res
    requires from in r.replicas
  {
    var pr := r.replicas[from];
    if index <= pr.matched then Res(WithProgress(r, from, pr.MaybeUpdate(index, commit)), {})
    else
      var r1 := WithProgress(r, from, Acknowledged(pr, index, commit));
      var r2 := MaybeCommit(r1);
      if Commits(r1) then BcastAppend(cfg, r2)
      else if pr.IsPaused() then SendAppend(cfg, r2, from)
      else Res(r2, {})
  }

  ghost function LeaderHeartbeat(cfg: Config, r: Fsm, from: Id): Res
    requires from in r.replicas
  {
    var pr := r.replicas[from];
    var freed := if pr.state == Replicate && pr.Full() && pr.window != [] then pr.FreeTo(pr.window[0]) else pr;
    var r1 := WithProgress(r, from, freed).(fault := r.fault || (pr.state == Replicate && pr.Full() && pr.window == []));
    var s := if !freed.pending && (freed.matched < |r.log| || freed.committed < r.committed)
             then SendAppend(cfg, r1, from) else Res(r1, {});
    var p := s.r.replicas[from].(active := true);
    Res(WithProgress(s.r, from, if p.state != Snapshot then p.(pending := false) else p), s.out)
  }

  ghost function StepLeader(cfg: Config, r: Fsm, m: Message): Res {
    if m.body.Prop? then LeaderProp(cfg, r, m.body.ents)
    else if m.body.ReqVote? then Res(r, {Msg(r, m.from, RespVote(true))})
    else if m.from !in r.replicas then Res(r, {})
    else match m.body
      case RespAppend(reject, index, commit, rejectIndex) =>
        var r1 := WithProgress(r, m.from, r.replicas[m.from].(active := true));
        if reject then LeaderReject(cfg, r1, m.from, index, rejectIndex, commit) else LeaderAck(cfg, r1, m.from, index, commit)
      case RespHeartBeat => LeaderHeartbeat(cfg, r, m.from)
      case LeaseOffline => Res(BecomeFollower(cfg, r, r.term, NO_LEADER), ToOthers(r, LeaseTimeout))
      case _ => Res(r, {})
  }

  ghost function Dispatch(cfg: Config, r: Fsm, m: Message): Res {
    match r.state
    case StateFollower => StepFollower(cfg, r, m)
    case StateCandidate => StepCandidate(cfg, r, m)
    case StateElectionAck => StepElectionAck(cfg, r, m)
    case StateLeader => StepLeader(cfg, r, m)
  }

  /** A vote request at a higher term is turned away while this follower's leader holds its lease. */
  predicate InLease(cfg: Config, r: Fsm, m: Message) {
    && m.body.ReqVote? && cfg.leaseCheck && r.state == StateFollower && r.leader != NO_LEADER
    && r.leader != m.from && !m.body.force
  }

  ghost function Step(cfg: Config, r: Fsm, m: Message): Res {
    if m.term == 0 then Dispatch(cfg, r, m)
    else if m.term > r.term then
      if InLease(cfg, r, m) then Res(r, {Msg(r, r.leader, LeaseOffline)})
      else Dispatch(cfg, BecomeFollower(cfg, r, m.term, if m.body.ReqVote? then NO_LEADER else m.from), m)
    else if m.term < r.term then Res(r, {})
    else Dispatch(cfg, r, m)
  }

  /** The receive filter in front of `Step`. */
  predicate Passes(r: Fsm, m: Message) {
    && (m.from in r.replicas || (!m.IsResponse() && !m.body.ReqVote?)
        || (m.body.ReqVote? && UpToDateWith(r.log, m.body.index, m.body.logTerm, 0, 0)))
    && (m.body.ReqHeartBeat? ==> r.leader == m.from && m.from != r.id)
    && (m.body.RespHeartBeat? ==> r.leader == r.id && m.from != r.id)
  }

  ghost function Receive(cfg: Config, r: Fsm, m: Message): Res {
    if Passes(r, m) then Step(cfg, r, m) else Res(r, {})
  }

  /** A batch of proposals: turned away unless this node leads. */
  function Proposal(r: Fsm, payloads: seq<Payload>): seq<Entry> {
    seq(|payloads|, i requires 0 <= i < |payloads| => Entry(r.term, |r.log| + 1 + i, payloads[i]))
  }

  ghost function Propose(cfg: Config, r: Fsm, payloads: seq<Payload>): Res {
    if r.leader != r.id then Res(r, {})
    else Step(cfg, r, Message(r.id, NO_LEADER, 0, Prop(Proposal(r, payloads))))
  }

  /** The heartbeat tick lets paused replicas go on. */
  function Resume(r: Fsm): Fsm {
    if r.state != StateLeader then r
    else r.(replicas := map k | k in r.replicas ::
      if k == r.id || r.replicas[k].state == Snapshot then r.replicas[k] else r.replicas[k].(paused := false))
  }

  /** The election-timeout tick of a leader whose lease has run out. */
  function LeaseExpire(cfg: Config, r: Fsm): Fsm {
    if cfg.leaseCheck && r.state == StateLeader then BecomeFollower(cfg, r, r.term, NO_LEADER) else r
  }

  // ---- applying ----

  ghost function ApplyConf(cfg: Config, r: Fsm, kind: ConfType, peer: Peer): Res {
    if peer.id == NO_LEADER then Res(r.(pendingConf := false), {})
    else match kind
      case AddNode =>
        Res(r.(pendingConf := false,
               replicas := if peer.id in r.replicas then r.replicas
                           else if r.state == StateLeader
                           then r.replicas[peer.id := NewProgress(peer, cfg.maxInflight).(next := |r.log| + 1)]
                           else r.replicas[peer.id := NewProgress(peer, 0)]), {})
      case RemoveNode =>
        var r1 := r.(pendingConf := false, replicas := r.replicas - {peer.id});
        if peer.id == r.id then Res(BecomeFollower(cfg, r1, r1.term, NO_LEADER), {})
        else if r.state == StateLeader && r1.replicas != map[] then
          if Commits(r1) then BcastAppend(cfg, MaybeCommit(r1)) else Res(MaybeCommit(r1), {})
        else Res(r1, {})
      case UpdateNode =>
        Res(r.(pendingConf := false,
               replicas := if peer.id in r.replicas
                           then r.replicas[peer.id := r.replicas[peer.id].(peer := peer)] else r.replicas), {})
  }

  predicate InRange(r: Fsm) { r.applied <= r.committed <= |r.log| }

  /** The committed entries still to be applied. */
  function Due(r: Fsm): seq<Entry>
    requires InRange(r)
  {
    r.log[r.applied..r.committed]
  }

  /** What a run over committed entries hands to the state machine: all but the empty ones. */
  function Handed(ents: seq<Entry>): seq<Entry> {
    if ents == [] then []
    else Handed(ents[..|ents| - 1]) + (if ents[|ents| - 1].payload == Normal([]) then [] else [ents[|ents| - 1]])
  }

  /** What is handed over when everything committed is applied. */
  function Handout(r: Fsm): seq<Entry> { if InRange(r) then Handed(Due(r)) else [] }

  /** Runs over the committed entries in order; configuration changes take effect here. */
  ghost function ApplyEnts(cfg: Config, r: Fsm, ents: seq<Entry>): Res
    decreases |ents|
  {
    if ents == [] then Res(r, {})
    else
      var first := match ents[0].payload
        case Normal(_) => Res(r, {})
        case Conf(kind, peer, _) => ApplyConf(cfg, r, kind, peer);
      var rest := ApplyEnts(cfg, first.r, ents[1..]);
      Res(rest.r, first.out + rest.out)
  }

  /** `apply` and `advance` of the ready turn. */
  ghost function Ready(cfg: Config, r: Fsm): Res {
    if r.applied > r.committed || r.committed > |r.log| then Res(r.(fault := true), {})
    else
      var a := ApplyEnts(cfg, r, r.log[r.applied..r.committed]);
      if a.r.committed < a.r.applied then Res(a.r.(fault := true), a.out)
      else Res(a.r.(applied := a.r.committed), a.out)
  }

  // ---- starting ----

  datatype HardState = HardState(term: nat, vote: Id, commit: nat)

  function Fresh(id: Id, peers: map<Id, Peer>, log: seq<Entry>): Fsm {
    Fsm(id, 0, NO_LEADER, NO_LEADER, StateFollower, false, log, 0, 0, map[], {},
        map k | k in peers :: NewProgress(peers[k], 0), false)
  }

  /** The state that storage and the application account for; `applied` is what the application says it has applied. */
  function Loaded(id: Id, peers: map<Id, Peer>, hs: HardState, log: seq<Entry>, applied: nat): Fsm {
    var r0 := Fresh(id, peers, log);
    var r1 := if hs == HardState(0, NO_LEADER, 0) then r0
              else if hs.commit > |log| then r0.(fault := true)
              else r0.(term := hs.term, vote := hs.vote, committed := hs.commit);
    if applied == 0 then r1
    else if |log| == 0 then r1.(committed := 0)
    else if |log| < applied then r1.(committed := |log|, applied := |log|)
    else r1.(committed := Max(r1.committed, applied), applied := applied)
  }

  /** `newRaftFsm`: what is committed is applied again from `applied` on. */
  ghost function Start(cfg: Config, id: Id, peers: map<Id, Peer>, hs: HardState, log: seq<Entry>, applied: nat): Fsm {
    var r2 := Loaded(id, peers, hs, log, applied);
    if r2.fault then r2
    else
      var r3 := Ready(cfg, r2).r;
      BecomeFollower(cfg, r3, r3.term, NO_LEADER)
  }
}
