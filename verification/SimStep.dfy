/** Every event of a node is simulated by steps of the core protocol. */
module SimStep {
  import opened RaftTypes
  import opened LogSpec
  import opened ProgressSpec
  import opened FsmSpec
  import opened Cluster
  import opened ClusterSim
  import opened SimLeader
  import opened SimSend
  import opened SimReplies
  import opened SimElection
  import opened SimFollower
  import C = CoreRaft
  import opened CoreInvariant
  import opened CoreSafety

  lemma LeaderStepSim(cfg: Config, s: C.State, v: Id, r: Fsm, m: Message) returns (s': C.State)
    requires Good(s) && NodeSim(cfg, s, v, r) && r.state == StateLeader && Timely(s, v, r, m) && cfg.maxInflight > 0
    ensures SimTo(cfg, s, v, StepLeader(cfg, r, m), s')
  {
    hide Good, Grows, LeaderReject, LeaderAck, LeaderHeartbeat, LeaderProp, BecomeFollower, ProgressInv;
    NodeFacts(s, v);
    if m.body.ReqVote? {
      SimSay(cfg, s, v, r, {Msg(r, m.from, RespVote(true))});
      return s;
    } else if m.from !in r.replicas {
      SimStay(cfg, s, v, r);
      return s;
    }
    match m.body
    case RespAppend(reject, index, commit, rejectIndex) =>
      s' := AnswerSim(cfg, s, v, r, m);
    case RespHeartBeat =>
      s' := HeartbeatSim(cfg, s, v, r, m.from);
    case LeaseOffline =>
      s' := OfflineSim(cfg, s, v, r);
    case _ =>
      s' := s;
      SimStay(cfg, s, v, r);
  }

  lemma AnswerSim(cfg: Config, s: C.State, v: Id, r: Fsm, m: Message) returns (s': C.State)
    requires Good(s) && NodeSim(cfg, s, v, r) && r.state == StateLeader && Timely(s, v, r, m) && m.body.RespAppend?
    requires m.from in r.replicas
    ensures SimTo(cfg, s, v, StepLeader(cfg, r, m), s')
  {
    hide Good, Grows, LeaderReject, LeaderAck, SimTo;
    var r1 := WithProgress(r, m.from, r.replicas[m.from].(active := true));
    var b := m.body;
    assert ProgressOk(cfg, s, r, m.from, r.replicas[m.from]);
    ProgressSim(cfg, s, v, r, m.from, r.replicas[m.from].(active := true));
    if b.reject {
      s' := RejectSim(cfg, s, v, r1, m.from, b.index, b.rejectIndex, b.commit);
    } else {
      s' := AckSim(cfg, s, v, r1, m.from, b.index, b.commit);
    }
  }

  /** Told that the lease is in doubt, the leader asks for a new election and steps down. */
  lemma OfflineSim(cfg: Config, s: C.State, v: Id, r: Fsm) returns (s': C.State)
    requires Good(s) && NodeSim(cfg, s, v, r) && r.state == StateLeader
    ensures SimTo(cfg, s, v, Res(BecomeFollower(cfg, r, r.term, NO_LEADER), ToOthers(r, LeaseTimeout)), s')
  {
    hide Good, Grows, ProgressInv, BecomeFollower;
    NodeFacts(s, v);
    var f := BecomeFollower(cfg, r, r.term, NO_LEADER);
    s' := FollowSim(cfg, s, v, r, r.term, NO_LEADER);
    FollowerShape(cfg, r, r.term, NO_LEADER);
    NodeFacts(s', v);
    SimSay(cfg, s', v, f, ToOthers(r, LeaseTimeout));
    Join(cfg, s, s', s', v, Res(f, {}), Res(f, ToOthers(r, LeaseTimeout)));
  }

  lemma DispatchSim(cfg: Config, s: C.State, v: Id, r: Fsm, m: Message) returns (s': C.State)
    requires Good(s) && NodeSim(cfg, s, v, r) && Timely(s, v, r, m) && cfg.maxInflight > 0
    requires m.IsResponse() ==> m.from in r.replicas
    ensures SimTo(cfg, s, v, Dispatch(cfg, r, m), s')
  {
    hide Good, NodeSim, Timely, StepFollower, StepCandidate, StepElectionAck, StepLeader, SimTo;
    match r.state
    case StateFollower => s' := FollowerSim(cfg, s, v, r, m);
    case StateCandidate => s' := CandidateStepSim(cfg, s, v, r, m);
    case StateElectionAck => s' := AckStepSim(cfg, s, v, r, m);
    case StateLeader => s' := LeaderStepSim(cfg, s, v, r, m);
  }

  lemma StepSim(cfg: Config, s: C.State, v: Id, r: Fsm, m: Message) returns (s': C.State)
    requires Good(s) && NodeSim(cfg, s, v, r) && cfg.maxInflight > 0 && m.to == v && MsgOk(s, m)
    requires m.IsResponse() ==> m.from in r.replicas
    ensures SimTo(cfg, s, v, Step(cfg, r, m), s')
  {
    hide Good, Grows, Dispatch, BecomeFollower, ProgressInv, VotesOk, Elected;
    NodeFacts(s, v);
    if m.term > r.term {
      if InLease(cfg, r, m) {
        s' := s;
        SimSay(cfg, s, v, r, {Msg(r, r.leader, LeaseOffline)});
      } else {
        var lead := if m.body.ReqVote? then NO_LEADER else m.from;
        var f := BecomeFollower(cfg, r, m.term, lead);
        FollowerShape(cfg, r, m.term, lead);
        var s1 := FollowSim(cfg, s, v, r, m.term, lead);
        MsgGrows(s, s1, m);
        s' := DispatchSim(cfg, s1, v, f, m);
        Join(cfg, s, s1, s', v, Res(f, {}), Dispatch(cfg, f, m));
      }
    } else if m.term < r.term {
      s' := s;
      SimStay(cfg, s, v, r);
    } else {
      s' := DispatchSim(cfg, s, v, r, m);
    }
  }

  lemma ReceiveSim(cfg: Config, s: C.State, v: Id, r: Fsm, m: Message) returns (s': C.State)
    requires Good(s) && NodeSim(cfg, s, v, r) && cfg.maxInflight > 0 && m.to == v && (MsgOk(s, m) || IsHeartbeat(m))
    ensures SimTo(cfg, s, v, Receive(cfg, r, m), s')
  {
    hide Good, NodeSim, SimTo, Step, MsgOk, UpToDateWith, Dispatch;
    NodeId(cfg, s, v, r);
    if !Passes(r, m) {
      s' := s;
      SimStay(cfg, s, v, r);
    } else if IsHeartbeat(m) {
      StepOfHeartbeat(cfg, r, m);
      s' := DispatchSim(cfg, s, v, r, m);
    } else {
      s' := StepSim(cfg, s, v, r, m);
    }
  }

  lemma StepOfHeartbeat(cfg: Config, r: Fsm, m: Message)
    requires IsHeartbeat(m)
    ensures Step(cfg, r, m) == Dispatch(cfg, r, m)
  {}

  lemma ProposeSim(cfg: Config, s: C.State, v: Id, r: Fsm, payloads: seq<Payload>) returns (s': C.State)
    requires Good(s) && NodeSim(cfg, s, v, r)
    requires forall i :: 0 <= i < |payloads| ==> KeepsMembers(s.servers, payloads[i])
    ensures SimTo(cfg, s, v, Propose(cfg, r, payloads), s')
  {
    hide Good, SimTo, LeaderProp, Grows, ProgressInv;
    if r.leader == r.id {
      s' := PropSim(cfg, s, v, r, payloads);
    } else {
      s' := s;
      SimStay(cfg, s, v, r);
    }
  }

  lemma ResumeSim(cfg: Config, s: C.State, v: Id, r: Fsm)
    requires Good(s) && NodeSim(cfg, s, v, r)
    ensures SimTo(cfg, s, v, Res(Resume(r), {}), s)
  {
    hide Good, Grows;
    var r' := Resume(r);
    if r.state == StateLeader {
      forall k | k in r'.replicas ensures ProgressOk(cfg, s, r', k, r'.replicas[k]) {
        assert ProgressOk(cfg, s, r, k, r.replicas[k]);
      }
    }
    SimStay(cfg, s, v, r');
  }

  lemma LeaseSim(cfg: Config, s: C.State, v: Id, r: Fsm) returns (s': C.State)
    requires Good(s) && NodeSim(cfg, s, v, r)
    ensures SimTo(cfg, s, v, Res(LeaseExpire(cfg, r), {}), s')
  {
    hide Good, Grows, BecomeFollower;
    NodeFacts(s, v);
    if cfg.leaseCheck && r.state == StateLeader {
      s' := FollowSim(cfg, s, v, r, r.term, NO_LEADER);
    } else {
      s' := s;
      SimStay(cfg, s, v, r);
    }
  }
}
