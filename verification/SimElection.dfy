/** Followers and candidates: stepping down, voting, campaigning, the acknowledgement phase. */
module SimElection {
  import opened RaftTypes
  import opened LogSpec
  import opened ProgressSpec
  import opened FsmSpec
  import opened Cluster
  import opened ClusterSim
  import opened SimLeader
  import opened SimSend
  import opened SimReplies
  import C = CoreRaft
  import opened CoreInvariant
  import opened CoreSafety

  lemma FollowSim(cfg: Config, s: C.State, v: Id, r: Fsm, t: nat, lead: Id) returns (s': C.State)
    requires Good(s) && NodeSim(cfg, s, v, r) && t >= r.term && lead != v && (lead != NO_LEADER ==> t >= 1)
    ensures SimTo(cfg, s, v, Res(BecomeFollower(cfg, r, t, lead), {}), s')
    ensures t == r.term ==> s'.ll == s.ll && s'.camp == s.camp && s'.sends == s.sends
  {
    hide Good, Grows, ProgressInv, VotesOk, Elected;
    if t > r.term {
      s' := C.DoUpdateTerm(s, v, t);
      ActUpdateTerm(s, v, t);
    } else {
      s' := C.DoStepDown(s, v);
      ActStepDown(s, v);
    }
  }

  // ---- voting ----

  lemma LastTermAt(log: seq<Entry>)
    ensures TermAt(log, |log|) == C.LastTerm(log)
  {}

  /** The vote rule with its priorities is at least as strict as the core rule. */
  lemma GrantsImplyUpToDate(cfg: Config, r: Fsm, theirs: seq<Entry>, from: Id)
    requires Grants(cfg, r, from, |theirs|, C.LastTerm(theirs))
    ensures C.UpToDate(r.log, theirs)
  {
    LastTermAt(r.log);
  }

  lemma VoteSim(cfg: Config, s: C.State, v: Id, r: Fsm, m: Message) returns (s': C.State)
    requires Good(s) && NodeSim(cfg, s, v, r) && r.state == StateFollower && m.to == v
    requires MsgOk(s, m) && m.term == r.term && m.body.ReqVote? && Grants(cfg, r, m.from, m.body.index, m.body.logTerm)
    ensures SimTo(cfg, s, v, Res(r.(vote := m.from), {Msg(r, m.from, RespVote(false))}), s')
  {
    hide Good, Grows, ProgressInv, VotesOk, Elected, Grants;
    NodeFacts(s, v);
    GrantsImplyUpToDate(cfg, r, s.camp[(m.term, m.from)], m.from);
    GrantsVote(cfg, r, m.from, m.body.index, m.body.logTerm);
    s' := C.DoGrant(s, v, m.from);
    ActGrant(s, v, m.from);
  }

  lemma GrantsVote(cfg: Config, r: Fsm, from: Id, index: nat, logTerm: nat)
    requires Grants(cfg, r, from, index, logTerm)
    ensures r.vote == NO_LEADER || r.vote == from
  {}

  // ---- campaigning ----

  function Campaigner(cfg: Config, r: Fsm): Fsm {
    Poll(BecomeCandidate(cfg, r), r.id, true)
  }

  lemma CandidateSim(cfg: Config, s: C.State, v: Id, r: Fsm) returns (s': C.State)
    requires Good(s) && NodeSim(cfg, s, v, r) && r.state != StateLeader
    requires r.applied <= r.committed <= |r.log| && C.ConfsAbove(r.log[r.applied..r.committed], 0) == 0
    ensures SimTo(cfg, s, v, Res(Campaigner(cfg, r), {}), s') && Campaigner(cfg, r).state == StateCandidate
    ensures var r1 := Campaigner(cfg, r); (r1.term, v) in s'.camp && s'.camp[(r1.term, v)] == r1.log && r1.term >= 1
  {
    hide Good, Grows, ProgressInv, Elected, ConfOk, RoleOk, LogOk, FixedLog, VotesOk, Campaigner, C.DoCampaign;
    NodeFacts(s, v);
    ConfsFrom(r.log, r.applied, r.committed);
    s' := C.DoCampaign(s, v);
    ActCampaign(s, v);
    CampaignerNode(cfg, s, v, r);
  }

  lemma CampaignerNode(cfg: Config, s: C.State, v: Id, r: Fsm)
    requires v in s.nodes && SameNode(s.nodes[v], r) && r.id == v && v in s.servers && r.state != StateLeader
    ensures var s', r1 := C.DoCampaign(s, v), Campaigner(cfg, r);
      && s'.servers == s.servers && v in s'.nodes && SameNode(s'.nodes[v], r1) && VotesOk(s', r1)
      && r1.id == v && r1.fault == r.fault && r1.replicas.Keys == r.replicas.Keys && r1.leader == NO_LEADER
      && r1.state == StateCandidate && r1.term >= 1 && (r1.term, v) in s'.camp && s'.camp[(r1.term, v)] == r1.log
  {}

  /** A majority of granted votes elects. */
  lemma VotesElect(cfg: Config, s: C.State, v: Id, r: Fsm)
    requires NodeSim(cfg, s, v, r) && r.state == StateCandidate && Quorum(r) == |Granted(r.votes)|
    ensures Elected(s, r.term, v)
  {
    var q := Granted(r.votes);
    assert q <= s.servers;
    assert |r.replicas| == |s.servers|;
    assert C.VotedBy(s, r.term, v, q);
  }

  lemma ElectionAckSim(cfg: Config, s: C.State, v: Id, r: Fsm) returns (s': C.State)
    requires Good(s) && NodeSim(cfg, s, v, r) && r.state == StateCandidate && Elected(s, r.term, v)
    ensures SimTo(cfg, s, v, BecomeElectionAck(cfg, r), s')
  {
    hide Good, Grows, BecomeLeader, Elected;
    NodeFacts(s, v);
    var r1 := r.(acks := {r.id});
    assert NodeSim(cfg, s, v, r1);
    if 1 >= Quorum(r) {
      s' := LeadSim(cfg, s, v, r1);
    } else {
      var r2 := Reset(cfg, r1, r1.term, 0, false).(state := StateElectionAck);
      assert NodeSim(cfg, s, v, r2);
      SimSay(cfg, s, v, r2, ToOthers(r2, ReqElectAck));
      s' := s;
    }
  }

  lemma CampaignSim(cfg: Config, s: C.State, v: Id, r: Fsm, force: bool) returns (s': C.State)
    requires Good(s) && NodeSim(cfg, s, v, r) && r.state != StateLeader
    requires r.applied <= r.committed <= |r.log| && C.ConfsAbove(r.log[r.applied..r.committed], 0) == 0
    ensures SimTo(cfg, s, v, Campaign(cfg, r, force), s')
  {
    hide Good, Grows, BecomeLeader, BecomeElectionAck, Elected, ProgressInv, VotesOk, BecomeCandidate, Poll;
    var r1 := Campaigner(cfg, r);
    var s1 := CandidateSim(cfg, s, v, r);
    if Quorum(r1) == |Granted(r1.votes)| {
      VotesElect(cfg, s1, v, r1);
      if cfg.leaseCheck {
        s' := ElectionAckSim(cfg, s1, v, r1);
        Join(cfg, s, s1, s', v, Res(r1, {}), BecomeElectionAck(cfg, r1));
      } else {
        s' := LeadSim(cfg, s1, v, r1);
        Join(cfg, s, s1, s', v, Res(r1, {}), Res(BecomeLeader(cfg, r1), {}));
      }
    } else {
      LastTermAt(r1.log);
      NodeFacts(s1, v);
      SimSay(cfg, s1, v, r1, ToOthers(r1, ReqVote(force, |r1.log|, TermAt(r1.log, |r1.log|))));
      s' := s1;
      Join(cfg, s, s1, s', v, Res(r1, {}), Res(r1, ToOthers(r1, ReqVote(force, |r1.log|, TermAt(r1.log, |r1.log|)))));
    }
  }

  lemma HupSim(cfg: Config, s: C.State, v: Id, r: Fsm, force: bool) returns (s': C.State)
    requires Good(s) && NodeSim(cfg, s, v, r)
    ensures SimTo(cfg, s, v, Hup(cfg, r, force), s')
  {
    hide Good, Grows, Campaign;
    NodeFacts(s, v);
    if r.state != StateLeader && C.ConfsAbove(r.log[r.applied..r.committed], 0) == 0 {
      s' := CampaignSim(cfg, s, v, r, force);
    } else {
      s' := s;
      SimStay(cfg, s, v, r);
    }
  }

  lemma PollSim(cfg: Config, s: C.State, v: Id, r: Fsm, m: Message)
    requires NodeSim(cfg, s, v, r) && r.state == StateCandidate
    requires MsgOk(s, m) && m.term == r.term && m.to == v && m.body.RespVote?
    ensures NodeSim(cfg, s, v, Poll(r, m.from, !m.body.reject))
  {}

  lemma VoteAnswerSim(cfg: Config, s: C.State, v: Id, r: Fsm, m: Message) returns (s': C.State)
    requires Good(s) && NodeSim(cfg, s, v, r) && r.state == StateCandidate
    requires MsgOk(s, m) && m.term == r.term && m.to == v && m.body.RespVote?
    ensures SimTo(cfg, s, v, StepCandidate(cfg, r, m), s')
  {
    hide Good, Grows, BecomeLeader, BecomeElectionAck, BcastAppend, Elected, BecomeFollower;
    NodeFacts(s, v);
    PollSim(cfg, s, v, r, m);
    var r1 := Poll(r, m.from, !m.body.reject);
    var gr := |Granted(r1.votes)|;
    if Quorum(r1) == gr {
      VotesElect(cfg, s, v, r1);
      if cfg.leaseCheck {
        s' := ElectionAckSim(cfg, s, v, r1);
      } else {
        s' := LeadBcastSim(cfg, s, v, r1);
      }
    } else if Quorum(r1) == |r1.votes| - gr {
      s' := FollowSim(cfg, s, v, r1, r1.term, NO_LEADER);
    } else {
      s' := s;
      SimStay(cfg, s, v, r1);
    }
  }

  lemma LeadBcastSim(cfg: Config, s: C.State, v: Id, r: Fsm) returns (s': C.State)
    requires Good(s) && NodeSim(cfg, s, v, r) && RoleOf(r.state) == C.Candidate && Elected(s, r.term, v)
    ensures SimTo(cfg, s, v, BcastAppend(cfg, BecomeLeader(cfg, r)), s')
  {
    hide Good, Grows, NodeSim, BecomeLeader, BcastAppend, Elected;
    var r1 := BecomeLeader(cfg, r);
    var s1 := LeadSim(cfg, s, v, r);
    s' := BcastSim(cfg, s1, v, r1);
    Join(cfg, s, s1, s', v, Res(r1, {}), BcastAppend(cfg, r1));
  }
}
