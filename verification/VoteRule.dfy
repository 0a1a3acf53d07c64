/** Who gets a follower's vote, and who does not even get an answer, in terms of logs and priorities. */
module VoteRule {
  import opened RaftTypes
  import opened LogSpec
  import opened FsmSpec
  import opened Cluster
  import C = CoreRaft

  /** The standing of a log: its last term first, then its length. */
  predicate Above(term: nat, index: nat, log: seq<Entry>) {
    term > C.LastTerm(log) || (term == C.LastTerm(log) && index > |log|)
  }

  predicate Level(term: nat, index: nat, log: seq<Entry>) { term == C.LastTerm(log) && index == |log| }

  /** What a voter holds against a candidate's claim: an unknown candidate ranks highest, an unknown self lowest. */
  predicate Deserves(r: Fsm, m: Message)
    requires m.body.ReqVote?
  {
    var theirs := if m.from in r.replicas then r.replicas[m.from].peer.priority else 65535;
    var own := if r.id in r.replicas then r.replicas[r.id].peer.priority else 0;
    Above(m.body.logTerm, m.body.index, r.log) || (Level(m.body.logTerm, m.body.index, r.log) && theirs >= own)
  }

  /** It has no other vote this term, and with the lease check it knows of no leader. */
  predicate MayVote(cfg: Config, r: Fsm, from: Id) {
    (r.vote == NO_LEADER || r.vote == from) && (!cfg.leaseCheck || r.leader == NO_LEADER)
  }

  /** Its leader's lease keeps a follower from hearing of a new term, unless the request is forced or the leader's own. */
  predicate LeaseHolds(cfg: Config, r: Fsm, m: Message)
    requires m.body.ReqVote?
  {
    cfg.leaseCheck && r.state == StateFollower && r.leader != NO_LEADER && r.leader != m.from && !m.body.force
  }

  function Ballot(r: Fsm, term: nat, to: Id, granted: bool): Message { Message(r.id, to, term, RespVote(!granted)) }

  lemma LogRule(r: Fsm, m: Message)
    requires m.body.ReqVote?
    ensures Deserves(r, m) <==> UpToDateWith(r.log, m.body.index, m.body.logTerm, Priority(r, m.from, MAX_PRIORITY), Priority(r, r.id, 0))
  {}

  /** A follower grants its vote if and only if it may vote and the candidate deserves it; it always answers. */
  lemma VoteExactly(cfg: Config, r: Fsm, m: Message)
    requires m.body.ReqVote? && r.state == StateFollower && m.term == r.term
    ensures var granted := MayVote(cfg, r, m.from) && Deserves(r, m);
      Step(cfg, r, m) == Res(if granted then r.(vote := m.from) else r, {Ballot(r, r.term, m.from, granted)})
  {
    hide UpToDateWith, Deserves;
    LogRule(r, m);
  }

  /** Candidates and leaders answer a request of their own term with a refusal, and change nothing. */
  lemma OthersRefuse(cfg: Config, r: Fsm, m: Message)
    requires m.body.ReqVote? && r.state != StateFollower && m.term == r.term
    ensures Step(cfg, r, m) == Res(r, {Ballot(r, r.term, m.from, false)})
  {}

  /** A request of a lower term is not answered. */
  lemma OldRequest(cfg: Config, r: Fsm, m: Message)
    requires m.body.ReqVote? && 0 < m.term < r.term
    ensures Step(cfg, r, m) == Res(r, {})
  {}

  /**
   A request of a higher term, in whatever state: while the lease holds nothing changes and the leader is told;
   otherwise the node moves to the term as a follower without leader, and votes by the log rule alone.
   */
  lemma HigherTerm(cfg: Config, r: Fsm, m: Message)
    requires m.body.ReqVote? && m.term > r.term
    ensures LeaseHolds(cfg, r, m) ==> Step(cfg, r, m) == Res(r, {Message(r.id, r.leader, r.term, LeaseOffline)})
    ensures !LeaseHolds(cfg, r, m) ==> var a := Step(cfg, r, m);
      && a.r.term == m.term && a.r.state == StateFollower && a.r.leader == NO_LEADER && a.r.log == r.log
      && a.r.committed == r.committed && a.r.applied == r.applied
      && a.r.vote == (if Deserves(r, m) then m.from else NO_LEADER)
      && a.out == {Ballot(r, m.term, m.from, Deserves(r, m))}
  {
    var f := BecomeFollower(cfg, r, m.term, NO_LEADER);
    assert f.replicas.Keys == r.replicas.Keys && f.id == r.id && f.log == r.log;
    SamePriority(cfg, r, m);
    VoteExactly(cfg, f, m);
    hide UpToDateWith, Deserves, BecomeFollower;
    assert InLease(cfg, r, m) == LeaseHolds(cfg, r, m);
  }

  lemma SamePriority(cfg: Config, r: Fsm, m: Message)
    requires m.body.ReqVote?
    ensures Deserves(BecomeFollower(cfg, r, m.term, NO_LEADER), m) == Deserves(r, m)
  {}

  /** A vote is granted only to a candidate that deserves it, in any state and term. */
  lemma GrantedDeserves(cfg: Config, r: Fsm, m: Message)
    requires m.body.ReqVote? && m.term > 0
    ensures var a := Step(cfg, r, m);
      (Ballot(r, m.term, m.from, true) in a.out || (a.r.vote == m.from && r.vote != m.from && m.from != NO_LEADER))
      ==> Deserves(r, m) && m.term >= r.term
  {
    hide Step, Deserves;
    if m.term > r.term {
      HigherTerm(cfg, r, m);
    } else if m.term < r.term {
      OldRequest(cfg, r, m);
    } else if r.state == StateFollower {
      VoteExactly(cfg, r, m);
    } else {
      OthersRefuse(cfg, r, m);
    }
  }

  /** Of two members with equal logs the one with the lower priority is never voted for by the other. */
  lemma LowerPriorityRefused(cfg: Config, r: Fsm, m: Message)
    requires m.body.ReqVote? && m.term > 0 && m.from in r.replicas && r.id in r.replicas
    requires Level(m.body.logTerm, m.body.index, r.log) && r.replicas[m.from].peer.priority < r.replicas[r.id].peer.priority
    ensures var a := Step(cfg, r, m);
      Ballot(r, m.term, m.from, true) !in a.out && (a.r.vote == m.from && m.from != NO_LEADER ==> r.vote == m.from)
  {
    hide Step;
    GrantedDeserves(cfg, r, m);
  }

  /** A member is heard; a stranger only if its log is at least level. */
  lemma StrangerHeard(cfg: Config, r: Fsm, m: Message)
    requires m.body.ReqVote?
    ensures var heard := m.from in r.replicas || Above(m.body.logTerm, m.body.index, r.log) || Level(m.body.logTerm, m.body.index, r.log);
      Receive(cfg, r, m) == if heard then Step(cfg, r, m) else Res(r, {})
  {
    hide Step;
  }

  // ---- the lease ----

  /** A leader told that a member has lost touch steps down and has the others campaign. */
  lemma LeaderReleases(cfg: Config, r: Fsm, m: Message)
    requires m.body == LeaseOffline && r.state == StateLeader && m.term == r.term && m.from in r.replicas
    ensures var a := Step(cfg, r, m);
      && a.r.state == StateFollower && a.r.term == r.term && a.r.vote == r.vote && a.r.leader == NO_LEADER && a.r.log == r.log
      && a.out == set k | k in r.replicas && k != r.id :: Message(r.id, k, r.term, LeaseTimeout)
  {}

  /** A follower released by its leader campaigns as on a timeout; from anybody else the message is nothing. */
  lemma FollowerReleased(cfg: Config, r: Fsm, m: Message)
    requires m.body == LeaseTimeout && r.state == StateFollower && m.term == r.term
    ensures Step(cfg, r, m) == if r.leader == m.from then Handle(cfg, r, HupTick(false)) else Res(r, {})
  {
    hide Hup;
  }
}
