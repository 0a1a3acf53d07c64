/** Who is listened to: the filter in front of the state machine, terms, leaders and leases. */
module Messages {
  import opened RaftTypes
  import opened LogSpec
  import opened ProgressSpec
  import opened FsmSpec
  import opened FsmParts
  import opened Cluster
  import opened ApplyOnce

  /** Answers of strangers are dropped, whatever they say. */
  lemma StrangerIgnored(cfg: Config, r: Fsm, m: Message)
    requires m.from !in r.replicas && m.IsResponse()
    ensures Handle(cfg, r, Recv(m)) == Res(r, {})
  {}

  /** A heartbeat counts only from the leader the node knows, its answer only at a leader, and neither from itself. */
  lemma HeartbeatFiltered(cfg: Config, r: Fsm, m: Message)
    requires (m.body.ReqHeartBeat? && (r.leader != m.from || m.from == r.id)) || (m.body.RespHeartBeat? && (r.leader != r.id || m.from == r.id))
    ensures Handle(cfg, r, Recv(m)) == Res(r, {})
  {}

  /** Messages of an older term are dropped. */
  lemma OldTermIgnored(cfg: Config, r: Fsm, m: Message)
    requires 0 < m.term < r.term
    ensures Handle(cfg, r, Recv(m)) == Res(r, {})
  {}

  /** r has given way to the leader it heard from: term and vote stay, log and commit index too. */
  ghost predicate Yields(r: Fsm, a: Fsm, leader: Id) {
    && a.state == StateFollower && a.leader == leader && a.id == r.id && a.term == r.term && a.vote == r.vote
    && a.log == r.log && a.committed == r.committed && a.applied == r.applied && a.replicas.Keys == r.replicas.Keys
  }

  /**
   Anybody but a leader gives way to a node that shows itself as leader of the term, by asking for an acknowledgement
   or by a heartbeat; the request is answered.
   */
  lemma YieldsToLeader(cfg: Config, r: Fsm, m: Message)
    requires r.state != StateLeader && m.term == r.term && (m.body.ReqElectAck? || m.body.ReqHeartBeat?)
    ensures var a := Step(cfg, r, m);
      && Yields(r, a.r, m.from)
      && a.out == if m.body.ReqElectAck? then {Message(r.id, m.from, r.term, RespElectAck)} else {}
  {}

  /** An append request is handled by a candidate as by a follower that knows the leader. */
  lemma CandidateFollows(cfg: Config, r: Fsm, m: Message)
    requires (r.state == StateCandidate || r.state == StateElectionAck) && m.term == r.term && m.body.ReqAppend?
    ensures var f := BecomeFollower(cfg, r, r.term, m.from); Yields(r, f, m.from) && Step(cfg, r, m) == Step(cfg, f, m)
  {
    hide HandleAppend;
    var f := BecomeFollower(cfg, r, r.term, m.from);
    assert f.(leader := m.from) == f;
  }

  /** A message of a later term, other than a vote request, is handled in that term by a follower of its sender. */
  lemma LaterTerm(cfg: Config, r: Fsm, m: Message)
    requires m.term > r.term && !m.body.ReqVote?
    ensures var f := BecomeFollower(cfg, r, m.term, m.from);
      && f.state == StateFollower && f.leader == m.from && f.term == m.term && f.vote == NO_LEADER && f.log == r.log
      && f.committed == r.committed && f.applied == r.applied && Step(cfg, r, m) == Step(cfg, f, m)
  {
    hide Dispatch;
  }

  /** A follower passes proposals on to the leader it knows, unchanged; without one they are dropped. */
  lemma ProposalForwarded(cfg: Config, r: Fsm, m: Message)
    requires r.state == StateFollower && m.body.Prop? && (m.term == 0 || m.term == r.term)
    ensures Step(cfg, r, m) == Res(r, if r.leader == NO_LEADER then {} else {Message(r.id, r.leader, m.term, m.body)})
  {}

  /** A leader whose lease has run out steps down in its term; without the lease check, or elsewhere, nothing happens. */
  lemma LeaseRunsOut(cfg: Config, r: Fsm)
    ensures var a := Handle(cfg, r, LeaseTick);
      && a.out == {}
      && (if cfg.leaseCheck && r.state == StateLeader then Yields(r, a.r, NO_LEADER) else a.r == r)
  {}

  // ---- configuration changes ----

  lemma TurnOfOne(cfg: Config, r: Fsm, e: Entry)
    requires InRange(r) && Due(r) == [e] && ApplyOne(cfg, r, e).out == {} && ApplyOne(cfg, r, e).r.committed == r.committed
    requires ApplyOne(cfg, r, e).r.applied == r.applied
    ensures Ready(cfg, r) == Res(ApplyOne(cfg, r, e).r.(applied := r.committed), {})
  {
    hide ApplyOne;
    ApplyHead(cfg, r, [e]);
    assert [e][1..] == [];
    ApplyNothing(cfg, ApplyOne(cfg, r, e).r);
    hide ApplyEnts;
  }

  /** A new member is noted with nothing matched; a leader will send to it from the end of its log on. */
  lemma MemberAdded(cfg: Config, r: Fsm, e: Entry)
    requires InRange(r) && Due(r) == [e] && e.payload.Conf? && e.payload.kind == AddNode && e.payload.peer.id != NO_LEADER
    requires e.payload.peer.id !in r.replicas
    ensures var a, k := Handle(cfg, r, ReadyTurn), e.payload.peer.id;
      && a.out == {} && a.r == r.(pendingConf := false, applied := r.committed, replicas := a.r.replicas)
      && a.r.replicas.Keys == r.replicas.Keys + {k} && (forall x :: x in r.replicas ==> a.r.replicas[x] == r.replicas[x])
    ensures var p := Handle(cfg, r, ReadyTurn).r.replicas[e.payload.peer.id];
      && p.peer == e.payload.peer && p.state == Probe && !p.paused && p.matched == 0
      && (r.state == StateLeader ==> p.next == |r.log| + 1 && p.cap == cfg.maxInflight)
  {
    TurnOfOne(cfg, r, e);
    hide Ready;
  }

  /** An update changes the member's description and nothing else. */
  lemma MemberUpdated(cfg: Config, r: Fsm, e: Entry)
    requires InRange(r) && Due(r) == [e] && e.payload.Conf? && e.payload.kind == UpdateNode && e.payload.peer.id != NO_LEADER
    requires e.payload.peer.id in r.replicas
    ensures var a, k := Handle(cfg, r, ReadyTurn), e.payload.peer.id;
      && a.out == {} && a.r == r.(pendingConf := false, applied := r.committed, replicas := a.r.replicas)
      && a.r.replicas.Keys == r.replicas.Keys && (forall x :: x in r.replicas && x != k ==> a.r.replicas[x] == r.replicas[x])
      && a.r.replicas[k] == r.replicas[k].(peer := e.payload.peer)
  {
    TurnOfOne(cfg, r, e);
    hide Ready;
  }

  // ---- starting ----

  /** An application that is ahead of the stored commit index raises it, as far as the log goes. */
  lemma StartAhead(cfg: Config, id: Id, peers: map<Id, Peer>, hs: HardState, log: seq<Entry>, applied: nat)
    requires hs.commit <= |log| && hs.commit < applied
    ensures var r := Start(cfg, id, peers, hs, log, applied);
      && r.committed == r.applied == Min(applied, |log|) && r.log == log && r.state == StateFollower && r.leader == NO_LEADER
      && r.term == hs.term && r.vote == hs.vote && r.id == id && r.replicas.Keys == peers.Keys && !r.fault
  {
    var r := Loaded(id, peers, hs, log, applied);
    assert r.committed == r.applied == Min(applied, |log|);
    assert r.log[r.applied..r.committed] == [];
    ApplyNothing(cfg, r);
    hide ApplyEnts, Loaded;
  }
}
