/** Ready turns and restarts, while configuration changes leave the membership as it is. */
module SimApply {
  import opened RaftTypes
  import opened LogSpec
  import opened ProgressSpec
  import opened FsmSpec
  import opened Cluster
  import opened ClusterSim
  import opened SimLeader
  import opened SimSend
  import opened SimReplies
  import opened SimElection
  import C = CoreRaft
  import opened CoreInvariant
  import opened CoreSafety

  /** The two states differ at most in the pending flag and in peer descriptions. */
  ghost predicate PeersOnly(r: Fsm, r': Fsm) {
    && r' == r.(pendingConf := r'.pendingConf, replicas := r'.replicas)
    && r'.replicas.Keys == r.replicas.Keys
    && forall k :: k in r.replicas ==> r'.replicas[k] == r.replicas[k].(peer := r'.replicas[k].peer)
  }

  lemma ApplyConfFixed(cfg: Config, r: Fsm, p: Payload)
    requires p.Conf? && KeepsMembers(r.replicas.Keys, p)
    ensures var a := ApplyConf(cfg, r, p.kind, p.peer); PeersOnly(r, a.r) && a.out == {} && !a.r.pendingConf
  {}

  lemma ApplyFixed(cfg: Config, r: Fsm, ents: seq<Entry>)
    requires FixedLog(r.replicas.Keys, ents)
    ensures var a := ApplyEnts(cfg, r, ents);
      PeersOnly(r, a.r) && a.out == {} && a.r.pendingConf == (r.pendingConf && C.ConfsAbove(ents, 0) == 0)
    decreases |ents|
  {
    if ents != [] {
      hide ApplyConf;
      var e := ents[0];
      var first := match e.payload
        case Normal(_) => Res(r, {})
        case Conf(kind, peer, _) => ApplyConf(cfg, r, kind, peer);
      if e.payload.Conf? { ApplyConfFixed(cfg, r, e.payload); }
      ApplyFixed(cfg, first.r, ents[1..]);
      ConfsJoin([e], ents[1..], 0);
      assert ents == [e] + ents[1..] && [e][..0] == [];
    }
  }

  lemma ReadyShape(cfg: Config, r: Fsm)
    requires FixedLog(r.replicas.Keys, r.log) && r.applied <= r.committed <= |r.log|
    ensures var a := Ready(cfg, r);
      && PeersOnly(r.(applied := r.committed), a.r) && a.out == {}
      && a.r.pendingConf == (r.pendingConf && C.ConfsAbove(r.log[..r.committed], r.applied) == 0)
  {
    hide ApplyEnts;
    ApplyFixed(cfg, r, r.log[r.applied..r.committed]);
    ConfsFrom(r.log, r.applied, r.committed);
  }

  lemma ReadySim(cfg: Config, s: C.State, v: Id, r: Fsm) returns (s': C.State)
    requires Good(s) && NodeSim(cfg, s, v, r)
    ensures SimTo(cfg, s, v, Ready(cfg, r), s')
  {
    hide Good, Grows, Ready, ProgressInv, ConfOk, RoleOk, LogOk;
    NodeFacts(s, v);
    ReadyShape(cfg, r);
    s' := C.DoApply(s, v);
    ActApply(s, v);
    var r' := Ready(cfg, r).r;
    if r.state == StateLeader { ReadyProgress(cfg, s, s', v, r, r'); }
    if r.state == StateElectionAck { var q :| C.VotedBy(s, r.term, v, q); assert C.VotedBy(s', r.term, v, q); }
  }

  lemma ReadyProgress(cfg: Config, s: C.State, s': C.State, v: Id, r: Fsm, r': Fsm)
    requires ProgressInv(cfg, s, r) && s'.ack == s.ack && PeersOnly(r.(applied := r.committed), r')
    ensures ProgressInv(cfg, s', r')
  {
    forall k | k in r'.replicas ensures ProgressOk(cfg, s', r', k, r'.replicas[k]) {
      assert ProgressOk(cfg, s, r, k, r.replicas[k]);
    }
  }

  // ---- restart ----

  lemma StartShape(cfg: Config, id: Id, peers: map<Id, Peer>, hs: HardState, log: seq<Entry>, applied: nat)
    requires applied <= hs.commit <= |log| && FixedLog(peers.Keys, log)
    ensures var r := Start(cfg, id, peers, hs, log, applied);
      && r.id == id && r.term == hs.term && r.vote == hs.vote && r.log == log && r.committed == hs.commit == r.applied
      && r.state == StateFollower && r.leader == NO_LEADER && !r.fault && r.replicas.Keys == peers.Keys
  {
    hide Ready;
    var r0 := Fresh(id, peers, log);
    var r2 := r0.(term := hs.term, vote := hs.vote, committed := hs.commit, applied := applied);
    ReadyShape(cfg, r2);
  }

  lemma RestartSim(cfg: Config, s: C.State, v: Id, r: Fsm, peers: map<Id, Peer>, applied: nat) returns (s': C.State)
    requires Good(s) && NodeSim(cfg, s, v, r) && peers.Keys == s.servers && applied <= r.committed
    ensures SimTo(cfg, s, v, Res(Start(cfg, r.id, peers, HardState(r.term, r.vote, r.committed), r.log, applied), {}), s')
  {
    hide Good, Grows, Start, ProgressInv, VotesOk, Elected, RoleOk, ConfOk, LogOk;
    NodeFacts(s, v);
    StartShape(cfg, r.id, peers, HardState(r.term, r.vote, r.committed), r.log, applied);
    var r' := Start(cfg, r.id, peers, HardState(r.term, r.vote, r.committed), r.log, applied);
    var s1 := C.DoStepDown(s, v);
    ActStepDown(s, v);
    s' := C.DoApply(s1, v);
    ActApply(s1, v);
    MovesOn(s, s1, s', v);
  }
}
