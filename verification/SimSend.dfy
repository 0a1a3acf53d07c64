/** Taking office and talking to followers. */
module SimSend {
  import opened RaftTypes
  import opened LogSpec
  import opened ProgressSpec
  import opened QuorumIndex
  import opened FsmSpec
  import opened Cluster
  import opened ClusterSim
  import opened SimLeader
  import C = CoreRaft
  import opened CoreInvariant
  import opened CoreSafety

  // ---- taking office ----

  function NoOp(r: Fsm): seq<Entry> { [Entry(r.term, |r.log| + 1, Normal([]))] }

  function TakingOffice(cfg: Config, r: Fsm): Fsm {
    Reset(cfg, r, r.term, |r.log|, true).(leader := r.id, state := StateLeader, acks := {})
  }

  /** Counting configuration entries from an index on. */
  lemma ConfsFrom(log: seq<Entry>, a: nat, b: nat)
    requires a <= b <= |log|
    ensures C.ConfsAbove(log[a..b], 0) == C.ConfsAbove(log[..b], a)
  {
    ConfsJoin(log[..a], log[a..b], a);
    assert log[..a] + log[a..b] == log[..b];
    assert C.ConfsAbove(log[..a], a) == 0;
  }

  lemma LeadShape(cfg: Config, r: Fsm)
    requires r.state != StateFollower && r.committed <= |r.log| && r.id in r.replicas
    requires C.ConfsAbove(r.log, r.committed) <= 1
    ensures BecomeLeader(cfg, r) == MaybeCommit(Appended(TakingOffice(cfg, r), NoOp(r), C.ConfsAbove(r.log, r.committed) > 0))
  {
    hide MaybeCommit, AppendEntry;
    ConfsFrom(r.log, r.committed, |r.log|);
    assert r.log[r.committed..|r.log|] == r.log[r.committed..] && r.log[..|r.log|] == r.log;
    AppendShape(cfg, TakingOffice(cfg, r), NoOp(r), C.ConfsAbove(r.log, r.committed) > 0);
  }

  lemma OfficeSim(cfg: Config, s: C.State, v: Id, r: Fsm, q: set<Id>) returns (s': C.State)
    requires Good(s) && NodeSim(cfg, s, v, r) && C.CanLead(s, v, q)
    ensures v in r.replicas
    ensures SimTo(cfg, s, v, Res(Appended(TakingOffice(cfg, r), NoOp(r), C.ConfsAbove(r.log, r.committed) > 0), {}), s')
  {
    hide Good, Grows, ProgressInv, ConfOk, RoleOk, LogOk, FixedLog, C.DoLead, Appended;
    NodeFacts(s, v);
    s' := C.DoLead(s, v, q);
    ActLead(s, v, q);
    OfficeNode(cfg, s, v, r, q);
    OfficeProgress(cfg, s', r);
  }

  lemma OfficeNode(cfg: Config, s: C.State, v: Id, r: Fsm, q: set<Id>)
    requires v in s.nodes && SameNode(s.nodes[v], r) && r.id == v && v in r.replicas
    ensures var s' := C.DoLead(s, v, q);
      var r' := Appended(TakingOffice(cfg, r), NoOp(r), C.ConfsAbove(r.log, r.committed) > 0);
      && s'.servers == s.servers && v in s'.nodes && SameNode(s'.nodes[v], r') && C.Acked(s', r.term, v, |r.log| + 1)
      && r'.id == v && r'.fault == r.fault && r'.replicas.Keys == r.replicas.Keys && r'.state == StateLeader && r'.leader == v
      && s'.nodes[v].pending == r'.pendingConf && r'.term == r.term == s.nodes[v].term
  {}

  lemma OfficeProgress(cfg: Config, s': C.State, r: Fsm)
    requires r.id in r.replicas && C.Acked(s', r.term, r.id, |r.log| + 1)
    ensures ProgressInv(cfg, s', Appended(TakingOffice(cfg, r), NoOp(r), C.ConfsAbove(r.log, r.committed) > 0))
  {
    var r' := Appended(TakingOffice(cfg, r), NoOp(r), C.ConfsAbove(r.log, r.committed) > 0);
    forall k | k in r'.replicas ensures ProgressOk(cfg, s', r', k, r'.replicas[k]) {}
  }

  /** A candidate that was elected becomes leader. */
  lemma LeadSim(cfg: Config, s: C.State, v: Id, r: Fsm) returns (s': C.State)
    requires Good(s) && NodeSim(cfg, s, v, r) && RoleOf(r.state) == C.Candidate && Elected(s, r.term, v)
    ensures SimTo(cfg, s, v, Res(BecomeLeader(cfg, r), {}), s') && BecomeLeader(cfg, r).state == StateLeader
  {
    hide Good, Grows, C.Reaches, OthersSame, OutOk, ProgressInv, LogOk, FixedLog, RoleOk, BecomeLeader;
    NodeFacts(s, v);
    LeadShape(cfg, r);
    var q :| C.VotedBy(s, r.term, v, q);
    var r1 := Appended(TakingOffice(cfg, r), NoOp(r), C.ConfsAbove(r.log, r.committed) > 0);
    var s1 := OfficeSim(cfg, s, v, r, q);
    s' := CommitSim(cfg, s1, v, r1);
    SimTrans(cfg, s, s1, s', v, Res(r1, {}), Res(MaybeCommit(r1), {}));
  }

  // ---- sending ----

  /** What an append request carries ends at the index its last entry says. */
  lemma BatchEnds(cfg: Config, ll: map<nat, seq<Entry>>, log: seq<Entry>, next: nat)
    requires LogOk(ll, log) && 1 <= next <= |log| + 1
    ensures var e := Batch(cfg, log, next);
      && next - 1 + |e| <= |log| && e == log[next - 1..next - 1 + |e|]
      && (e != [] ==> e[|e| - 1].index == next - 1 + |e|)
  {
    var e := Batch(cfg, log, next);
    if e != [] { assert EntryOk(ll, log, next - 1 + |e| - 1); }
  }

  lemma SentOk(cfg: Config, s: C.State, r: Fsm, k: Id, pr: Progress)
    requires ProgressOk(cfg, s, r, k, pr) && LogOk(s.ll, r.log) && k != r.id
    ensures ProgressOk(cfg, s, r, k, SendProgress(cfg, r, pr)) && !SendFaults(pr)
  {
    BatchEnds(cfg, s.ll, r.log, pr.next);
    var e := Batch(cfg, r.log, pr.next);
    if !pr.IsPaused() && e != [] && pr.state == Replicate {
      ProgressSpec.SendKeeps(pr, e[|e| - 1].index);
    }
  }

  lemma SendMsgOk(cfg: Config, s: C.State, v: Id, r: Fsm, to: Id)
    requires Good(s) && NodeSim(cfg, s, v, r) && r.state == StateLeader && to in r.replicas && to != v
    ensures MsgOk(C.DoSend(s, v), Msg(r, to, AppendBody(cfg, r, r.replicas[to])))
  {
    hide Good, Grows;
    NodeFacts(s, v);
    assert ProgressOk(cfg, s, r, to, r.replicas[to]);
    BatchEnds(cfg, s.ll, r.log, r.replicas[to].next);
  }

  lemma SendSim(cfg: Config, s: C.State, v: Id, r: Fsm, to: Id) returns (s': C.State)
    requires Good(s) && NodeSim(cfg, s, v, r) && r.state == StateLeader && to in r.replicas && to != v
    ensures SimTo(cfg, s, v, SendAppend(cfg, r, to), s')
  {
    hide Good, Grows, C.Reaches, OthersSame, FixedLog, ConfOk, RoleOk, SendProgress, SendFaults;
    NodeFacts(s, v);
    s' := C.DoSend(s, v);
    ActSend(s, v);
    SendMsgOk(cfg, s, v, r, to);
    var r' := SendAppend(cfg, r, to).r;
    SentOk(cfg, s, r, to, r.replicas[to]);
    forall k | k in r'.replicas ensures ProgressOk(cfg, s', r', k, r'.replicas[k]) {
      assert ProgressOk(cfg, s, r, k, r.replicas[k]);
    }
  }

  lemma BcastSim(cfg: Config, s: C.State, v: Id, r: Fsm) returns (s': C.State)
    requires Good(s) && NodeSim(cfg, s, v, r) && r.state == StateLeader
    ensures SimTo(cfg, s, v, BcastAppend(cfg, r), s') && BcastAppend(cfg, r).r.state == StateLeader
  {
    hide Good, Grows, SendProgress, SendFaults;
    NodeFacts(s, v);
    s' := C.DoSend(s, v);
    ActSend(s, v);
    BcastProgress(cfg, s, s', v, r);
    BcastMsgs(cfg, s, v, r);
  }

  lemma BcastProgress(cfg: Config, s: C.State, s': C.State, v: Id, r: Fsm)
    requires ProgressInv(cfg, s, r) && LogOk(s.ll, r.log) && s'.ack == s.ack && r.id == v
    ensures ProgressInv(cfg, s', BcastAppend(cfg, r).r) && BcastAppend(cfg, r).r.fault == r.fault
  {
    hide SendProgress, SendFaults;
    var r' := BcastAppend(cfg, r).r;
    forall k | k in r.replicas && k != v ensures !SendFaults(r.replicas[k]) {
      SentOk(cfg, s, r, k, r.replicas[k]);
    }
    forall k | k in r'.replicas ensures ProgressOk(cfg, s', r', k, r'.replicas[k]) {
      assert ProgressOk(cfg, s, r, k, r.replicas[k]);
      if k != v { SentOk(cfg, s, r, k, r.replicas[k]); }
    }
  }

  lemma BcastMsgs(cfg: Config, s: C.State, v: Id, r: Fsm)
    requires Good(s) && NodeSim(cfg, s, v, r) && r.state == StateLeader
    ensures OutOk(C.DoSend(s, v), BcastAppend(cfg, r).out)
  {
    hide Good, NodeSim, C.DoSend, MsgOk;
    NodeId(cfg, s, v, r);
    forall m | m in BcastAppend(cfg, r).out ensures MsgOk(C.DoSend(s, v), m) {
      var k :| k in r.replicas && k != r.id && m == Msg(r, k, AppendBody(cfg, r, r.replicas[k]));
      SendMsgOk(cfg, s, v, r, k);
    }
  }

  lemma NodeId(cfg: Config, s: C.State, v: Id, r: Fsm)
    requires NodeSim(cfg, s, v, r)
    ensures r.id == v && v in s.nodes && s.nodes[v].term == r.term
  {}
}
