/** The leader's side of the simulation: taking office, appending, committing, sending. */
module SimLeader {
  import opened RaftTypes
  import opened LogSpec
  import opened ProgressSpec
  import opened QuorumIndex
  import opened FsmSpec
  import opened Cluster
  import opened ClusterSim
  import C = CoreRaft
  import opened CoreInvariant
  import opened CoreSafety

  /** What the invariant says about one node. */
  lemma NodeFacts(s: C.State, v: Id)
    requires Good(s) && v in s.nodes
    ensures NO_LEADER !in s.servers && s.nodes.Keys == s.servers
    ensures var n := s.nodes[v];
      LogOk(s.ll, n.log) && n.applied <= n.commit <= |n.log| && RoleOk(s, v) && ConfOk(n) && FixedLog(s.servers, n.log)
      && (n.role != C.Follower ==> n.term >= 1)
  {
    hide VotesInv, AcksInv, KeptInv, VotedInv, CompletenessInv, SendsInv;
    assert NodeOk(s, v) && RoleOk(s, v);
    NodeFixed(s, v);
    var n := s.nodes[v];
    if n.role == C.Leader { assert LeaderOk(s, n.term); }
    if n.role == C.Candidate { assert CampOk(s, n.term, v); }
  }

  lemma GrowsRefl(s: C.State)
    ensures Grows(s, s)
  {}

  lemma SimStay(cfg: Config, s: C.State, v: Id, r: Fsm)
    requires Good(s) && NodeSim(cfg, s, v, r)
    ensures SimTo(cfg, s, v, Res(r, {}), s)
  {
    hide Good, NodeSim, Moves;
    MovesNot(s, v);
  }

  /** The same with messages that need nothing on record. */
  lemma SimSay(cfg: Config, s: C.State, v: Id, r: Fsm, out: set<Message>)
    requires Good(s) && NodeSim(cfg, s, v, r) && OutOk(s, out)
    ensures SimTo(cfg, s, v, Res(r, out), s)
  {
    hide Good, NodeSim, Moves;
    MovesNot(s, v);
  }

  // ---- committing ----

  lemma AgreedByQuorum(cfg: Config, s: C.State, v: Id, r: Fsm) returns (q: set<Id>)
    requires NodeSim(cfg, s, v, r) && r.state == StateLeader && Commits(r)
    ensures var k := Agreed(Matches(r.replicas));
      k <= |r.log| && IsQuorum(s.servers, q) && forall x :: x in q ==> C.Acked(s, r.term, x, k)
  {
    var m := Matches(r.replicas);
    var k := Agreed(m);
    q := Reached(m, k);
    assert m.Keys == s.servers && |m| == |s.servers|;
    forall x | x in q ensures C.Acked(s, r.term, x, k) && k <= |r.log| {
      assert ProgressOk(cfg, s, r, x, r.replicas[x]);
    }
    assert q != {};
    var x :| x in q;
  }

  /** `maybeCommit` changes the commit index and the leader's own progress, nothing else. */
  lemma CommitShape(r: Fsm)
    requires r.state == StateLeader && r.id in r.replicas
    ensures r.replicas != map[]
    ensures Commits(r) && Agreed(Matches(r.replicas)) <= |r.log| ==> MaybeCommit(r) == Committed(r, Agreed(Matches(r.replicas)))
    ensures !Commits(r) ==> MaybeCommit(r) == Committed(r, r.committed)
  {
    assert Matches(r.replicas) != map[] by { assert r.id in Matches(r.replicas); }
  }

  function Committed(r: Fsm, k: nat): Fsm
    requires r.id in r.replicas
  {
    r.(committed := k, replicas := r.replicas[r.id := r.replicas[r.id].(committed := k)])
  }

  lemma CommittedProgress(cfg: Config, s: C.State, s': C.State, r: Fsm, k: nat)
    requires ProgressInv(cfg, s, r) && s'.ack == s.ack && r.id in r.replicas
    ensures ProgressInv(cfg, s', Committed(r, k))
  {
    var r' := Committed(r, k);
    forall x | x in r'.replicas ensures ProgressOk(cfg, s', r', x, r'.replicas[x]) {
      assert ProgressOk(cfg, s, r, x, r.replicas[x]);
    }
  }

  lemma CommitSim(cfg: Config, s: C.State, v: Id, r: Fsm) returns (s': C.State)
    requires Good(s) && NodeSim(cfg, s, v, r) && r.state == StateLeader
    ensures SimTo(cfg, s, v, Res(MaybeCommit(r), {}), s')
  {
    hide Good, Grows, MaybeCommit, Commits, ProgressInv;
    NodeFacts(s, v);
    CommitShape(r);
    if Commits(r) {
      var q := AgreedByQuorum(cfg, s, v, r);
      var k := Agreed(Matches(r.replicas));
      CommitEnabled(s, v, r, k, q);
      s' := CommittedSim(cfg, s, v, r, k, q);
    } else {
      s' := s;
      CommittedProgress(cfg, s, s, r, r.committed);
      SimStay(cfg, s, v, Committed(r, r.committed));
    }
  }

  lemma CommittedSim(cfg: Config, s: C.State, v: Id, r: Fsm, k: nat, q: set<Id>) returns (s': C.State)
    requires Good(s) && NodeSim(cfg, s, v, r) && r.state == StateLeader && C.CanCommit(s, v, k, q) && v in r.replicas
    ensures SimTo(cfg, s, v, Res(Committed(r, k), {}), s')
  {
    hide Good, Grows, ProgressInv;
    s' := C.DoCommit(s, v, k);
    ActCommit(s, v, k, q);
    CommittedProgress(cfg, s, s', r, k);
  }

  lemma CommitEnabled(s: C.State, v: Id, r: Fsm, k: nat, q: set<Id>)
    requires v in s.nodes && SameNode(s.nodes[v], r) && r.state == StateLeader && r.replicas != map[]
    requires Commits(r) && k == Agreed(Matches(r.replicas)) && k <= |r.log|
    requires IsQuorum(s.servers, q) && forall x :: x in q ==> C.Acked(s, r.term, x, k)
    ensures C.CanCommit(s, v, k, q)
  {}

  // ---- appending ----

  /** The leader after appending, before it looks for something to commit. */
  function Appended(r: Fsm, ents: seq<Entry>, pending: bool): Fsm
    requires r.id in r.replicas
  {
    r.(pendingConf := pending, log := r.log + ents,
       replicas := r.replicas[r.id := r.replicas[r.id].MaybeUpdate(|r.log + ents|, r.committed)])
  }

  lemma AppendShape(cfg: Config, r: Fsm, ents: seq<Entry>, pending: bool)
    requires r.id in r.replicas && r.committed <= |r.log| && (ents != [] ==> ents[0].index == |r.log| + 1)
    ensures AppendEntry(cfg, r.(pendingConf := pending), ents) == MaybeCommit(Appended(r, ents, pending))
  {
    hide MaybeCommit;
    assert r.log[..|r.log|] == r.log && r.log + [] == r.log;
  }

  lemma AppendSim(cfg: Config, s: C.State, v: Id, r: Fsm, ents: seq<Entry>, pending: bool) returns (s': C.State)
    requires Good(s) && NodeSim(cfg, s, v, r) && r.state == StateLeader
    requires C.CanAppend(s, v, ents) && FixedLog(s.servers, ents) && pending == (r.pendingConf || C.ConfsAbove(ents, 0) > 0)
    ensures SimTo(cfg, s, v, Res(AppendEntry(cfg, r.(pendingConf := pending), ents), {}), s')
  {
    hide Good, Grows, MaybeCommit, AppendEntry;
    NodeFacts(s, v);
    AppendShape(cfg, r, ents, pending);
    var r1 := Appended(r, ents, pending);
    var s1 := AppendedSim(cfg, s, v, r, ents, pending);
    s' := CommitSim(cfg, s1, v, r1);
    SimTrans(cfg, s, s1, s', v, Res(r1, {}), Res(MaybeCommit(r1), {}));
  }

  lemma AppendedSim(cfg: Config, s: C.State, v: Id, r: Fsm, ents: seq<Entry>, pending: bool) returns (s': C.State)
    requires Good(s) && NodeSim(cfg, s, v, r) && r.state == StateLeader
    requires C.CanAppend(s, v, ents) && FixedLog(s.servers, ents) && pending == (r.pendingConf || C.ConfsAbove(ents, 0) > 0)
    ensures r.id in r.replicas && SimTo(cfg, s, v, Res(Appended(r, ents, pending), {}), s')
  {
    hide Good, Grows, ProgressInv;
    NodeFacts(s, v);
    s' := C.DoAppend(s, v, ents);
    ActAppend(s, v, ents);
    AppendProgress(cfg, s, s', v, r, Appended(r, ents, pending));
  }

  lemma AppendProgress(cfg: Config, s: C.State, s': C.State, v: Id, r: Fsm, r': Fsm)
    requires ProgressInv(cfg, s, r) && v in r.replicas && |r.log| <= |r'.log| && r'.term == r.term
    requires r'.replicas == r.replicas[v := r.replicas[v].MaybeUpdate(|r'.log|, r.committed)]
    requires forall k, i :: C.Acked(s, r.term, k, i) ==> C.Acked(s', r.term, k, i)
    requires C.Acked(s', r.term, v, |r'.log|) && v == r.id == r'.id
    ensures ProgressInv(cfg, s', r')
  {
    forall k | k in r'.replicas ensures ProgressOk(cfg, s', r', k, r'.replicas[k]) {
      assert ProgressOk(cfg, s, r, k, r.replicas[k]);
    }
  }
}
