/** How a node's state and the messages in the network relate to the core protocol. */
module ClusterSim {
  import opened RaftTypes
  import opened LogSpec
  import opened ProgressSpec
  import opened FsmSpec
  import opened Cluster
  import C = CoreRaft
  import opened CoreInvariant
  import opened CoreSafety

  function RoleOf(s: FsmState): C.Role {
    match s
    case StateFollower => C.Follower
    case StateLeader => C.Leader
    case _ => C.Candidate
  }

  ghost predicate ProgressOk(cfg: Config, s: C.State, r: Fsm, k: Id, pr: Progress) {
    && pr.state != Snapshot && pr.cap == cfg.maxInflight && pr.Ordered()
    && 1 <= pr.next <= |r.log| + 1 && pr.matched <= |r.log|
    && (pr.matched == 0 || C.Acked(s, r.term, k, pr.matched))
    && (k == r.id ==> pr.state == Probe)
  }

  /** A leader's view of its followers never overstates what they acknowledged. */
  ghost predicate ProgressInv(cfg: Config, s: C.State, r: Fsm) {
    forall k :: k in r.replicas ==> ProgressOk(cfg, s, r, k, r.replicas[k])
  }

  ghost predicate VotesOk(s: C.State, r: Fsm) {
    forall k :: k in r.votes && r.votes[k] ==> k in s.servers && (r.term, k, r.id) in s.votes
  }

  ghost predicate Elected(s: C.State, t: nat, v: Id) {
    exists q :: C.VotedBy(s, t, v, q)
  }

  ghost predicate SameNode(n: C.Node, r: Fsm) {
    && n.term == r.term && n.vote == r.vote && n.log == r.log && n.commit == r.committed && n.applied == r.applied
    && n.role == RoleOf(r.state)
  }

  /** Node v of the core protocol stands for r. */
  ghost predicate NodeSim(cfg: Config, s: C.State, v: Id, r: Fsm) {
    && v in s.nodes && r.id == v && !r.fault && r.replicas.Keys == s.servers
    && SameNode(s.nodes[v], r)
    && (r.leader == v <==> r.state == StateLeader) && (r.leader != NO_LEADER ==> r.term >= 1)
    && (r.state == StateLeader ==> s.nodes[v].pending == r.pendingConf && ProgressInv(cfg, s, r))
    && (r.state == StateCandidate ==> VotesOk(s, r))
    && (r.state == StateElectionAck ==> Elected(s, r.term, v))
  }

  /** What a message in the network says is on record. */
  ghost predicate MsgOk(s: C.State, m: Message) {
    && m.term >= 1 && m.from in s.servers && m.from != m.to && m.from in s.nodes && m.term <= s.nodes[m.from].term
    && match m.body
       case ReqAppend(index, logTerm, commit, ents) =>
         && m.term in s.ll && m.term in s.who && s.who[m.term] == m.from && index + |ents| <= |s.ll[m.term]|
         && ents == s.ll[m.term][index..index + |ents|] && logTerm == TermAt(s.ll[m.term], index)
         && (m.term, index + |ents|, commit) in s.sends
       case ReqVote(_, index, logTerm) =>
         (m.term, m.from) in s.camp && index == |s.camp[(m.term, m.from)]| && logTerm == C.LastTerm(s.camp[(m.term, m.from)])
       case RespVote(reject) => !reject ==> (m.term, m.from, m.to) in s.votes
       case RespAppend(reject, index, _, _) => !reject ==> C.Acked(s, m.term, m.from, index)
       case Prop(_) => false
       case _ => true
  }

  ghost predicate OutOk(s: C.State, out: set<Message>) {
    forall m :: m in out ==> MsgOk(s, m)
  }

  ghost predicate FixedLog(servers: set<Id>, log: seq<Entry>) {
    forall i :: 0 <= i < |log| ==> KeepsMembers(servers, log[i].payload)
  }

  ghost predicate FixedInv(s: C.State) {
    forall t :: t in s.ll ==> FixedLog(s.servers, s.ll[t])
  }

  ghost predicate Good(s: C.State) {
    Inv(s) && ConfInv(s) && FixedInv(s)
  }

  /** Only v has moved, and only v has voted. */
  ghost predicate OthersSame(s: C.State, s': C.State, v: Id) {
    && (forall k :: k in s.nodes && k != v ==> k in s'.nodes && s'.nodes[k] == s.nodes[k])
    && (forall t, k, c :: (t, k, c) in s'.votes && k != v ==> (t, k, c) in s.votes)
  }

  /** The core protocol moves from s to s' by steps of v, and then stands for the result. */
  ghost predicate SimTo(cfg: Config, s: C.State, v: Id, res: Res, s': C.State) {
    Moves(s, s', v) && NodeSim(cfg, s', v, res.r) && OutOk(s', res.out)
  }

  // ---- growth ----

  lemma MsgGrows(s: C.State, s': C.State, m: Message)
    requires Grows(s, s') && MsgOk(s, m)
    ensures MsgOk(s', m)
  {
    if m.body.ReqAppend? {
      assert s.ll[m.term] <= s'.ll[m.term];
    }
  }

  lemma OutGrows(s: C.State, s': C.State, out: set<Message>)
    requires Grows(s, s') && OutOk(s, out)
    ensures OutOk(s', out)
  {
    forall m | m in out ensures MsgOk(s', m) { MsgGrows(s, s', m); }
  }

  /** A node nobody touched still stands for its state. */
  lemma NodeGrowsSim(cfg: Config, s: C.State, s': C.State, v: Id, r: Fsm)
    requires Grows(s, s') && NodeSim(cfg, s, v, r) && s'.nodes[v] == s.nodes[v]
    ensures NodeSim(cfg, s', v, r)
  {
    if r.state == StateLeader {
      forall k | k in r.replicas ensures ProgressOk(cfg, s', r, k, r.replicas[k]) {
        assert ProgressOk(cfg, s, r, k, r.replicas[k]);
      }
    } else if r.state == StateElectionAck {
      var q :| C.VotedBy(s, r.term, v, q);
      assert C.VotedBy(s', r.term, v, q);
    }
  }

  lemma SimTrans(cfg: Config, s: C.State, s1: C.State, s2: C.State, v: Id, a: Res, b: Res)
    requires SimTo(cfg, s, v, a, s1) && SimTo(cfg, s1, v, b, s2)
    ensures SimTo(cfg, s, v, Res(b.r, a.out + b.out), s2)
  {
    hide NodeSim, Good, Grows, OthersSame, C.Reaches;
    MovesOn(s, s1, s2, v);
    hide Moves;
    OutGrows(s1, s2, a.out);
  }

  lemma MovesOn(s: C.State, s1: C.State, s2: C.State, v: Id)
    requires Moves(s, s1, v) && Moves(s1, s2, v)
    ensures Moves(s, s2, v)
  {
    hide Good, C.Reaches;
    GrowsTrans(s, s1, s2);
    C.ReachesOn(s, s1, s2, v);
  }

  lemma MovesNot(s: C.State, v: Id)
    requires Good(s)
    ensures Moves(s, s, v)
  {
    hide Good, C.Reaches;
    C.ReachesHere(s, v);
  }

  /** One action of v, and what it leaves of the other clauses. */
  lemma Act(s: C.State, a: C.Action)
    requires Good(s) && C.Enabled(s, a)
    requires a.LeaderAppend? ==> FixedLog(s.servers, a.ents)
    ensures var s' := C.Step(s, a); Moves(s, s', a.v)
  {
    hide Inv, ConfInv, FixedInv, Grows, C.Reaches;
    C.ReachesBy(s, a);
    StepInv(s, a);
    StepConf(s, a);
    ActFixed(s, a);
    ActOthers(s, a);
  }

  /** Actions of v lead from s to s', where the invariant holds and no record is lost. */
  ghost predicate Moves(s: C.State, s': C.State, v: Id) {
    C.Reaches(s, s', v) && Good(s') && Grows(s, s') && OthersSame(s, s', v)
  }

  // One lemma per action, so that proofs need not look at the others.

  lemma ActUpdateTerm(s: C.State, v: Id, t: nat)
    requires Good(s) && v in s.nodes && s.nodes[v].term < t
    ensures Moves(s, C.DoUpdateTerm(s, v, t), v)
  { Act(s, C.UpdateTerm(v, t)); }

  lemma ActStepDown(s: C.State, v: Id)
    requires Good(s) && v in s.nodes
    ensures Moves(s, C.DoStepDown(s, v), v)
  { Act(s, C.StepDown(v)); }

  lemma ActCampaign(s: C.State, v: Id)
    requires Good(s) && C.CanCampaign(s, v)
    ensures Moves(s, C.DoCampaign(s, v), v)
  { Act(s, C.Campaign(v)); }

  lemma ActGrant(s: C.State, v: Id, c: Id)
    requires Good(s) && C.CanGrant(s, v, c)
    ensures Moves(s, C.DoGrant(s, v, c), v)
  { Act(s, C.GrantVote(v, c)); }

  lemma ActLead(s: C.State, v: Id, q: set<Id>)
    requires Good(s) && C.CanLead(s, v, q)
    ensures Moves(s, C.DoLead(s, v, q), v)
  { Act(s, C.BecomeLeader(v, q)); }

  lemma ActAppend(s: C.State, v: Id, ents: seq<Entry>)
    requires Good(s) && C.CanAppend(s, v, ents) && FixedLog(s.servers, ents)
    ensures Moves(s, C.DoAppend(s, v, ents), v)
  { Act(s, C.LeaderAppend(v, ents)); }

  lemma ActCommit(s: C.State, v: Id, k: nat, q: set<Id>)
    requires Good(s) && C.CanCommit(s, v, k, q)
    ensures Moves(s, C.DoCommit(s, v, k), v)
  { Act(s, C.LeaderCommit(v, k, q)); }

  lemma ActSend(s: C.State, v: Id)
    requires Good(s) && C.CanSend(s, v)
    ensures Moves(s, C.DoSend(s, v), v)
  { Act(s, C.Send(v)); }

  lemma ActAccept(s: C.State, v: Id, j: nat, k: nat)
    requires Good(s) && C.CanAccept(s, v, j, k)
    ensures Moves(s, C.DoAccept(s, v, j, k), v)
  { Act(s, C.Accept(v, j, k)); }

  lemma ActAckCommit(s: C.State, v: Id)
    requires Good(s) && C.CanAckCommit(s, v)
    ensures Moves(s, C.DoAckCommit(s, v), v)
  { Act(s, C.AckCommit(v)); }

  lemma ActApply(s: C.State, v: Id)
    requires Good(s) && v in s.nodes && s.nodes[v].commit <= |s.nodes[v].log|
    ensures Moves(s, C.DoApply(s, v), v)
  { Act(s, C.ApplyAll(v)); }

  lemma ActOthers(s: C.State, a: C.Action)
    requires C.Enabled(s, a)
    ensures OthersSame(s, C.Step(s, a), a.v)
  {}

  lemma ActFixed(s: C.State, a: C.Action)
    requires Good(s) && C.Enabled(s, a)
    requires a.LeaderAppend? ==> FixedLog(s.servers, a.ents)
    ensures FixedInv(C.Step(s, a))
  {
    hide Inv, ConfInv;
    if a.LeaderAppend? || a.BecomeLeader? { NodeFixed(s, a.v); }
  }

  /** Node logs hold only entries that leaders wrote. */
  lemma NodeFixed(s: C.State, v: Id)
    requires Inv(s) && FixedInv(s) && v in s.nodes
    ensures FixedLog(s.servers, s.nodes[v].log)
  {
    var log := s.nodes[v].log;
    assert NodeOk(s, v);
    forall i | 0 <= i < |log| ensures KeepsMembers(s.servers, log[i].payload) {
      var t := log[i].term;
      assert EntryOk(s.ll, log, i);
      assert log[i] == log[..i + 1][i] == s.ll[t][..i + 1][i] == s.ll[t][i];
      assert FixedLog(s.servers, s.ll[t]);
    }
  }
}
