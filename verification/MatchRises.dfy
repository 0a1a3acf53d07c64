/** Within one leadership no match index ever falls. */
module MatchRises {
  import opened RaftTypes
  import opened LogSpec
  import opened ProgressSpec
  import opened FsmSpec
  import opened FsmParts
  import opened Cluster
  import opened ApplyOnce

  /** Members of both states have not fallen back. */
  ghost predicate Rises(p: map<Id, Progress>, q: map<Id, Progress>) {
    forall k :: k in p && k in q ==> p[k].matched <= q[k].matched
  }

  /** Same members, none of which has fallen back. */
  ghost predicate RisesIn(r: Fsm, r': Fsm) {
    r'.replicas.Keys == r.replicas.Keys && Rises(r.replicas, r'.replicas)
  }

  lemma RisesTrans(a: Fsm, b: Fsm, c: Fsm)
    requires RisesIn(a, b) && RisesIn(b, c)
    ensures RisesIn(a, c)
  {}

  lemma SameRises(r: Fsm, r': Fsm)
    requires Matches(r'.replicas) == Matches(r.replicas)
    ensures RisesIn(r, r')
  {
    assert Matches(r.replicas).Keys == r.replicas.Keys && Matches(r'.replicas).Keys == r'.replicas.Keys;
    assert forall k :: k in r.replicas ==> Matches(r.replicas)[k] == Matches(r'.replicas)[k];
  }

  lemma CommitRises(r: Fsm)
    ensures RisesIn(r, MaybeCommit(r))
  {
    hide MaybeCommit;
    CommitMatches(r);
    SameRises(r, MaybeCommit(r));
  }

  lemma BcastRises(cfg: Config, r: Fsm)
    ensures RisesIn(r, BcastAppend(cfg, r).r)
  {
    hide Batch;
  }

  lemma SendRises(cfg: Config, r: Fsm, to: Id)
    ensures RisesIn(r, SendAppend(cfg, r, to).r)
  {
    hide Batch;
  }

  lemma AppendRises(cfg: Config, r: Fsm, ents: seq<Entry>)
    ensures RisesIn(r, AppendEntry(cfg, r, ents))
  {
    if r.id in r.replicas && (ents == [] || r.committed < ents[0].index <= |r.log| + 1) {
      var r1 := r.(log := AppendEnts(0, r.log, ents));
      hide MaybeCommit, AppendEnts;
      CommitRises(r1.(replicas := r1.replicas[r.id := r1.replicas[r.id].MaybeUpdate(|r1.log|, r1.committed)]));
    }
  }

  lemma PropRises(cfg: Config, r: Fsm, ents: seq<Entry>)
    ensures RisesIn(r, LeaderProp(cfg, r, ents).r)
  {
    hide AppendEntry, BcastAppend, Screen, AnyConf;
    var r1 := r.(pendingConf := r.pendingConf || AnyConf(ents));
    AppendRises(cfg, r1, Screen(ents, r.pendingConf));
    BcastRises(cfg, AppendEntry(cfg, r1, Screen(ents, r.pendingConf)));
  }

  lemma RejectRises(cfg: Config, r: Fsm, from: Id, index: nat, last: nat, commit: nat)
    requires from in r.replicas
    ensures RisesIn(r, LeaderReject(cfg, r, from, index, last, commit).r)
  {
    hide SendAppend;
    var pr1 := r.replicas[from].MaybeDecrTo(index, last, commit);
    SendRises(cfg, WithProgress(r, from, if pr1.state == Replicate then pr1.BecomeProbe() else pr1), from);
  }

  lemma StaleRises(r: Fsm, from: Id, index: nat, commit: nat)
    requires from in r.replicas
    ensures RisesIn(r, WithProgress(r, from, r.replicas[from].MaybeUpdate(index, commit)))
  {}

  lemma AckRises(cfg: Config, r: Fsm, from: Id, index: nat, commit: nat)
    requires from in r.replicas
    ensures RisesIn(r, LeaderAck(cfg, r, from, index, commit).r)
  {
    var r1 := WithProgress(r, from, Acknowledged(r.replicas[from], index, commit));
    assert RisesIn(r, r1);
    var r2 := MaybeCommit(r1);
    hide MaybeCommit, BcastAppend, SendAppend, Commits, Acknowledged, RisesIn;
    CommitRises(r1);
    RisesTrans(r, r1, r2);
    BcastRises(cfg, r2);
    RisesTrans(r, r2, BcastAppend(cfg, r2).r);
    SendRises(cfg, r2, from);
    RisesTrans(r, r2, SendAppend(cfg, r2, from).r);
    assert index <= r.replicas[from].matched ==> RisesIn(r, WithProgress(r, from, r.replicas[from].MaybeUpdate(index, commit))) by {
      StaleRises(r, from, index, commit);
    }
  }

  lemma HeartbeatRises(cfg: Config, r: Fsm, from: Id)
    requires from in r.replicas
    ensures RisesIn(r, LeaderHeartbeat(cfg, r, from).r)
  {
    hide Batch;
  }

  lemma LeaderStepRises(cfg: Config, r: Fsm, m: Message)
    requires StepLeader(cfg, r, m).r.state == StateLeader
    ensures RisesIn(r, StepLeader(cfg, r, m).r)
  {
    hide LeaderProp, LeaderReject, LeaderAck, LeaderHeartbeat;
    match m.body
    case Prop(ents) => PropRises(cfg, r, ents);
    case RespAppend(reject, index, commit, rejectIndex) =>
      if m.from in r.replicas {
        var r1 := WithProgress(r, m.from, r.replicas[m.from].(active := true));
        RejectRises(cfg, r1, m.from, index, rejectIndex, commit);
        AckRises(cfg, r1, m.from, index, commit);
      }
    case RespHeartBeat =>
      if m.from in r.replicas { HeartbeatRises(cfg, r, m.from); }
    case _ =>
  }

  // ---- a higher term ends the leadership ----

  lemma CommitTerm(r: Fsm)
    ensures MaybeCommit(r).term == r.term
  {
    hide Commits;
  }

  lemma LeaderTerm(cfg: Config, r: Fsm)
    ensures BecomeLeader(cfg, r).term == r.term
  {
    hide MaybeCommit;
    forall x: Fsm ensures MaybeCommit(x).term == x.term { CommitTerm(x); }
  }

  lemma CampaignTerm(cfg: Config, r: Fsm, force: bool)
    requires r.state != StateLeader
    ensures Campaign(cfg, r, force).r.term == r.term + 1
  {
    hide BecomeLeader;
    var r1 := Poll(BecomeCandidate(cfg, r), r.id, true);
    LeaderTerm(cfg, r1);
    LeaderTerm(cfg, r1.(acks := {r1.id}));
  }

  lemma FollowerTerm(cfg: Config, r: Fsm, m: Message)
    requires r.state == StateFollower
    ensures StepFollower(cfg, r, m).r.term >= r.term
  {
    hide Campaign, LogSpec.MaybeAppend, Grants;
    CampaignTerm(cfg, r, false);
  }

  lemma StepRises(cfg: Config, r: Fsm, m: Message)
    requires r.state == StateLeader && var r' := Step(cfg, r, m).r; r'.state == StateLeader && r'.term == r.term
    ensures RisesIn(r, Step(cfg, r, m).r)
  {
    hide StepFollower, StepLeader;
    if m.term > r.term {
      FollowerTerm(cfg, BecomeFollower(cfg, r, m.term, if m.body.ReqVote? then NO_LEADER else m.from), m);
    } else if m.term == 0 || m.term == r.term {
      LeaderStepRises(cfg, r, m);
    }
  }

  // ---- ready turns ----

  /** The entry takes member k out. */
  predicate TakesOut(e: Entry, k: Id) {
    e.payload.Conf? && e.payload.kind == RemoveNode && e.payload.peer.id == k != NO_LEADER
  }

  ghost predicate TakenOut(ents: seq<Entry>, k: Id) { exists i :: 0 <= i < |ents| && TakesOut(ents[i], k) }

  /** The entry lets member k in. */
  predicate LetsIn(e: Entry, k: Id) { e.payload.Conf? && e.payload.kind == AddNode && e.payload.peer.id == k != NO_LEADER }

  /** Member k is taken out and let in again later in the batch. */
  ghost predicate Returns(ents: seq<Entry>, k: Id) {
    exists i, j :: 0 <= i < j < |ents| && TakesOut(ents[i], k) && LetsIn(ents[j], k)
  }

  lemma TakenOutSnoc(ents: seq<Entry>, k: Id)
    requires ents != []
    ensures var n := |ents| - 1; TakenOut(ents, k) <==> TakenOut(ents[..n], k) || TakesOut(ents[n], k)
  {
    var n := |ents| - 1;
    if i :| 0 <= i < n && TakesOut(ents[..n][i], k) { assert TakesOut(ents[i], k); }
    if i :| 0 <= i < n && TakesOut(ents[i], k) { assert TakesOut(ents[..n][i], k); }
  }

  /** A batch leaves a member's match index alone unless it takes the member out: then one that is back starts from 0. */
  lemma {:induction false} MatchAfterBatch(m: map<Id, nat>, ents: seq<Entry>, k: Id)
    ensures var after := MatchesAfter(m, ents);
      && (!TakenOut(ents, k) && k in m ==> k in after && after[k] == m[k])
      && (TakenOut(ents, k) && k in after ==> after[k] == 0 && Returns(ents, k))
  {
    if ents != [] {
      var n := |ents| - 1;
      TakenOutSnoc(ents, k);
      MatchAfterBatch(m, ents[..n], k);
      if TakenOut(ents[..n], k) && k in MatchesAfter(m, ents) {
        if k in MatchesAfter(m, ents[..n]) {
          var i, j :| 0 <= i < j < n && TakesOut(ents[..n][i], k) && LetsIn(ents[..n][j], k);
          assert TakesOut(ents[i], k) && LetsIn(ents[j], k);
        } else {
          var i :| 0 <= i < n && TakesOut(ents[..n][i], k);
          assert TakesOut(ents[i], k) && LetsIn(ents[n], k);
        }
      }
    }
  }

  /** What a ready turn of a node that goes on leading does to a member's match index, exactly. */
  lemma TurnMatch(cfg: Config, r: Fsm, k: Id)
    requires InRange(r) && r.state == StateLeader && Ready(cfg, r).r.state == StateLeader
    requires k in r.replicas && k in Ready(cfg, r).r.replicas
    ensures Ready(cfg, r).r.replicas[k].matched == (if TakenOut(Due(r), k) then 0 else r.replicas[k].matched)
    ensures TakenOut(Due(r), k) ==> Returns(Due(r), k)
  {
    var a := ApplyEnts(cfg, r, Due(r)).r;
    hide ApplyEnts, CommitAfter, TakenOut, Returns;
    BatchApplies(cfg, r, Due(r));
    MatchAfterBatch(Matches(r.replicas), Due(r), k);
    assert Matches(r.replicas)[k] == r.replicas[k].matched && Matches(a.replicas)[k] == a.replicas[k].matched;
  }

  /** This input is a ready turn whose batch takes member k out. */
  ghost predicate TurnsOut(r: Fsm, e: Event, k: Id) { e.ReadyTurn? && InRange(r) && TakenOut(Due(r), k) }

  /**
   Whatever the input, a node that leads the same term before and after it lets a member's match index fall
   if and only if the input is a ready turn that takes the member out (and lets it in again).
   */
  lemma MatchNeverFalls(cfg: Config, r: Fsm, e: Event, k: Id)
    requires !e.Restart? && r.state == StateLeader
    requires var r' := Handle(cfg, r, e).r; r'.state == StateLeader && r'.term == r.term && k in r.replicas && k in r'.replicas
    ensures Handle(cfg, r, e).r.replicas[k].matched < r.replicas[k].matched <==> TurnsOut(r, e, k) && r.replicas[k].matched > 0
    ensures TurnsOut(r, e, k) ==> Returns(Due(r), k)
  {
    hide Step, Ready, TakenOut;
    match e
    case Recv(m) => if Passes(r, m) { StepRises(cfg, r, m); }
    case Submit(ps) =>
      if r.leader == r.id { StepRises(cfg, r, Message(r.id, NO_LEADER, 0, Prop(Proposal(r, ps)))); }
    case ReadyTurn => if InRange(r) { TurnMatch(cfg, r, k); } else { NoTurn(cfg, r); }
    case _ =>
  }

  lemma NoTurn(cfg: Config, r: Fsm)
    requires !InRange(r)
    ensures Ready(cfg, r).r.replicas == r.replicas
  {}
}
