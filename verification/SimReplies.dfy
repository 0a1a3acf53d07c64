/** Proposals and the answers a leader receives. */
module SimReplies {
  import opened RaftTypes
  import opened LogSpec
  import opened ProgressSpec
  import opened FsmSpec
  import opened Cluster
  import opened ClusterSim
  import opened SimLeader
  import opened SimSend
  import C = CoreRaft
  import opened CoreInvariant
  import opened CoreSafety

  // ---- proposals ----

  lemma AnyConfParts(ents: seq<Entry>)
    requires ents != []
    ensures AnyConf(ents) <==> ents[0].payload.Conf? || AnyConf(ents[1..])
  {
    if AnyConf(ents) && !ents[0].payload.Conf? {
      var i :| 0 <= i < |ents| && ents[i].payload.Conf?;
      assert ents[1..][i - 1].payload.Conf?;
    }
    if AnyConf(ents[1..]) {
      var i :| 0 <= i < |ents[1..]| && ents[1..][i].payload.Conf?;
      assert ents[i + 1].payload.Conf?;
    }
  }

  /** Screening lets at most one configuration change through, and none while one is pending. */
  lemma ScreenConfs(ents: seq<Entry>, pending: bool)
    ensures C.ConfsAbove(Screen(ents, pending), 0) == if !pending && AnyConf(ents) then 1 else 0
  {
    var out := Screen(ents, pending);
    if ents != [] {
      AnyConfParts(ents);
      var rest := Screen(ents[1..], pending || ents[0].payload.Conf?);
      ScreenConfs(ents[1..], pending || ents[0].payload.Conf?);
      assert out == [out[0]] + rest;
      ConfsJoin([out[0]], rest, 0);
      assert [out[0]][..0] == [];
    }
  }

  /** Screening changes neither the number of entries nor their terms and indexes. */
  lemma ScreenKeeps(ents: seq<Entry>, pending: bool)
    ensures var out := Screen(ents, pending);
      |out| == |ents| && forall i :: 0 <= i < |ents| ==>
        out[i].term == ents[i].term && out[i].index == ents[i].index && (out[i].payload == ents[i].payload || out[i].payload.Normal?)
  {
    if ents != [] { ScreenKeeps(ents[1..], pending || ents[0].payload.Conf?); }
  }

  lemma PropSim(cfg: Config, s: C.State, v: Id, r: Fsm, payloads: seq<Payload>) returns (s': C.State)
    requires Good(s) && NodeSim(cfg, s, v, r) && r.state == StateLeader
    requires forall i :: 0 <= i < |payloads| ==> KeepsMembers(s.servers, payloads[i])
    ensures SimTo(cfg, s, v, LeaderProp(cfg, r, Proposal(r, payloads)), s')
  {
    hide Good, Grows, ProgressInv, AppendEntry, BcastAppend;
    NodeFacts(s, v);
    var ents := Proposal(r, payloads);
    if ents == [] {
      SimStay(cfg, s, v, r);
      return s;
    }
    var out := Screen(ents, r.pendingConf);
    ScreenConfs(ents, r.pendingConf);
    ScreenKeeps(ents, r.pendingConf);
    var pending := r.pendingConf || AnyConf(ents);
    assert r == r.(pendingConf := r.pendingConf);
    var s1 := AppendSim(cfg, s, v, r, out, pending);
    var r1 := AppendEntry(cfg, r.(pendingConf := pending), out);
    AppendState(cfg, r.(pendingConf := pending), out);
    s' := BcastSim(cfg, s1, v, r1);
    Join(cfg, s, s1, s', v, Res(r1, {}), BcastAppend(cfg, r1));
  }

  lemma AppendState(cfg: Config, r: Fsm, ents: seq<Entry>)
    ensures AppendEntry(cfg, r, ents).state == r.state
  {}

  /** Composition when the first part says nothing. */
  lemma Join(cfg: Config, s: C.State, s1: C.State, s2: C.State, v: Id, a: Res, b: Res)
    requires SimTo(cfg, s, v, a, s1) && SimTo(cfg, s1, v, b, s2) && a.out == {}
    ensures SimTo(cfg, s, v, b, s2)
  {
    hide SimTo;
    SimTrans(cfg, s, s1, s2, v, a, b);
    assert {} + b.out == b.out;
  }

  // ---- progress ----

  lemma ProgressSim(cfg: Config, s: C.State, v: Id, r: Fsm, k: Id, pr: Progress)
    requires NodeSim(cfg, s, v, r) && r.state == StateLeader && k in r.replicas && ProgressOk(cfg, s, r, k, pr)
    ensures NodeSim(cfg, s, v, WithProgress(r, k, pr))
  {
    var r' := WithProgress(r, k, pr);
    forall x | x in r'.replicas ensures ProgressOk(cfg, s, r', x, r'.replicas[x]) {
      assert ProgressOk(cfg, s, r, x, r.replicas[x]);
    }
  }

  /** Match indexes never fall, and a taken acknowledgement moves them to it. */
  lemma AckProgress(cfg: Config, s: C.State, r: Fsm, k: Id, pr: Progress, index: nat, commit: nat)
    requires ProgressOk(cfg, s, r, k, pr) && index <= |r.log| && C.Acked(s, r.term, k, index) && k != r.id
    ensures index <= pr.matched ==> ProgressOk(cfg, s, r, k, pr.MaybeUpdate(index, commit))
    ensures index > pr.matched ==> ProgressOk(cfg, s, r, k, Acknowledged(pr, index, commit))
    ensures index > pr.matched ==> Acknowledged(pr, index, commit).matched == index
  {
    if pr.state == Replicate {
      if index > pr.matched { UpdateKeeps(pr, index, commit); }
    }
  }

  lemma RejectProgress(cfg: Config, s: C.State, r: Fsm, k: Id, pr: Progress, index: nat, last: nat, commit: nat)
    requires ProgressOk(cfg, s, r, k, pr) && k != r.id
    ensures var p := pr.MaybeDecrTo(index, last, commit);
      ProgressOk(cfg, s, r, k, if pr.TakesReject(index) && p.state == Replicate then p.BecomeProbe() else p)
  {
    hide Progress.Ordered;
    DecrKeeps(pr, index, last, commit);
  }

  lemma RejectSim(cfg: Config, s: C.State, v: Id, r: Fsm, from: Id, index: nat, last: nat, commit: nat) returns (s': C.State)
    requires Good(s) && NodeSim(cfg, s, v, r) && r.state == StateLeader && from in r.replicas && from != v
    ensures SimTo(cfg, s, v, LeaderReject(cfg, r, from, index, last, commit), s')
  {
    hide Good, Grows, ProgressOk, SendAppend;
    var pr := r.replicas[from];
    assert ProgressOk(cfg, s, r, from, pr);
    RejectProgress(cfg, s, r, from, pr, index, last, commit);
    var p := pr.MaybeDecrTo(index, last, commit);
    if !pr.TakesReject(index) {
      ProgressSim(cfg, s, v, r, from, p);
      SimStay(cfg, s, v, WithProgress(r, from, p));
      s' := s;
    } else {
      var p1 := if p.state == Replicate then p.BecomeProbe() else p;
      ProgressSim(cfg, s, v, r, from, p1);
      s' := SendSim(cfg, s, v, WithProgress(r, from, p1), from);
    }
  }

  /** An acknowledged index lies in the leader's log. */
  lemma AckInLog(s: C.State, v: Id, r: Fsm, from: Id, index: nat)
    requires Good(s) && v in s.nodes && SameNode(s.nodes[v], r) && r.state == StateLeader && C.Acked(s, r.term, from, index)
    ensures index <= |r.log|
  {
    hide NodesInv, VotesInv, CampInv, LeadersInv, KeptInv, VotedInv, CompletenessInv, SendsInv, CommitInv, ConfInv, FixedInv;
    assert RoleOk(s, v) && AckOk(s, r.term, from);
  }

  lemma AckSim(cfg: Config, s: C.State, v: Id, r: Fsm, from: Id, index: nat, commit: nat) returns (s': C.State)
    requires Good(s) && NodeSim(cfg, s, v, r) && r.state == StateLeader && from in r.replicas && from != v
    requires C.Acked(s, r.term, from, index)
    ensures SimTo(cfg, s, v, LeaderAck(cfg, r, from, index, commit), s')
  {
    hide Good, Grows, ProgressOk, SendAppend, BcastAppend, MaybeCommit, Commits;
    AckInLog(s, v, r, from, index);
    var pr := r.replicas[from];
    assert ProgressOk(cfg, s, r, from, pr);
    AckProgress(cfg, s, r, from, pr, index, commit);
    if index <= pr.matched {
      ProgressSim(cfg, s, v, r, from, pr.MaybeUpdate(index, commit));
      SimStay(cfg, s, v, WithProgress(r, from, pr.MaybeUpdate(index, commit)));
      s' := s;
    } else {
      var r1 := WithProgress(r, from, Acknowledged(pr, index, commit));
      ProgressSim(cfg, s, v, r, from, Acknowledged(pr, index, commit));
      s' := AfterAckSim(cfg, s, v, r1, from, pr.IsPaused());
    }
  }

  /** What the leader does once a match index has risen. */
  ghost function AfterAck(cfg: Config, r1: Fsm, from: Id, wasPaused: bool): Res {
    if Commits(r1) then BcastAppend(cfg, MaybeCommit(r1))
    else if wasPaused then SendAppend(cfg, MaybeCommit(r1), from)
    else Res(MaybeCommit(r1), {})
  }

  lemma AfterAckSim(cfg: Config, s: C.State, v: Id, r1: Fsm, from: Id, wasPaused: bool) returns (s': C.State)
    requires Good(s) && NodeSim(cfg, s, v, r1) && r1.state == StateLeader && from in r1.replicas && from != v
    ensures SimTo(cfg, s, v, AfterAck(cfg, r1, from, wasPaused), s')
  {
    hide Good, Grows, NodeSim, SendAppend, BcastAppend, MaybeCommit, Commits;
    var r2 := MaybeCommit(r1);
    var s1 := CommitSim(cfg, s, v, r1);
    CommitState(r1);
    if Commits(r1) {
      s' := BcastSim(cfg, s1, v, r2);
      Join(cfg, s, s1, s', v, Res(r2, {}), BcastAppend(cfg, r2));
    } else if wasPaused {
      s' := SendSim(cfg, s1, v, r2, from);
      Join(cfg, s, s1, s', v, Res(r2, {}), SendAppend(cfg, r2, from));
    } else {
      s' := s1;
    }
  }

  lemma CommitState(r: Fsm)
    requires r.replicas != map[]
    ensures MaybeCommit(r).state == r.state && MaybeCommit(r).replicas.Keys == r.replicas.Keys
  {
    hide Commits, Matches, QuorumIndex.Agreed;
  }

  lemma HeartbeatProgress(cfg: Config, s: C.State, r: Fsm, k: Id, pr: Progress)
    requires ProgressOk(cfg, s, r, k, pr) && cfg.maxInflight > 0
    ensures pr.state == Replicate && pr.Full() ==> pr.window != [] && ProgressOk(cfg, s, r, k, pr.FreeTo(pr.window[0]))
  {
    if pr.state == Replicate && pr.Full() {
      DropFirst(pr.window, pr.matched, pr.next);
      hide DropUpTo;
    }
  }

  lemma HeartbeatSim(cfg: Config, s: C.State, v: Id, r: Fsm, from: Id) returns (s': C.State)
    requires Good(s) && NodeSim(cfg, s, v, r) && r.state == StateLeader && from in r.replicas && from != v && cfg.maxInflight > 0
    ensures SimTo(cfg, s, v, LeaderHeartbeat(cfg, r, from), s')
  {
    hide Good, Grows, ProgressOk, SendAppend;
    var pr := r.replicas[from];
    assert ProgressOk(cfg, s, r, from, pr);
    HeartbeatProgress(cfg, s, r, from, pr);
    var freed := if pr.state == Replicate && pr.Full() && pr.window != [] then pr.FreeTo(pr.window[0]) else pr;
    var r1 := WithProgress(r, from, freed);
    ProgressSim(cfg, s, v, r, from, freed);
    var sent := !freed.pending && (freed.matched < |r.log| || freed.committed < r.committed);
    var s1res := if sent then SendAppend(cfg, r1, from) else Res(r1, {});
    if sent {
      s' := SendSim(cfg, s, v, r1, from);
    } else {
      s' := s;
      SimStay(cfg, s, v, r1);
    }
    SendState(cfg, r1, from);
    Touch(cfg, s, s', v, s1res, from);
  }

  lemma SendState(cfg: Config, r: Fsm, to: Id)
    requires to in r.replicas
    ensures SendAppend(cfg, r, to).r.state == r.state && to in SendAppend(cfg, r, to).r.replicas
  {}

  /** Marking a replica active changes nothing that matters. */
  lemma Touch(cfg: Config, s: C.State, s': C.State, v: Id, a: Res, k: Id)
    requires SimTo(cfg, s, v, a, s') && a.r.state == StateLeader && k in a.r.replicas
    ensures var p := a.r.replicas[k].(active := true);
      SimTo(cfg, s, v, Res(WithProgress(a.r, k, if p.state != Snapshot then p.(pending := false) else p), a.out), s')
    ensures SimTo(cfg, s, v, Res(WithProgress(a.r, k, a.r.replicas[k].(active := true)), a.out), s')
  {
    hide Moves, OutOk, Grows;
    var p := a.r.replicas[k].(active := true);
    assert ProgressOk(cfg, s', a.r, k, a.r.replicas[k]);
    ProgressSim(cfg, s', v, a.r, k, p);
    ProgressSim(cfg, s', v, a.r, k, p.(pending := false));
  }
}
