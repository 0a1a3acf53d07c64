/** From what is submitted to what is logged, and from what state machines are given back to what was submitted. */
module Submissions {
  import opened RaftTypes
  import opened LogSpec
  import opened ProgressSpec
  import opened FsmSpec
  import opened FsmParts
  import opened Cluster
  import opened ClusterSim
  import opened SimApply
  import opened Batched
  import opened BatchedSafety
  import opened GivenExactly
  import opened ReadyLoopSafety
  import RaftSafety

  // ---- one submission ----

  /** A configuration change while another is pending is logged as an empty entry; anything else as it is. */
  ghost function Logged(payloads: seq<Payload>, pending: bool, i: nat): Payload
    requires i < |payloads|
  {
    if payloads[i].Conf? && (pending || exists j :: 0 <= j < i && payloads[j].Conf?) then Normal([]) else payloads[i]
  }

  lemma {:induction false} ScreenAt(ents: seq<Entry>, pending: bool, i: nat)
    requires i < |ents|
    ensures |Screen(ents, pending)| == |ents|
    ensures var blank := ents[i].payload.Conf? && (pending || exists j :: 0 <= j < i && ents[j].payload.Conf?);
      Screen(ents, pending)[i] == if blank then Entry(ents[i].term, ents[i].index, Normal([])) else ents[i]
    decreases |ents|
  {
    var rest, p := ents[1..], pending || ents[0].payload.Conf?;
    ScreenPlace(ents, pending);
    if i > 0 {
      ScreenAt(rest, p, i - 1);
      assert rest[i - 1] == ents[i] && Screen(ents, pending)[i] == Screen(rest, p)[i - 1];
      assert (exists j :: 0 <= j < i && ents[j].payload.Conf?) <==> ents[0].payload.Conf? || exists j :: 0 <= j < i - 1 && rest[j].payload.Conf? by {
        if j :| 0 <= j < i && ents[j].payload.Conf? && j > 0 { assert rest[j - 1].payload.Conf?; }
        if j :| 0 <= j < i - 1 && rest[j].payload.Conf? { assert ents[j + 1].payload.Conf?; }
      }
    }
  }

  lemma ProposalScreened(r: Fsm, payloads: seq<Payload>, i: nat)
    requires i < |payloads|
    ensures var s := Screen(Proposal(r, payloads), r.pendingConf);
      |s| == |payloads| && s[i] == Entry(r.term, |r.log| + 1 + i, Logged(payloads, r.pendingConf, i))
  {
    var ents := Proposal(r, payloads);
    ScreenAt(ents, r.pendingConf, i);
    assert forall j :: 0 <= j < |payloads| ==> ents[j].payload == payloads[j];
  }

  lemma SubmitHandled(cfg: Config, r: Fsm, payloads: seq<Payload>)
    requires r.state == StateLeader && r.leader == r.id && r.id in r.replicas
    ensures Handle(cfg, r, Submit(payloads)) == LeaderProp(cfg, r, Proposal(r, payloads))
  {
    hide LeaderProp, LeaderAck, LeaderReject, LeaderHeartbeat;
  }

  lemma AppendLog(cfg: Config, r: Fsm, ents: seq<Entry>)
    requires r.id in r.replicas && r.committed <= |r.log| && (ents != [] ==> ents[0].index == |r.log| + 1)
    ensures var a := AppendEntry(cfg, r, ents);
      a.log == r.log + ents && a.term == r.term && a.state == r.state && a.pendingConf == r.pendingConf
  {
    hide Commits, Matches;
    assert r.log[..|r.log|] == r.log;
  }

  /**
   A leader logs a batch in the order submitted: the old log, then an entry of its term for each proposal, with the
   proposal's payload or empty.
   */
  lemma SubmitLogged(cfg: Config, r: Fsm, payloads: seq<Payload>)
    requires r.state == StateLeader && r.leader == r.id && r.id in r.replicas && r.committed <= |r.log|
    ensures var a := Handle(cfg, r, Submit(payloads)).r;
      && a.term == r.term && a.state == StateLeader
      && |a.log| == |r.log| + |payloads| && r.log <= a.log
      && (forall i :: 0 <= i < |payloads| ==>
            a.log[|r.log| + i] == Entry(r.term, |r.log| + 1 + i, Logged(payloads, r.pendingConf, i)))
      && (a.pendingConf <==> r.pendingConf || exists i :: 0 <= i < |payloads| && payloads[i].Conf?)
  {
    hide Handle, AppendEntry, Screen, Logged;
    var ents := Proposal(r, payloads);
    var s := Screen(ents, r.pendingConf);
    forall i | 0 <= i < |payloads|
      ensures |s| == |payloads| && s[i] == Entry(r.term, |r.log| + 1 + i, Logged(payloads, r.pendingConf, i))
    {
      ProposalScreened(r, payloads, i);
    }
    SubmitHandled(cfg, r, payloads);
    if payloads != [] {
      ProposalScreened(r, payloads, 0);
      var r1 := r.(pendingConf := r.pendingConf || AnyConf(ents));
      AppendLog(cfg, r1, s);
      assert AnyConf(ents) <==> exists i :: 0 <= i < |payloads| && payloads[i].Conf? by {
        if i :| 0 <= i < |payloads| && payloads[i].Conf? { assert ents[i].payload.Conf?; }
      }
    }
  }

  /** Anybody else turns the batch away. */
  lemma SubmitRefused(cfg: Config, r: Fsm, payloads: seq<Payload>)
    requires r.leader != r.id
    ensures Handle(cfg, r, Submit(payloads)) == Res(r, {})
  {}

  // ---- where entries come from ----

  ghost predicate Known(base: iset<Entry>, e: Entry) { e.payload == Normal([]) || e in base }

  ghost predicate LogKnown(base: iset<Entry>, log: seq<Entry>) { forall i :: 0 <= i < |log| ==> Known(base, log[i]) }

  ghost predicate Says(base: iset<Entry>, out: set<Message>) {
    forall m :: m in out ==> !m.body.Prop? && (m.body.ReqAppend? ==> LogKnown(base, m.body.ents))
  }

  ghost predicate Sound(base: iset<Entry>, a: Res) { LogKnown(base, a.r.log) && Says(base, a.out) }

  lemma AppendEntsKnown(base: iset<Entry>, log: seq<Entry>, ents: seq<Entry>)
    requires LogKnown(base, log) && LogKnown(base, ents) && (ents != [] ==> 0 < ents[0].index <= |log| + 1)
    ensures LogKnown(base, AppendEnts(0, log, ents))
  {}

  lemma AppendEntryKnown(base: iset<Entry>, cfg: Config, r: Fsm, ents: seq<Entry>)
    requires LogKnown(base, r.log) && LogKnown(base, ents)
    ensures LogKnown(base, AppendEntry(cfg, r, ents).log)
  {
    hide Commits, Matches, AppendEnts;
    if r.id in r.replicas && (ents != [] ==> r.committed < ents[0].index <= |r.log| + 1) { AppendEntsKnown(base, r.log, ents); }
  }

  lemma LeadKnown(base: iset<Entry>, cfg: Config, r: Fsm)
    requires LogKnown(base, r.log)
    ensures LogKnown(base, BecomeLeader(cfg, r).log)
  {
    hide AppendEntry;
    if r.committed <= |r.log| {
      LeaderOpens(cfg, r);
      var r1 := Reset(cfg, r, r.term, |r.log|, true).(leader := r.id, state := StateLeader, acks := {});
      var pending := CoreConfs(r1) == 1;
      AppendEntryKnown(base, cfg, r1.(pendingConf := pending), [Entry(r.term, |r.log| + 1, Normal([]))]);
    }
  }

  ghost function CoreConfs(r: Fsm): nat
    requires r.committed <= |r.log|
  {
    CoreRaft.ConfsAbove(r.log[r.committed..], 0)
  }

  lemma BatchKnown(base: iset<Entry>, cfg: Config, log: seq<Entry>, next: nat)
    requires LogKnown(base, log)
    ensures LogKnown(base, Batch(cfg, log, next))
  {}

  lemma SendKnown(base: iset<Entry>, cfg: Config, r: Fsm, to: Id)
    requires LogKnown(base, r.log)
    ensures Sound(base, SendAppend(cfg, r, to))
  {
    hide Batch;
    if to in r.replicas { BatchKnown(base, cfg, r.log, r.replicas[to].next); }
  }

  lemma BcastKnown(base: iset<Entry>, cfg: Config, r: Fsm)
    requires LogKnown(base, r.log)
    ensures Sound(base, BcastAppend(cfg, r))
  {
    hide Batch;
    forall k | k in r.replicas ensures LogKnown(base, Batch(cfg, r.log, r.replicas[k].next)) {
      BatchKnown(base, cfg, r.log, r.replicas[k].next);
    }
  }

  lemma AckRoundKnown(base: iset<Entry>, cfg: Config, r: Fsm)
    requires LogKnown(base, r.log)
    ensures Sound(base, BecomeElectionAck(cfg, r))
  {
    hide BecomeLeader;
    LeadKnown(base, cfg, r.(acks := {r.id}));
  }

  lemma HupKnown(base: iset<Entry>, cfg: Config, r: Fsm, force: bool)
    requires LogKnown(base, r.log)
    ensures Sound(base, Hup(cfg, r, force))
  {
    hide BecomeLeader, BecomeElectionAck;
    var c := Poll(BecomeCandidate(cfg, r), r.id, true);
    LeadKnown(base, cfg, c);
    AckRoundKnown(base, cfg, c);
  }

  lemma HandleAppendKnown(base: iset<Entry>, cfg: Config, r: Fsm, from: Id, index: nat, logTerm: nat, commit: nat, ents: seq<Entry>)
    requires LogKnown(base, r.log) && LogKnown(base, ents)
    ensures Sound(base, HandleAppend(cfg, r, from, index, logTerm, commit, ents))
  {
    hide FindConflict, AppendEnts, TermIn;
    if index >= r.committed && Consecutive(ents, index) {
      var ci := FindConflict(0, 0, r.log, ents);
      ConflictPlace(0, 0, r.log, ents, index);
      if ci != 0 && r.committed < ci <= |r.log| + 1 {
        var rest := ents[ci - (index + 1)..];
        assert rest[0].index == ci;
        AppendEntsKnown(base, r.log, rest);
      }
    }
  }

  lemma CandidateKnown(base: iset<Entry>, cfg: Config, r: Fsm, from: Id, granted: bool)
    requires LogKnown(base, r.log)
    ensures Sound(base, CandidateVote(cfg, r, from, granted))
  {
    hide BecomeLeader, BecomeElectionAck, BcastAppend;
    var r1 := Poll(r, from, granted);
    LeadKnown(base, cfg, r1);
    AckRoundKnown(base, cfg, r1);
    BcastKnown(base, cfg, BecomeLeader(cfg, r1));
  }

  lemma ElectionAckedKnown(base: iset<Entry>, cfg: Config, r: Fsm, from: Id)
    requires LogKnown(base, r.log)
    ensures Sound(base, ElectionAcked(cfg, r, from))
  {
    hide BecomeLeader, BcastAppend;
    if from in r.replicas {
      var r1 := r.(replicas := r.replicas[from := r.replicas[from].(active := true)], acks := r.acks + {from});
      LeadKnown(base, cfg, r1);
      BcastKnown(base, cfg, BecomeLeader(cfg, r1));
    }
  }

  lemma ScreenKnown(base: iset<Entry>, ents: seq<Entry>, pending: bool)
    requires LogKnown(base, ents)
    ensures LogKnown(base, Screen(ents, pending))
  {
    forall i | 0 <= i < |Screen(ents, pending)| ensures Known(base, Screen(ents, pending)[i]) {
      ScreenPlace(ents, pending);
      ScreenAt(ents, pending, i);
      assert Known(base, ents[i]);
    }
  }

  lemma PropKnown(base: iset<Entry>, cfg: Config, r: Fsm, ents: seq<Entry>)
    requires LogKnown(base, r.log) && LogKnown(base, ents)
    ensures Sound(base, LeaderProp(cfg, r, ents))
  {
    hide AppendEntry, BcastAppend, Screen;
    if r.id in r.replicas && ents != [] {
      var r1 := r.(pendingConf := r.pendingConf || AnyConf(ents));
      ScreenKnown(base, ents, r.pendingConf);
      AppendEntryKnown(base, cfg, r1, Screen(ents, r.pendingConf));
      BcastKnown(base, cfg, AppendEntry(cfg, r1, Screen(ents, r.pendingConf)));
    }
  }

  lemma CommitLog(r: Fsm)
    ensures MaybeCommit(r).log == r.log
  {
    hide Commits, Matches, QuorumIndex.Agreed;
  }

  lemma RepliesKnown(base: iset<Entry>, cfg: Config, r: Fsm, m: Message)
    requires LogKnown(base, r.log) && m.from in r.replicas && (m.body.RespAppend? || m.body.RespHeartBeat?) && r.state == StateLeader
    ensures Sound(base, StepLeader(cfg, r, m))
  {
    hide SendAppend, BcastAppend, MaybeCommit, Commits, Acknowledged;
    if m.body.RespHeartBeat? {
      HeartbeatKnown(base, cfg, r, m.from);
    } else {
      var r1 := WithProgress(r, m.from, r.replicas[m.from].(active := true));
      if m.body.reject {
        RejectKnown(base, cfg, r1, m.from, m.body.index, m.body.rejectIndex, m.body.commit);
      } else {
        AckKnown(base, cfg, r1, m.from, m.body.index, m.body.commit);
      }
    }
  }

  lemma HeartbeatKnown(base: iset<Entry>, cfg: Config, r: Fsm, from: Id)
    requires LogKnown(base, r.log) && from in r.replicas
    ensures Sound(base, LeaderHeartbeat(cfg, r, from))
  {
    hide SendProgress, SendOut;
    var pr := r.replicas[from];
    var freed := if pr.state == Replicate && pr.Full() && pr.window != [] then pr.FreeTo(pr.window[0]) else pr;
    SendKnown(base, cfg, WithProgress(r, from, freed).(fault := r.fault || (pr.state == Replicate && pr.Full() && pr.window == [])), from);
  }

  lemma RejectKnown(base: iset<Entry>, cfg: Config, r: Fsm, from: Id, index: nat, last: nat, commit: nat)
    requires LogKnown(base, r.log) && from in r.replicas
    ensures Sound(base, LeaderReject(cfg, r, from, index, last, commit))
  {
    hide SendAppend;
    var pr1 := r.replicas[from].MaybeDecrTo(index, last, commit);
    SendKnown(base, cfg, WithProgress(r, from, if pr1.state == Replicate then pr1.BecomeProbe() else pr1), from);
  }

  lemma AckKnown(base: iset<Entry>, cfg: Config, r: Fsm, from: Id, index: nat, commit: nat)
    requires LogKnown(base, r.log) && from in r.replicas
    ensures Sound(base, LeaderAck(cfg, r, from, index, commit))
  {
    hide SendAppend, BcastAppend, MaybeCommit, Commits, Acknowledged;
    var r1 := WithProgress(r, from, Acknowledged(r.replicas[from], index, commit));
    CommitLog(r1);
    BcastKnown(base, cfg, MaybeCommit(r1));
    SendKnown(base, cfg, MaybeCommit(r1), from);
  }

  lemma DispatchKnown(base: iset<Entry>, cfg: Config, r: Fsm, m: Message)
    requires LogKnown(base, r.log) && (m.body.Prop? ==> r.state == StateLeader && LogKnown(base, m.body.ents))
    requires m.body.ReqAppend? ==> LogKnown(base, m.body.ents)
    ensures Sound(base, Dispatch(cfg, r, m))
  {
    hide HandleAppend, Hup, CandidateVote, ElectionAcked, LeaderProp, LeaderAck, LeaderReject, LeaderHeartbeat, Grants;
    var b := m.body;
    if b.Prop? {
      PropKnown(base, cfg, r, b.ents);
    } else if b.ReqAppend? {
      HandleAppendKnown(base, cfg, r.(leader := m.from), m.from, b.index, b.logTerm, b.commit, b.ents);
      HandleAppendKnown(base, cfg, BecomeFollower(cfg, r, r.term, m.from), m.from, b.index, b.logTerm, b.commit, b.ents);
    } else if b.RespVote? {
      CandidateKnown(base, cfg, r, m.from, !b.reject);
    } else if b.RespElectAck? {
      ElectionAckedKnown(base, cfg, r, m.from);
    } else if b.LeaseTimeout? {
      HupKnown(base, cfg, r, false);
    } else if r.state == StateLeader && m.from in r.replicas && (b.RespAppend? || b.RespHeartBeat?) {
      RepliesKnown(base, cfg, r, m);
    }
  }

  lemma StepKnown(base: iset<Entry>, cfg: Config, r: Fsm, m: Message)
    requires LogKnown(base, r.log) && (m.body.Prop? ==> r.state == StateLeader && LogKnown(base, m.body.ents) && m.term == 0)
    requires m.body.ReqAppend? ==> LogKnown(base, m.body.ents)
    ensures Sound(base, Step(cfg, r, m))
  {
    hide Dispatch;
    DispatchKnown(base, cfg, r, m);
    if m.term > r.term {
      DispatchKnown(base, cfg, BecomeFollower(cfg, r, m.term, if m.body.ReqVote? then NO_LEADER else m.from), m);
    }
  }

  /** An input in memory logs and sends nothing but what was known, its own message's and its own submission's entries. */
  lemma InputKnown(base: iset<Entry>, cfg: Config, r: Fsm, e: Event)
    requires LogKnown(base, r.log) && InMemory(e) && (e.Recv? ==> Says(base, {e.m}))
    requires e.Submit? && r.leader == r.id ==> r.state == StateLeader && LogKnown(base, Proposal(r, e.payloads))
    ensures Sound(base, Handle(cfg, r, e))
  {
    hide Step, Hup;
    match e
    case Recv(m) =>
      assert m in {m};
      StepKnown(base, cfg, r, m);
    case HupTick(force) => HupKnown(base, cfg, r, force);
    case Submit(ps) => if r.leader == r.id { StepKnown(base, cfg, r, Message(r.id, NO_LEADER, 0, Prop(Proposal(r, ps)))); }
    case _ =>
  }

  lemma {:induction false} ApplyKnown(base: iset<Entry>, cfg: Config, r: Fsm, ents: seq<Entry>)
    requires LogKnown(base, r.log)
    ensures Sound(base, ApplyEnts(cfg, r, ents))
    decreases |ents|
  {
    if ents != [] {
      hide ApplyOne;
      ApplyOneKnown(base, cfg, r, ents[0]);
      ApplyKnown(base, cfg, ApplyOne(cfg, r, ents[0]).r, ents[1..]);
      ApplyHead(cfg, r, ents);
    }
  }

  lemma ApplyOneKnown(base: iset<Entry>, cfg: Config, r: Fsm, e: Entry)
    requires LogKnown(base, r.log)
    ensures Sound(base, ApplyOne(cfg, r, e))
  {
    hide Commits, BcastAppend, MaybeCommit;
    if e.payload.Conf? {
      var r1 := r.(pendingConf := false, replicas := r.replicas - {e.payload.peer.id});
      CommitLog(r1);
      BcastKnown(base, cfg, MaybeCommit(r1));
    }
  }

  lemma TurnKnown(base: iset<Entry>, cfg: Config, r: Fsm)
    requires LogKnown(base, r.log)
    ensures Sound(base, Ready(cfg, r))
  {
    hide ApplyEnts;
    if InRange(r) { ApplyKnown(base, cfg, r, r.log[r.applied..r.committed]); }
  }

  // ---- runs of the ready loop ----

  /** In step k the leader v took in the batch. */
  ghost predicate Submits(cfg: Config, servers: set<Id>, bs: seq<BWorld>, k: nat, v: Id, batch: seq<Payload>) {
    && k + 1 < |bs| && v in bs[k].nodes && bs[k].nodes[v].mem.state == StateLeader && bs[k].nodes[v].mem.id == v
    && BNextBy(cfg, servers, bs[k], bs[k + 1], v, Work(Submit(batch)))
  }

  /** The entry due to the j-th proposal of a batch that a node in state r takes in. */
  function EntryFor(r: Fsm, batch: seq<Payload>, j: nat): Entry
    requires j < |batch|
  {
    Entry(r.term, |r.log| + 1 + j, batch[j])
  }

  ghost predicate SubmittedAt(cfg: Config, servers: set<Id>, bs: seq<BWorld>, e: Entry, k: nat, v: Id, batch: seq<Payload>, j: nat) {
    Submits(cfg, servers, bs, k, v, batch) && j < |batch| && e == EntryFor(bs[k].nodes[v].mem, batch, j)
  }

  /** Some leader took the entry in at its index and in its term, before time i. */
  ghost predicate Submitted(cfg: Config, servers: set<Id>, bs: seq<BWorld>, i: nat, e: Entry) {
    exists k: nat, v: Id, batch: seq<Payload>, j: nat :: k < i && SubmittedAt(cfg, servers, bs, e, k, v, batch, j)
  }

  ghost function SubmittedBy(cfg: Config, servers: set<Id>, bs: seq<BWorld>, i: nat): iset<Entry> {
    iset e | Submitted(cfg, servers, bs, i, e)
  }

  ghost predicate NodeKnown(base: iset<Entry>, n: BNode) {
    LogKnown(base, n.mem.log) && LogKnown(base, n.stored) && Says(base, n.queue)
  }

  ghost predicate AllKnown(base: iset<Entry>, b: BWorld) {
    (forall v :: v in b.nodes ==> NodeKnown(base, b.nodes[v])) && Says(base, b.net)
  }

  lemma KnownLater(cfg: Config, servers: set<Id>, bs: seq<BWorld>, i: nat, b: BWorld)
    requires AllKnown(SubmittedBy(cfg, servers, bs, i), b)
    ensures AllKnown(SubmittedBy(cfg, servers, bs, i + 1), b)
  {
    hide SubmittedAt;
    var base, more := SubmittedBy(cfg, servers, bs, i), SubmittedBy(cfg, servers, bs, i + 1);
    assert forall e :: e in base ==> e in more;
    forall v | v in b.nodes ensures NodeKnown(more, b.nodes[v]) { assert NodeKnown(base, b.nodes[v]); }
  }

  /** A leader knows itself as leader. */
  lemma LeadsItself(cfg: Config, servers: set<Id>, bs: seq<BWorld>, i: nat, v: Id)
    requires ValidConfig(cfg, servers) && BRun(cfg, servers, bs) && i < |bs| && v in bs[i].nodes
    ensures var r := bs[i].nodes[v].mem; r.id == v && (r.leader == v ==> r.state == StateLeader)
  {
    hide BRun, Init, Next, Good, ProgressInv, VotesOk, Elected, OutOk;
    var ws := InMemoryRun(cfg, servers, bs, i, v, v);
    var ss := RaftSafety.RunLinked(cfg, servers, ws);
    var n := |ws| - 1;
    assert RaftSafety.Linked(cfg, servers, ws[n], ss[n]);
    assert NodeSim(cfg, ss[n], v, ws[n].nodes[v]);
  }

  lemma BatchKnownNow(cfg: Config, servers: set<Id>, bs: seq<BWorld>, k: nat, v: Id, batch: seq<Payload>)
    requires Submits(cfg, servers, bs, k, v, batch)
    ensures LogKnown(SubmittedBy(cfg, servers, bs, k + 1), Proposal(bs[k].nodes[v].mem, batch))
  {
    hide Submits;
    var r := SubmitterState(cfg, servers, bs, k, v, batch);
    forall j | 0 <= j < |batch| ensures Known(SubmittedBy(cfg, servers, bs, k + 1), Proposal(r, batch)[j]) {
      assert SubmittedAt(cfg, servers, bs, Proposal(r, batch)[j], k, v, batch, j);
    }
  }

  lemma SubmitterState(cfg: Config, servers: set<Id>, bs: seq<BWorld>, k: nat, v: Id, batch: seq<Payload>) returns (r: Fsm)
    requires Submits(cfg, servers, bs, k, v, batch)
    ensures k < |bs| && v in bs[k].nodes && r == bs[k].nodes[v].mem
  {
    r := bs[k].nodes[v].mem;
  }

  lemma WorkKnown(cfg: Config, servers: set<Id>, bs: seq<BWorld>, k: nat, v: Id, e: Event)
    requires ValidConfig(cfg, servers) && BRun(cfg, servers, bs) && k + 1 < |bs| && v in bs[k].nodes
    requires BNextBy(cfg, servers, bs[k], bs[k + 1], v, Work(e)) && AllKnown(SubmittedBy(cfg, servers, bs, k + 1), bs[k])
    ensures NodeKnown(SubmittedBy(cfg, servers, bs, k + 1), DoWork(cfg, bs[k].nodes[v], e))
  {
    var base, n := SubmittedBy(cfg, servers, bs, k + 1), bs[k].nodes[v];
    assert NodeKnown(base, n);
    hide Handle, SubmittedBy;
    LeadsItself(cfg, servers, bs, k, v);
    hide BRun;
    if e.Submit? && n.mem.leader == n.mem.id {
      assert Submits(cfg, servers, bs, k, v, e.payloads);
      BatchKnownNow(cfg, servers, bs, k, v, e.payloads);
    }
    assert e.Recv? && !IsHeartbeat(e.m) ==> e.m in bs[k].net;
    InputKnown(base, cfg, n.mem, e);
  }

  lemma NodeReplaced(base: iset<Entry>, b: BWorld, v: Id, n: BNode, out: set<Message>)
    requires AllKnown(base, b) && NodeKnown(base, n) && Says(base, out)
    ensures AllKnown(base, BWorld(b.nodes[v := n], b.net + out))
  {}

  lemma TurnNodeKnown(base: iset<Entry>, cfg: Config, n: BNode)
    requires NodeKnown(base, n)
    ensures NodeKnown(base, DoTurn(cfg, n)) && Says(base, n.queue + Ready(cfg, n.mem).out)
  {
    hide Ready, Handout;
    TurnKnown(base, cfg, n.mem);
  }

  lemma CrashNodeKnown(base: iset<Entry>, cfg: Config, n: BNode, v: Id, peers: map<Id, Peer>, applied: nat)
    requires NodeKnown(base, n) && FixedLog(peers.Keys, n.stored) && applied <= n.hs.commit <= |n.stored|
    ensures NodeKnown(base, DoCrash(cfg, n, v, peers, applied))
  {
    hide Start, Handout, Loaded, Surviving;
    StartShape(cfg, v, peers, n.hs, n.stored, applied);
  }

  lemma StepAllKnown(cfg: Config, servers: set<Id>, bs: seq<BWorld>, k: nat)
    requires ValidConfig(cfg, servers) && BRun(cfg, servers, bs) && k + 1 < |bs| && AllKnown(SubmittedBy(cfg, servers, bs, k), bs[k])
    ensures AllKnown(SubmittedBy(cfg, servers, bs, k + 1), bs[k + 1])
  {
    KnownLater(cfg, servers, bs, k, bs[k]);
    assert BNext(cfg, servers, bs[k], bs[k + 1]);
    var v, e :| BNextBy(cfg, servers, bs[k], bs[k + 1], v, e);
    var base, n := SubmittedBy(cfg, servers, bs, k + 1), bs[k].nodes[v];
    assert NodeKnown(base, n) && Says(base, {});
    hide SubmittedBy, DoWork, DoTurn, DoCrash, Ready, AllKnown, NodeKnown, Says, BRun;
    match e
    case Work(ev) =>
      WorkKnown(cfg, servers, bs, k, v, ev);
      NodeReplaced(base, bs[k], v, DoWork(cfg, n, ev), {});
      assert bs[k].net + {} == bs[k].net;
    case Turn =>
      TurnNodeKnown(base, cfg, n);
      NodeReplaced(base, bs[k], v, DoTurn(cfg, n), n.queue + Ready(cfg, n.mem).out);
    case Crash(peers, applied) =>
      DiskFacts(cfg, servers, bs, k, v);
      CrashNodeKnown(base, cfg, n, v, peers, applied);
      NodeReplaced(base, bs[k], v, DoCrash(cfg, n, v, peers, applied), {});
      assert bs[k].net + {} == bs[k].net;
  }

  lemma {:induction false} RunKnown(cfg: Config, servers: set<Id>, bs: seq<BWorld>, i: nat)
    requires ValidConfig(cfg, servers) && BRun(cfg, servers, bs) && i < |bs|
    ensures AllKnown(SubmittedBy(cfg, servers, bs, i), bs[i])
  {
    hide AllKnown;
    if i == 0 {
      FirstKnown(cfg, servers, bs);
    } else {
      RunKnown(cfg, servers, bs, i - 1);
      StepAllKnown(cfg, servers, bs, i - 1);
    }
  }

  lemma FirstKnown(cfg: Config, servers: set<Id>, bs: seq<BWorld>)
    requires BRun(cfg, servers, bs)
    ensures AllKnown(SubmittedBy(cfg, servers, bs, 0), bs[0])
  {
    hide StartsEmpty, SubmittedBy;
    forall v | v in bs[0].nodes ensures NodeKnown(SubmittedBy(cfg, servers, bs, 0), bs[0].nodes[v]) {
      assert BStarts(cfg, servers, v, bs[0].nodes[v]);
      FirstDurable(cfg, servers, v, bs[0].nodes[v].mem);
    }
  }

  /** Nothing is made up: whatever a state machine has been given was submitted, with that payload, at that index. */
  lemma GivenSubmitted(cfg: Config, servers: set<Id>, bs: seq<BWorld>, i: nat, a: Id, e: Entry)
    requires ValidConfig(cfg, servers) && BRun(cfg, servers, bs) && i < |bs| && a in bs[i].nodes && e in bs[i].nodes[a].given
    ensures Submitted(cfg, servers, bs, i, e)
  {
    hide BRun, Submitted;
    RunKnown(cfg, servers, bs, i);
    GivenExact(cfg, servers, bs, i, a);
    var n := bs[i].nodes[a];
    assert NodeKnown(SubmittedBy(cfg, servers, bs, i), n);
    var k :| 0 <= k < n.hs.commit && n.stored[k] == e;
    assert Known(SubmittedBy(cfg, servers, bs, i), n.stored[k]);
  }

  /** The entries of one batch are given in the order of the batch. */
  lemma BatchInOrder(cfg: Config, servers: set<Id>, bs: seq<BWorld>, i: nat, a: Id, r: Fsm, batch: seq<Payload>, x: nat, y: nat, j: nat, k: nat)
    requires ValidConfig(cfg, servers) && BRun(cfg, servers, bs) && i < |bs| && a in bs[i].nodes
    requires x < |bs[i].nodes[a].given| && y < |bs[i].nodes[a].given| && j < |batch| && k < |batch|
    requires bs[i].nodes[a].given[x] == EntryFor(r, batch, j) && bs[i].nodes[a].given[y] == EntryFor(r, batch, k)
    ensures x < y <==> j < k
  {
    hide BRun;
    GivenExact(cfg, servers, bs, i, a);
  }
}
