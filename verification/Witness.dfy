/**
 Concrete runs, built from what single inputs do: three servers elect a leader and commit by majority, and a
 leader of four that applies a removal passes over an entry.
 */
module Witness {
  import opened RaftTypes
  import opened LogSpec
  import opened ProgressSpec
  import opened QuorumIndex
  import opened FsmSpec
  import opened FsmParts
  import opened Cluster
  import opened ApplyOnce
  import C = CoreRaft

  // ---- counting ----

  /** The agreed index, from a majority that has reached it and a minority that has passed it. */
  lemma AgreedBy(m: map<Id, nat>, i: nat, up: set<Id>, above: set<Id>)
    requires |up| >= QuorumSize(|m|) && (forall k :: k in up ==> k in m && m[k] >= i)
    requires |above| < QuorumSize(|m|) && (forall k :: k in m && m[k] > i ==> k in above)
    ensures m != map[] && Agreed(m) == i
  {
    CardSubset(up, Reached(m, i));
    forall j: nat | j > i ensures |Reached(m, j)| < QuorumSize(|m|) { CardSubset(Reached(m, j), above); }
    assert up != {};
    var k :| k in up;
    assert k in m;
    GreatestUnique(m, QuorumSize(|m|), i, Agreed(m));
  }

  // ---- starting and campaigning ----

  lemma StartFresh(cfg: Config, id: Id, peers: map<Id, Peer>)
    ensures Start(cfg, id, peers, HardState(0, NO_LEADER, 0), [], 0) == Fresh(id, peers, [])
  {
    var r := Loaded(id, peers, HardState(0, NO_LEADER, 0), [], 0);
    assert r == Fresh(id, peers, []) && r.log[0..0] == [];
    assert ApplyEnts(cfg, r, []) == Res(r, {});
    assert BecomeFollower(cfg, r, 0, NO_LEADER).replicas == r.replicas;
  }

  /** A candidate of term 1 with an empty log and the votes of g. */
  ghost predicate Campaigning(r: Fsm, id: Id, members: set<Id>, g: set<Id>) {
    && r.id == id && id in members && r.state == StateCandidate && r.term == 1 && r.log == [] && r.committed == 0 && r.applied == 0
    && r.replicas.Keys == members && r.votes.Keys == g && Granted(r.votes) == g && !r.fault
  }

  /** A fresh node's timeout. */
  lemma Campaigns(cfg: Config, id: Id, peers: map<Id, Peer>)
    requires id in peers && |peers| >= 2
    ensures var a := Handle(cfg, Fresh(id, peers, []), HupTick(false));
      && Campaigning(a.r, id, peers.Keys, {id})
      && forall k :: k in peers && k != id ==> Message(id, k, 1, ReqVote(false, 0, 0)) in a.out
  {
    var r := Fresh(id, peers, []);
    assert r.replicas.Keys == peers.Keys && |r.replicas.Keys| == |peers.Keys|;
    assert r.log[0..0] == [] && C.ConfsAbove([], 0) == 0;
    var c := Poll(BecomeCandidate(cfg, r), id, true);
    assert c.replicas.Keys == r.replicas.Keys && Granted(c.votes) == {id};
    assert |c.replicas| == |r.replicas|;
    hide BecomeLeader, BecomeElectionAck;
    assert Hup(cfg, r, false) == Res(c, ToOthers(c, ReqVote(false, 0, 0)));
    assert forall k :: k in c.replicas && k != id ==> Msg(c, k, ReqVote(false, 0, 0)) in ToOthers(c, ReqVote(false, 0, 0));
  }

  function VoteFrom(k: Id, id: Id): Message { Message(k, id, 1, RespVote(false)) }

  lemma MoreGranted(votes: map<Id, bool>, k: Id)
    requires k !in votes && Granted(votes) == votes.Keys
    ensures var v := votes[k := true]; v.Keys == votes.Keys + {k} && Granted(v) == v.Keys
  {}

  /** One more vote: the majority makes the leader, fewer leave the candidate. */
  lemma Voted(cfg: Config, r: Fsm, id: Id, members: set<Id>, g: set<Id>, k: Id)
    requires Campaigning(r, id, members, g) && k in members && k !in g && !cfg.leaseCheck
    ensures var a, p := Handle(cfg, r, Recv(VoteFrom(k, id))), Poll(r, k, true);
      && Campaigning(p, id, members, g + {k})
      && a == (if |g| + 1 == QuorumSize(|members|) then BcastAppend(cfg, BecomeLeader(cfg, p)) else Res(p, {}))
  {
    MoreGranted(r.votes, k);
    var p := Poll(r, k, true);
    assert |p.replicas.Keys| == |members|;
    hide Handle, BecomeLeader, BecomeElectionAck, BecomeFollower, BcastAppend, Granted;
    VoteHandled(cfg, r, id, k);
  }

  lemma VoteHandled(cfg: Config, r: Fsm, id: Id, k: Id)
    requires r.id == id && r.state == StateCandidate && r.term == 1 && k in r.replicas
    ensures Handle(cfg, r, Recv(VoteFrom(k, id))) == CandidateVote(cfg, r, k, true)
  {
    hide CandidateVote;
  }

  // ---- leading ----

  function FirstEntry(): Entry { Entry(1, 1, Normal([])) }

  /** The leader of term 1 with this log, commit index and match indexes; nothing applied, and all replicas can be sent to. */
  ghost predicate Leading(r: Fsm, id: Id, log: seq<Entry>, c: nat, m: map<Id, nat>) {
    && r.id == id && r.state == StateLeader && r.leader == id && r.term == 1 && r.log == log && r.committed == c && r.applied == 0
    && Matches(r.replicas) == m && id in m && !r.fault && c <= |log| && Sendable(r.replicas)
  }

  ghost predicate Sendable(replicas: map<Id, Progress>) {
    forall k :: k in replicas ==> replicas[k].next >= 1 && replicas[k].state != Snapshot
  }

  lemma MatchKeys(replicas: map<Id, Progress>)
    ensures Matches(replicas).Keys == replicas.Keys
  {}

  lemma Broadcasts(cfg: Config, r: Fsm, id: Id, log: seq<Entry>, c: nat, m: map<Id, nat>)
    requires Leading(r, id, log, c, m)
    ensures Leading(BcastAppend(cfg, r).r, id, log, c, m) && BcastAppend(cfg, r).r.pendingConf == r.pendingConf
  {
    hide Batch, Matches;
    BcastMatches(cfg, r);
  }

  lemma Sends(cfg: Config, r: Fsm, id: Id, log: seq<Entry>, c: nat, m: map<Id, nat>, k: Id)
    requires Leading(r, id, log, c, m) && k in r.replicas
    ensures Leading(SendAppend(cfg, r, k).r, id, log, c, m) && SendAppend(cfg, r, k).r.pendingConf == r.pendingConf
  {
    var p := SendProgress(cfg, r, r.replicas[k]);
    assert p.matched == r.replicas[k].matched && p.next >= 1 && p.state != Snapshot by { hide Batch; }
    SameMatches(r.replicas, k, p);
    hide Matches, SendProgress, SendOut;
  }

  /** Committing by majority. */
  lemma CommitsTo(r: Fsm, id: Id, log: seq<Entry>, c: nat, m: map<Id, nat>)
    requires Leading(r, id, log, c, m)
    ensures Leading(MaybeCommit(r), id, log, Raised(log, 1, c, m), m) && MaybeCommit(r).pendingConf == r.pendingConf
    ensures Commits(r) <==> Raised(log, 1, c, m) > c
  {
    MatchKeys(r.replicas);
    assert r.replicas != map[];
    CommitMatches(r);
    CommitSendable(r);
    hide Matches, Agreed, Sendable;
  }

  lemma CommitSendable(r: Fsm)
    requires Sendable(r.replicas)
    ensures Sendable(MaybeCommit(r).replicas)
  {
    hide Commits, Matches, Agreed;
  }

  /** An acknowledgement. */
  function AckFrom(k: Id, id: Id, index: nat): Message { Message(k, id, 1, RespAppend(false, index, 0, 0)) }

  lemma AckProgress(p: Progress, index: nat, commit: nat)
    requires p.next >= 1 && p.state != Snapshot && index > p.matched
    ensures var q := Acknowledged(p, index, commit); q.matched == index && q.next >= 1 && q.state != Snapshot
  {}

  lemma SetMatch(replicas: map<Id, Progress>, k: Id, p: Progress)
    requires k in replicas
    ensures Matches(replicas[k := p]) == Matches(replicas)[k := p.matched]
  {}

  /** The leader's state once the acknowledgement is on record. */
  function WithAck(r: Fsm, k: Id, index: nat): Fsm
    requires k in r.replicas
  {
    WithProgress(r, k, Acknowledged(r.replicas[k].(active := true), index, 0))
  }

  lemma AckRecorded(r: Fsm, id: Id, log: seq<Entry>, c: nat, m: map<Id, nat>, k: Id, index: nat)
    requires Leading(r, id, log, c, m) && k in m && index > m[k]
    ensures k in r.replicas && r.replicas[k].matched == m[k] && Leading(WithAck(r, k, index), id, log, c, m[k := index])
  {
    MatchKeys(r.replicas);
    assert Matches(r.replicas)[k] == r.replicas[k].matched;
    var pr := Acknowledged(r.replicas[k].(active := true), index, 0);
    AckProgress(r.replicas[k].(active := true), index, 0);
    SetMatch(r.replicas, k, pr);
    hide Matches, Acknowledged;
  }

  lemma Acknowledges(cfg: Config, r: Fsm, id: Id, log: seq<Entry>, c: nat, m: map<Id, nat>, k: Id, index: nat)
    requires Leading(r, id, log, c, m) && k in m && k != id && index > m[k]
    ensures var a, m' := Handle(cfg, r, Recv(AckFrom(k, id, index))).r, m[k := index];
      Leading(a, id, log, Raised(log, 1, c, m'), m') && a.pendingConf == r.pendingConf
  {
    hide Handle, Leading, Raised, MaybeCommit, Commits, BcastAppend, SendAppend, Matches, Acknowledged;
    AckRecorded(r, id, log, c, m, k, index);
    LeadingFacts(r, id, log, c, m);
    AckHandled(cfg, r, id, k, index);
    var r1, m' := WithAck(r, k, index), m[k := index];
    var c' := Raised(log, 1, c, m');
    CommitsTo(r1, id, log, c, m');
    var r2 := MaybeCommit(r1);
    LeadingFacts(r2, id, log, c', m');
    Broadcasts(cfg, r2, id, log, c', m');
    Sends(cfg, r2, id, log, c', m', k);
  }

  lemma LeadingFacts(r: Fsm, id: Id, log: seq<Entry>, c: nat, m: map<Id, nat>)
    requires Leading(r, id, log, c, m)
    ensures r.replicas.Keys == m.Keys && c <= |log| && r.id == id && r.state == StateLeader && r.term == 1 && r.leader == id
  {
    MatchKeys(r.replicas);
  }

  lemma AckHandled(cfg: Config, r: Fsm, id: Id, k: Id, index: nat)
    requires r.id == id && r.state == StateLeader && r.term == 1 && k in r.replicas
    requires index > r.replicas[k].matched
    ensures var r1 := WithAck(r, k, index); var r2 := MaybeCommit(r1);
      Handle(cfg, r, Recv(AckFrom(k, id, index))) ==
        if Commits(r1) then BcastAppend(cfg, r2)
        else if r.replicas[k].IsPaused() then SendAppend(cfg, r2, k) else Res(r2, {})
  {
    var r0 := WithProgress(r, k, r.replicas[k].(active := true));
    hide MaybeCommit, Commits, BcastAppend, SendAppend, Acknowledged, LeaderReject, LeaderProp, LeaderHeartbeat;
    assert r0.replicas[k := Acknowledged(r0.replicas[k], index, 0)] == r.replicas[k := Acknowledged(r0.replicas[k], index, 0)];
    assert Handle(cfg, r, Recv(AckFrom(k, id, index))) == LeaderAck(cfg, r0, k, index, 0);
  }

  /** The heartbeat tick lets the others go on. */
  lemma Resumes(cfg: Config, r: Fsm, id: Id, log: seq<Entry>, c: nat, m: map<Id, nat>)
    requires Leading(r, id, log, c, m)
    ensures var a := Handle(cfg, r, ResumeTick).r; Leading(a, id, log, c, m) && a.pendingConf == r.pendingConf
  {
    assert Matches(Resume(r).replicas) == Matches(r.replicas);
  }

  /** A ready turn with nothing to apply persists and sends, and leaves the state as it is. */
  lemma IdleTurn(cfg: Config, r: Fsm)
    requires r.applied == r.committed <= |r.log|
    ensures Handle(cfg, r, ReadyTurn).r == r
  {
    assert r.log[r.applied..r.committed] == [];
    assert ApplyEnts(cfg, r, []) == Res(r, {});
  }

  // ---- taking office and proposing ----

  lemma Appends(cfg: Config, r: Fsm, id: Id, log: seq<Entry>, c: nat, m: map<Id, nat>, e: Entry)
    requires Leading(r, id, log, c, m) && e.term == 1 && e.index == |log| + 1 && m[id] <= |log| + 1
    ensures var a, log', m' := AppendEntry(cfg, r, [e]), log + [e], m[id := |log| + 1];
      Leading(a, id, log', Raised(log', 1, c, m'), m') && a.pendingConf == r.pendingConf
  {
    LeadingFacts(r, id, log, c, m);
    assert Matches(r.replicas)[id] == r.replicas[id].matched;
    var log', p := log + [e], r.replicas[id].MaybeUpdate(|log| + 1, c);
    assert AppendEnts(0, log, [e]) == log' by { assert log[..|log|] == log; }
    var r2 := r.(log := log', replicas := r.replicas[id := p]);
    SetMatch(r.replicas, id, p);
    hide Matches, MaybeCommit, AppendEnts, Raised;
    assert AppendEntry(cfg, r, [e]) == MaybeCommit(r2);
    CommitsTo(r2, id, log', c, m[id := |log| + 1]);
  }

  function Zeros(members: set<Id>): map<Id, nat> { map k | k in members :: 0 }

  lemma ZerosAgree(members: set<Id>, id: Id)
    requires id in members && |members| >= 2
    ensures Raised([FirstEntry()], 1, 0, Zeros(members)[id := 1]) == 0
  {
    var m := Zeros(members)[id := 1];
    assert m.Keys == members && |m.Keys| == |members|;
    AgreedBy(m, 0, members, {id});
  }

  ghost function InOffice(cfg: Config, r: Fsm): Fsm {
    Reset(cfg, r, 1, 0, true).(leader := r.id, state := StateLeader, acks := {})
  }

  lemma OfficeLeads(cfg: Config, r: Fsm, id: Id, members: set<Id>, g: set<Id>)
    requires Campaigning(r, id, members, g)
    ensures Leading(InOffice(cfg, r), id, [], 0, Zeros(members)) && !InOffice(cfg, r).pendingConf
  {
    assert Matches(InOffice(cfg, r).replicas) == Zeros(members);
  }

  lemma OfficeOpens(cfg: Config, r: Fsm, id: Id)
    requires r.log == [] && r.committed == 0 && r.term == 1 && !r.pendingConf
    ensures Opened(cfg, r) == AppendEntry(cfg, r, [FirstEntry()])
  {
    hide AppendEntry;
    assert r.log[r.committed..] == [] && C.ConfsAbove([], 0) == 0;
    assert r.(pendingConf := false) == r;
  }

  lemma OfficeTaken(cfg: Config, r: Fsm, id: Id, members: set<Id>, g: set<Id>)
    requires Campaigning(r, id, members, g)
    ensures id in members && BecomeLeader(cfg, r) == Opened(cfg, InOffice(cfg, r))
  {
    hide BecomeLeader, Opened, Reset;
    LeaderOpens(cfg, r);
  }

  lemma OfficeShape(cfg: Config, r: Fsm, id: Id, m: map<Id, nat>)
    requires Leading(r, id, [], 0, m)
    ensures r.log == [] && r.committed == 0 && r.term == 1
  {}

  lemma TakesOffice(cfg: Config, r: Fsm, id: Id, members: set<Id>, g: set<Id>)
    requires Campaigning(r, id, members, g) && |members| >= 2
    ensures var a := BecomeLeader(cfg, r); Leading(a, id, [FirstEntry()], 0, Zeros(members)[id := 1]) && !a.pendingConf
  {
    hide Leading, Campaigning, BecomeLeader, AppendEntry, Opened, InOffice, Raised, Matches;
    OfficeTaken(cfg, r, id, members, g);
    OfficeLeads(cfg, r, id, members, g);
    OfficeShape(cfg, InOffice(cfg, r), id, Zeros(members));
    OfficeOpens(cfg, InOffice(cfg, r), id);
    Appends(cfg, InOffice(cfg, r), id, [], 0, Zeros(members), FirstEntry());
    assert [] + [FirstEntry()] == [FirstEntry()];
    ZerosAgree(members, id);
  }

  lemma SubmitHandled(cfg: Config, r: Fsm, id: Id, p: Payload)
    requires r.id == id && r.state == StateLeader && r.leader == id && id in r.replicas && (p.Normal? || !r.pendingConf)
    ensures var e := Entry(r.term, |r.log| + 1, p);
      Handle(cfg, r, Submit([p])) == BcastAppend(cfg, AppendEntry(cfg, r.(pendingConf := r.pendingConf || p.Conf?), [e]))
  {
    hide AppendEntry, BcastAppend, LeaderAck, LeaderReject, LeaderHeartbeat;
    var e := Entry(r.term, |r.log| + 1, p);
    assert Proposal(r, [p]) == [e];
    assert Screen([e], r.pendingConf) == [e] by { assert [e][1..] == [] && Screen([], true) == [] && Screen([], false) == []; }
    assert AnyConf([e]) == p.Conf? by { assert [e][0] == e; }
  }

  /** A proposal that no majority has yet. */
  lemma Submits(cfg: Config, r: Fsm, id: Id, log: seq<Entry>, c: nat, m: map<Id, nat>, p: Payload)
    requires Leading(r, id, log, c, m) && m[id] <= |log| + 1 && (p.Normal? || !r.pendingConf)
    ensures var a, log', m' := Handle(cfg, r, Submit([p])).r, log + [Entry(1, |log| + 1, p)], m[id := |log| + 1];
      Leading(a, id, log', Raised(log', 1, c, m'), m') && a.pendingConf == (r.pendingConf || p.Conf?)
  {
    hide Handle, AppendEntry, BcastAppend, Raised, Matches;
    LeadingFacts(r, id, log, c, m);
    SubmitHandled(cfg, r, id, p);
    var r1, e := r.(pendingConf := r.pendingConf || p.Conf?), Entry(1, |log| + 1, p);
    Appends(cfg, r1, id, log, c, m, e);
    Broadcasts(cfg, AppendEntry(cfg, r1, [e]), id, log + [e], Raised(log + [e], 1, c, m[id := |log| + 1]), m[id := |log| + 1]);
  }
}
