/**
 Applying exactly once. Whatever its inputs, a node keeps what it has committed; so its ready turns hand over
 every committed entry once and in order, unless removing a member lets the leader commit further in mid turn.
 */
module ApplyOnce {
  import opened RaftTypes
  import opened LogSpec
  import opened ProgressSpec
  import opened QuorumIndex
  import opened FsmSpec
  import opened FsmParts
  import opened Cluster

  // ---- what is handed over ----

  /** Entries handed over are the non-empty ones, each once and in index order. */
  lemma {:induction false} HandedExact(ents: seq<Entry>, after: nat)
    requires Consecutive(ents, after)
    ensures var h := Handed(ents);
      && (forall e :: e in h <==> e in ents && e.payload != Normal([]))
      && (forall i, j :: 0 <= i < j < |h| ==> h[i].index < h[j].index)
  {
    if ents != [] {
      var n := |ents| - 1;
      HandedExact(ents[..n], after);
      assert ents == ents[..n] + [ents[n]];
    }
  }

  lemma {:induction false} HandedJoin(a: seq<Entry>, b: seq<Entry>)
    ensures Handed(a + b) == Handed(a) + Handed(b)
  {
    if b == [] {
      assert a + b == a;
    } else {
      var n := |b| - 1;
      HandedJoin(a, b[..n]);
      assert (a + b)[..|a + b| - 1] == a + b[..n];
    }
  }

  lemma HandedSplit(log: seq<Entry>, i: nat, j: nat, k: nat)
    requires i <= j <= k <= |log|
    ensures Handed(log[i..k]) == Handed(log[i..j]) + Handed(log[j..k])
  {
    HandedJoin(log[i..j], log[j..k]);
    assert log[i..k] == log[i..j] + log[j..k];
  }

  // ---- no input undoes a commit ----

  /** What was committed stays in place, and the applied index is not touched. */
  ghost predicate Kept(r: Fsm, r': Fsm) {
    && r.committed <= |r.log| && r.committed <= r'.committed <= |r'.log|
    && r'.log[..r.committed] == r.log[..r.committed] && r'.applied == r.applied
  }

  lemma KeptTrans(a: Fsm, b: Fsm, c: Fsm)
    requires Kept(a, b) && Kept(b, c)
    ensures Kept(a, c)
  {
    assert c.log[..b.committed][..a.committed] == c.log[..a.committed];
    assert b.log[..b.committed][..a.committed] == b.log[..a.committed];
  }

  lemma MaybeCommitKept(r: Fsm)
    requires InRange(r)
    ensures Kept(r, MaybeCommit(r)) && MaybeCommit(r).log == r.log
  {}

  lemma AppendEntsKept(log: seq<Entry>, committed: nat, ents: seq<Entry>)
    requires committed <= |log| && ents != [] && committed < ents[0].index <= |log| + 1
    ensures var log' := AppendEnts(0, log, ents); committed <= |log'| && log'[..committed] == log[..committed]
  {}

  lemma AppendEntryKept(cfg: Config, r: Fsm, ents: seq<Entry>)
    requires InRange(r)
    ensures Kept(r, AppendEntry(cfg, r, ents))
  {
    if r.id in r.replicas && (ents == [] || r.committed < ents[0].index <= |r.log| + 1) {
      if ents != [] { AppendEntsKept(r.log, r.committed, ents); }
      var r1 := r.(log := AppendEnts(0, r.log, ents));
      var r2 := r1.(replicas := r1.replicas[r.id := r1.replicas[r.id].MaybeUpdate(|r1.log|, r1.committed)]);
      hide MaybeCommit, AppendEnts;
      MaybeCommitKept(r2);
      KeptTrans(r, r2, MaybeCommit(r2));
    }
  }

  lemma BecomeLeaderKept(cfg: Config, r: Fsm)
    requires InRange(r)
    ensures Kept(r, BecomeLeader(cfg, r))
  {
    LeaderOpens(cfg, r);
    if r.state != StateFollower {
      var r1 := Reset(cfg, r, r.term, |r.log|, true).(leader := r.id, state := StateLeader, acks := {});
      assert r1.log == r.log && r1.committed == r.committed && r1.applied == r.applied;
      hide Opened, Reset, BecomeLeader;
      OpenedKept(cfg, r1);
    }
  }

  lemma OpenedKept(cfg: Config, r: Fsm)
    requires InRange(r)
    ensures Kept(r, Opened(cfg, r))
  {
    hide AppendEntry;
    var ents := [Entry(r.term, |r.log| + 1, Normal([]))];
    AppendEntryKept(cfg, r.(pendingConf := true), ents);
    AppendEntryKept(cfg, r.(pendingConf := false), ents);
  }

  lemma ElectionAckKept(cfg: Config, r: Fsm)
    requires InRange(r)
    ensures Kept(r, BecomeElectionAck(cfg, r).r)
  {
    hide BecomeLeader;
    BecomeLeaderKept(cfg, r.(acks := {r.id}));
  }

  lemma CampaignKept(cfg: Config, r: Fsm, force: bool)
    requires InRange(r)
    ensures Kept(r, Campaign(cfg, r, force).r)
  {
    hide BecomeLeader, BecomeElectionAck;
    var r1 := Poll(BecomeCandidate(cfg, r), r.id, true);
    BecomeLeaderKept(cfg, r1);
    ElectionAckKept(cfg, r1);
  }

  lemma HupKept(cfg: Config, r: Fsm, force: bool)
    requires InRange(r)
    ensures Kept(r, Hup(cfg, r, force).r)
  {
    hide Campaign;
    CampaignKept(cfg, r, force);
  }

  lemma TakeFromKept(log: seq<Entry>, committed: nat, ci: nat, index: nat, commit: nat, ents: seq<Entry>)
    requires committed <= |log| && Consecutive(ents, index) && (ci != 0 ==> index < ci <= index + |ents|)
    ensures var a := TakeFrom(0, log, committed, ci, index, commit, ents);
      committed <= a.committed <= |a.log| && a.log[..committed] == log[..committed]
  {
    if ci != 0 && committed < ci <= |log| + 1 {
      AppendEntsKept(log, committed, ents[ci - (index + 1)..]);
    }
  }

  lemma HandleAppendKept(cfg: Config, r: Fsm, from: Id, index: nat, logTerm: nat, commit: nat, ents: seq<Entry>)
    requires InRange(r)
    ensures Kept(r, HandleAppend(cfg, r, from, index, logTerm, commit, ents).r)
  {
    hide FindConflict, TakeFrom;
    if Consecutive(ents, index) {
      ConflictPlace(0, 0, r.log, ents, index);
      TakeFromKept(r.log, r.committed, FindConflict(0, 0, r.log, ents), index, commit, ents);
    }
  }

  lemma StepFollowerKept(cfg: Config, r: Fsm, m: Message)
    requires InRange(r)
    ensures Kept(r, StepFollower(cfg, r, m).r)
  {
    hide HandleAppend, Hup, Grants;
    match m.body
    case ReqAppend(index, logTerm, commit, ents) =>
      HandleAppendKept(cfg, r.(leader := m.from), m.from, index, logTerm, commit, ents);
    case LeaseTimeout => HupKept(cfg, r, false);
    case _ =>
  }

  lemma CandidateVoteKept(cfg: Config, r: Fsm, from: Id, granted: bool)
    requires InRange(r)
    ensures Kept(r, CandidateVote(cfg, r, from, granted).r)
  {
    hide BecomeLeader, BecomeElectionAck, Granted;
    BecomeLeaderKept(cfg, Poll(r, from, granted));
    ElectionAckKept(cfg, Poll(r, from, granted));
  }

  lemma StepCandidateKept(cfg: Config, r: Fsm, m: Message)
    requires InRange(r)
    ensures Kept(r, StepCandidate(cfg, r, m).r)
  {
    hide HandleAppend, CandidateVote;
    match m.body
    case ReqAppend(index, logTerm, commit, ents) =>
      HandleAppendKept(cfg, BecomeFollower(cfg, r, r.term, m.from), m.from, index, logTerm, commit, ents);
    case RespVote(reject) => CandidateVoteKept(cfg, r, m.from, !reject);
    case _ =>
  }

  lemma StepElectionAckKept(cfg: Config, r: Fsm, m: Message)
    requires InRange(r)
    ensures Kept(r, StepElectionAck(cfg, r, m).r)
  {
    hide HandleAppend, BecomeLeader;
    match m.body
    case ReqAppend(index, logTerm, commit, ents) =>
      HandleAppendKept(cfg, BecomeFollower(cfg, r, r.term, m.from), m.from, index, logTerm, commit, ents);
    case RespElectAck =>
      if m.from in r.replicas {
        BecomeLeaderKept(cfg, r.(replicas := r.replicas[m.from := r.replicas[m.from].(active := true)], acks := r.acks + {m.from}));
      }
    case _ =>
  }

  lemma LeaderAckKept(cfg: Config, r: Fsm, from: Id, index: nat, commit: nat)
    requires InRange(r) && from in r.replicas
    ensures Kept(r, LeaderAck(cfg, r, from, index, commit).r)
  {
    hide MaybeCommit, Commits, Acknowledged;
    MaybeCommitKept(WithProgress(r, from, Acknowledged(r.replicas[from], index, commit)));
  }

  lemma LeaderPropKept(cfg: Config, r: Fsm, ents: seq<Entry>)
    requires InRange(r)
    ensures Kept(r, LeaderProp(cfg, r, ents).r)
  {
    hide AppendEntry, Screen, AnyConf;
    AppendEntryKept(cfg, r.(pendingConf := r.pendingConf || AnyConf(ents)), Screen(ents, r.pendingConf));
  }

  lemma StepLeaderKept(cfg: Config, r: Fsm, m: Message)
    requires InRange(r)
    ensures Kept(r, StepLeader(cfg, r, m).r)
  {
    hide LeaderProp, LeaderAck;
    match m.body
    case Prop(ents) => LeaderPropKept(cfg, r, ents);
    case RespAppend(reject, index, commit, _) =>
      if m.from in r.replicas {
        LeaderAckKept(cfg, WithProgress(r, m.from, r.replicas[m.from].(active := true)), m.from, index, commit);
      }
    case _ =>
  }

  lemma StepKept(cfg: Config, r: Fsm, m: Message)
    requires InRange(r)
    ensures Kept(r, Step(cfg, r, m).r)
  {
    hide StepFollower, StepCandidate, StepElectionAck, StepLeader;
    var r1 := BecomeFollower(cfg, r, m.term, if m.body.ReqVote? then NO_LEADER else m.from);
    StepFollowerKept(cfg, r1, m);
    StepFollowerKept(cfg, r, m);
    StepCandidateKept(cfg, r, m);
    StepElectionAckKept(cfg, r, m);
    StepLeaderKept(cfg, r, m);
  }

  /** No input but a ready turn or a restart touches what is committed or applied: there is no such message. */
  lemma InputKept(cfg: Config, r: Fsm, e: Event)
    requires InRange(r) && InMemory(e)
    ensures Kept(r, Handle(cfg, r, e).r)
  {
    hide Step, Hup;
    match e
    case Recv(m) => StepKept(cfg, r, m);
    case HupTick(force) => HupKept(cfg, r, force);
    case Submit(ps) => StepKept(cfg, r, Message(r.id, NO_LEADER, 0, Prop(Proposal(r, ps))));
    case _ =>
  }

  // ---- when a turn overtakes itself ----

  /** An entry that takes another member out. */
  predicate Removes(e: Entry, self: Id) {
    e.payload.Conf? && e.payload.kind == RemoveNode && e.payload.peer.id != NO_LEADER && e.payload.peer.id != self
  }

  /** No entry takes this node itself out, so a leader stays one while it applies them. */
  predicate Stays(ents: seq<Entry>, self: Id) {
    forall i :: 0 <= i < |ents| && ents[i].payload.Conf? && ents[i].payload.kind == RemoveNode && self != NO_LEADER
      ==> ents[i].payload.peer.id != self
  }

  /** The members' match indexes after one entry. */
  function MatchAfter(m: map<Id, nat>, e: Entry): map<Id, nat> {
    match e.payload
    case Normal(_) => m
    case Conf(kind, peer, _) =>
      if peer.id == NO_LEADER then m
      else match kind
        case AddNode => if peer.id in m then m else m[peer.id := 0]
        case RemoveNode => m - {peer.id}
        case UpdateNode => m
  }

  function MatchesAfter(m: map<Id, nat>, ents: seq<Entry>): map<Id, nat> {
    if ents == [] then m else MatchAfter(MatchesAfter(m, ents[..|ents| - 1]), ents[|ents| - 1])
  }

  /** Entry i of the batch shrinks the membership so far that entries beyond the batch are agreed on. */
  ghost predicate OvertakenAt(r: Fsm, ents: seq<Entry>, i: nat) {
    && i < |ents| && Removes(ents[i], r.id) && Stays(ents[..i], r.id)
    && var m := MatchesAfter(Matches(r.replicas), ents[..i + 1]);
    m != map[] && r.committed < Agreed(m) <= |r.log| && TermAt(r.log, Agreed(m)) == r.term
  }

  /** What is said of a leader's state while it applies a batch. */
  ghost predicate Applying(r: Fsm, ents: seq<Entry>, a: Fsm) {
    && a.id == r.id && a.log == r.log && a.term == r.term && Kept(r, a)
    && (a.state == StateLeader <==> r.state == StateLeader && Stays(ents, r.id))
    && (a.state == StateLeader ==> Matches(a.replicas) == MatchesAfter(Matches(r.replicas), ents))
    && a.committed == CommitAfter(r, ents)
  }

  /** The commit index a leader comes to when its members have reached `m`. */
  ghost function Raised(log: seq<Entry>, term: nat, committed: nat, m: map<Id, nat>): (c: nat)
    requires committed <= |log|
    ensures committed <= c <= |log|
  {
    if m != map[] && committed < Agreed(m) <= |log| && TermAt(log, Agreed(m)) == term then Agreed(m) else committed
  }

  /** The commit index after a batch, from the match indexes before it: each removal may raise it. */
  ghost function CommitAfter(r: Fsm, ents: seq<Entry>): (c: nat)
    requires r.committed <= |r.log|
    ensures r.committed <= c <= |r.log|
  {
    if ents == [] then r.committed
    else
      var n := |ents| - 1;
      var c := CommitAfter(r, ents[..n]);
      if r.state == StateLeader && Stays(ents[..n], r.id) && Removes(ents[n], r.id)
      then Raised(r.log, r.term, c, MatchesAfter(Matches(r.replicas), ents)) else c
  }

  /** The batch is overtaken: before it has been applied, the leader commits more. */
  ghost predicate Overtaken(r: Fsm, ents: seq<Entry>) {
    r.state == StateLeader && exists i :: OvertakenAt(r, ents, i)
  }

  lemma BcastMatches(cfg: Config, r: Fsm)
    ensures Matches(BcastAppend(cfg, r).r.replicas) == Matches(r.replicas)
  {
    hide Batch;
  }

  lemma SameMatches(replicas: map<Id, Progress>, k: Id, p: Progress)
    requires k in replicas && p.matched == replicas[k].matched
    ensures Matches(replicas[k := p]) == Matches(replicas)
  {}

  lemma CommitMatches(r: Fsm)
    ensures Matches(MaybeCommit(r).replicas) == Matches(r.replicas)
  {
    if r.id in r.replicas {
      hide Commits, Matches;
      forall c: nat ensures Matches(r.replicas[r.id := r.replicas[r.id].(committed := c)]) == Matches(r.replicas) {
        SameMatches(r.replicas, r.id, r.replicas[r.id].(committed := c));
      }
    }
  }

  /** What one entry does to a leader that applies it. */
  ghost predicate AppliedBy(r: Fsm, e: Entry, a: Fsm) {
    var m := MatchAfter(Matches(r.replicas), e);
    && a.id == r.id && a.log == r.log && a.term == r.term && Kept(r, a)
    && (a.state == StateLeader <==> Stays([e], r.id))
    && (a.state == StateLeader ==> Matches(a.replicas) == m)
    && a.committed == (if Removes(e, r.id) then Raised(r.log, r.term, r.committed, m) else r.committed)
  }

  lemma LeaderApplies(cfg: Config, r: Fsm, e: Entry)
    requires InRange(r) && r.state == StateLeader
    ensures AppliedBy(r, e, ApplyOne(cfg, r, e).r)
  {
    if e.payload.Normal? || e.payload.peer.id == NO_LEADER || e.payload.kind != RemoveNode {
      NoneRemoved(cfg, r, e);
    } else if e.payload.peer.id == r.id {
      SelfRemoved(cfg, r, e);
    } else {
      OtherRemoved(cfg, r, e);
    }
  }

  lemma NoneRemoved(cfg: Config, r: Fsm, e: Entry)
    requires InRange(r) && r.state == StateLeader
    requires e.payload.Normal? || e.payload.peer.id == NO_LEADER || e.payload.kind != RemoveNode
    ensures AppliedBy(r, e, ApplyOne(cfg, r, e).r)
  {
    hide BcastAppend, MaybeCommit, Matches, BecomeFollower, NewProgress, Commits, Agreed;
    assert Stays([e], r.id);
    if e.payload.Conf? {
      AddMatches(cfg, r, e.payload.peer);
      UpdateMatches(r, e.payload.peer);
    }
  }

  lemma SelfRemoved(cfg: Config, r: Fsm, e: Entry)
    requires InRange(r) && e.payload.Conf? && e.payload.kind == RemoveNode && e.payload.peer.id == r.id != NO_LEADER
    ensures AppliedBy(r, e, ApplyOne(cfg, r, e).r)
  {
    hide BcastAppend, MaybeCommit, Matches, BecomeFollower, Commits;
    FollowerAgain(cfg, r.(pendingConf := false, replicas := r.replicas - {r.id}), 0);
    assert !Stays([e], r.id) by { assert [e][0] == e; }
  }

  lemma OtherRemoved(cfg: Config, r: Fsm, e: Entry)
    requires InRange(r) && r.state == StateLeader && Removes(e, r.id)
    ensures AppliedBy(r, e, ApplyOne(cfg, r, e).r)
  {
    hide BcastAppend, MaybeCommit, Matches, BecomeFollower, Commits;
    RemoveMatches(cfg, r, e.payload.peer);
    assert Stays([e], r.id);
  }

  lemma AddMatches(cfg: Config, r: Fsm, peer: Peer)
    ensures var p := NewProgress(peer, cfg.maxInflight).(next := |r.log| + 1);
      && (peer.id !in r.replicas ==> Matches(r.replicas[peer.id := p]) == Matches(r.replicas)[peer.id := 0])
      && (peer.id in r.replicas <==> peer.id in Matches(r.replicas))
  {}

  lemma UpdateMatches(r: Fsm, peer: Peer)
    ensures peer.id in r.replicas ==>
      Matches(r.replicas[peer.id := r.replicas[peer.id].(peer := peer)]) == Matches(r.replicas)
  {
    if peer.id in r.replicas { SameMatches(r.replicas, peer.id, r.replicas[peer.id].(peer := peer)); }
  }

  lemma RemoveMatches(cfg: Config, r: Fsm, peer: Peer)
    requires InRange(r)
    ensures var r1 := r.(pendingConf := false, replicas := r.replicas - {peer.id}); var m := Matches(r.replicas) - {peer.id};
      var c := MaybeCommit(r1); var b := BcastAppend(cfg, c).r;
      && Matches(r1.replicas) == m && Matches(c.replicas) == m && Matches(b.replicas) == m
      && (r1.replicas == map[] <==> m == map[])
      && Kept(r1, c) && b.log == c.log == r.log && b.committed == c.committed && b.applied == c.applied
      && c.id == r.id && c.term == r.term && c.state == r.state && b.id == c.id && b.term == c.term && b.state == c.state
      && c.committed == Raised(r.log, r.term, r.committed, m)
  {
    var r1 := r.(pendingConf := false, replicas := r.replicas - {peer.id});
    assert Matches(r1.replicas) == Matches(r.replicas) - {peer.id};
    assert r1.replicas == map[] <==> Matches(r1.replicas) == map[] by {
      assert Matches(r1.replicas).Keys == r1.replicas.Keys;
    }
    hide Matches, BcastAppend, MaybeCommit, Raised;
    CommitMatches(r1);
    CommitValue(r1);
    BcastMatches(cfg, MaybeCommit(r1));
    BcastFields(cfg, MaybeCommit(r1));
    MaybeCommitKept(r1);
  }

  /** What `maybeCommit` leads to, from the match indexes. */
  lemma CommitValue(r: Fsm)
    requires InRange(r)
    ensures var c := MaybeCommit(r);
      c.committed == Raised(r.log, r.term, r.committed, Matches(r.replicas)) && c.id == r.id && c.term == r.term && c.state == r.state
  {
    assert Matches(r.replicas).Keys == r.replicas.Keys;
    assert r.replicas == map[] <==> Matches(r.replicas) == map[];
    hide Matches, Agreed;
  }

  lemma BcastFields(cfg: Config, r: Fsm)
    ensures var b := BcastAppend(cfg, r).r;
      b.log == r.log && b.committed == r.committed && b.applied == r.applied && b.id == r.id && b.term == r.term && b.state == r.state
  {}

  lemma OthersApply(cfg: Config, r: Fsm, e: Entry)
    requires r.state != StateLeader
    ensures var a := ApplyOne(cfg, r, e).r;
      && a.id == r.id && a.log == r.log && a.term == r.term && a.committed == r.committed && a.applied == r.applied
      && a.state != StateLeader
  {
    hide BcastAppend, MaybeCommit, Commits, NewProgress;
  }

  /** A batch moves the commit index exactly when one of its removals overtakes it. */
  lemma {:induction false} BatchApplies(cfg: Config, r: Fsm, ents: seq<Entry>)
    requires InRange(r)
    ensures Applying(r, ents, ApplyEnts(cfg, r, ents).r)
    decreases |ents|
  {
    if ents == [] {
      ApplyNothing(cfg, r);
    } else {
      var n := |ents| - 1;
      var a := ApplyEnts(cfg, r, ents[..n]).r;
      BatchApplies(cfg, r, ents[..n]);
      ApplySnoc(cfg, r, ents[..n], ents[n]);
      assert ents[..n] + [ents[n]] == ents;
      hide ApplyEnts, ApplyOne, Matches;
      if a.state == StateLeader {
        LeaderApplies(cfg, a, ents[n]);
        BatchLeads(r, ents, a, ApplyOne(cfg, a, ents[n]).r);
      } else {
        OthersApply(cfg, a, ents[n]);
        BatchFollows(r, ents, a, ApplyOne(cfg, a, ents[n]).r);
      }
    }
  }

  lemma StaysSnoc(ents: seq<Entry>, self: Id)
    requires ents != []
    ensures var n := |ents| - 1; Stays(ents, self) <==> Stays(ents[..n], self) && Stays([ents[n]], self)
  {
    var n := |ents| - 1;
    assert [ents[n]][0] == ents[n];
    assert forall i :: 0 <= i < n ==> ents[..n][i] == ents[i];
  }

  /** Entries before the last overtake a batch as they do without it. */
  lemma OvertakenSnoc(r: Fsm, ents: seq<Entry>)
    requires ents != []
    ensures var n := |ents| - 1;
      Overtaken(r, ents) <==> Overtaken(r, ents[..n]) || (r.state == StateLeader && OvertakenAt(r, ents, n))
  {
    var n := |ents| - 1;
    forall i: nat | i < n ensures OvertakenAt(r, ents[..n], i) == OvertakenAt(r, ents, i) {
      assert ents[..n][..i] == ents[..i] && ents[..n][..i + 1] == ents[..i + 1] && ents[..n][i] == ents[i];
    }
  }

  lemma BatchLeads(r: Fsm, ents: seq<Entry>, a: Fsm, b: Fsm)
    requires ents != [] && Applying(r, ents[..|ents| - 1], a) && a.state == StateLeader && AppliedBy(a, ents[|ents| - 1], b)
    ensures Applying(r, ents, b)
  {
    var n := |ents| - 1;
    StaysSnoc(ents, r.id);
    KeptTrans(r, a, b);
    hide Matches, Raised;
    assert MatchesAfter(Matches(r.replicas), ents) == MatchAfter(Matches(a.replicas), ents[n]);
  }

  lemma BatchFollows(r: Fsm, ents: seq<Entry>, a: Fsm, b: Fsm)
    requires ents != [] && Applying(r, ents[..|ents| - 1], a) && a.state != StateLeader
    requires b.id == a.id && b.log == a.log && b.term == a.term && b.committed == a.committed && b.applied == a.applied
    requires b.state != StateLeader
    ensures Applying(r, ents, b)
  {
    StaysSnoc(ents, r.id);
  }

  /** The commit index rises exactly when some removal on its own would raise it. */
  lemma {:induction false} OvertakenExact(r: Fsm, ents: seq<Entry>)
    requires r.committed <= |r.log|
    ensures CommitAfter(r, ents) > r.committed <==> Overtaken(r, ents)
    decreases |ents|
  {
    if ents != [] {
      var n := |ents| - 1;
      OvertakenExact(r, ents[..n]);
      OvertakenSnoc(r, ents);
      hide Matches, MatchesAfter, Overtaken;
      assert ents[..n + 1] == ents;
    }
  }

  // ---- ready turns ----

  /** The entries that a turn would count as applied although they are not in its batch. */
  ghost function Skipped(r: Fsm): seq<Entry>
    requires InRange(r)
  {
    r.log[r.committed..CommitAfter(r, Due(r))]
  }

  /** A turn counts its batch as applied and what it skips, which is nothing exactly when no removal overtakes the batch. */
  lemma TurnExact(cfg: Config, r: Fsm)
    requires InRange(r)
    ensures var t := Ready(cfg, r).r;
      && InRange(t) && t.log == r.log && t.applied == t.committed == CommitAfter(r, Due(r))
      && r.log[r.applied..t.applied] == Due(r) + Skipped(r)
      && (Skipped(r) == [] <==> !Overtaken(r, Due(r)))
  {
    hide ApplyEnts, Overtaken, CommitAfter;
    BatchApplies(cfg, r, Due(r));
    OvertakenExact(r, Due(r));
  }

  /** A batch without removals is never overtaken. */
  lemma NoRemovalNoLoss(cfg: Config, r: Fsm)
    requires InRange(r) && forall i :: 0 <= i < |Due(r)| ==> !Removes(Due(r)[i], r.id)
    ensures Skipped(r) == [] && Ready(cfg, r).r.applied == r.committed
  {
    hide OvertakenAt, CommitAfter;
    TurnExact(cfg, r);
    forall i: nat ensures !OvertakenAt(r, Due(r), i) { NotRemoved(r, Due(r), i); }
  }

  lemma NotRemoved(r: Fsm, ents: seq<Entry>, i: nat)
    requires i < |ents| ==> !Removes(ents[i], r.id)
    ensures !OvertakenAt(r, ents, i)
  {}

  /** One incarnation of a node: any inputs in any order, ready turns among them. */
  ghost predicate NodeRun(cfg: Config, rs: seq<Fsm>, es: seq<Event>) {
    && |rs| == |es| + 1 && InRange(rs[0])
    && forall i :: 0 <= i < |es| ==> !es[i].Restart? && rs[i + 1] == Handle(cfg, rs[i], es[i]).r
  }

  /** What the first n steps hand to the state machine. */
  ghost function Given(rs: seq<Fsm>, es: seq<Event>, n: nat): seq<Entry>
    requires n <= |es| < |rs|
  {
    if n == 0 then []
    else Given(rs, es, n - 1) + (if es[n - 1].ReadyTurn? && InRange(rs[n - 1]) then Handed(Due(rs[n - 1])) else [])
  }

  /** What the first n steps pass over. */
  ghost function PassedOver(rs: seq<Fsm>, es: seq<Event>, n: nat): seq<Entry>
    requires n <= |es| < |rs|
  {
    if n == 0 then []
    else PassedOver(rs, es, n - 1) + (if es[n - 1].ReadyTurn? && InRange(rs[n - 1]) then Handed(Skipped(rs[n - 1])) else [])
  }

  /** The committed entries between the positions at the start and after n steps. */
  ghost function Span(rs: seq<Fsm>, n: nat): seq<Entry>
    requires n < |rs|
  {
    if rs[0].applied <= rs[n].applied <= |rs[n].log| then rs[n].log[rs[0].applied..rs[n].applied] else []
  }

  ghost predicate Balanced(rs: seq<Fsm>, es: seq<Event>, n: nat)
    requires n <= |es| < |rs|
  {
    && InRange(rs[n]) && rs[0].applied <= rs[n].applied
    && |Given(rs, es, n)| + |PassedOver(rs, es, n)| == |Handed(Span(rs, n))|
    && (PassedOver(rs, es, n) == [] ==> Given(rs, es, n) == Handed(Span(rs, n)))
  }

  lemma {:induction false} RunBalanced(cfg: Config, rs: seq<Fsm>, es: seq<Event>, n: nat)
    requires NodeRun(cfg, rs, es) && n <= |es|
    ensures Balanced(rs, es, n)
    decreases n
  {
    hide Balanced, Handle, Ready;
    if n == 0 {
      StartBalanced(cfg, rs, es);
    } else {
      RunBalanced(cfg, rs, es, n - 1);
      assert rs[n - 1 + 1] == Handle(cfg, rs[n - 1], es[n - 1]).r;
      TurnIsReady(cfg, rs[n - 1], es[n - 1]);
      if es[n - 1].ReadyTurn? {
        TurnBalanced(cfg, rs, es, n);
      } else {
        InputBalanced(cfg, rs, es, n);
      }
    }
  }

  lemma TurnIsReady(cfg: Config, r: Fsm, e: Event)
    ensures e.ReadyTurn? ==> Handle(cfg, r, e) == Ready(cfg, r)
  {}

  lemma StartBalanced(cfg: Config, rs: seq<Fsm>, es: seq<Event>)
    requires |es| < |rs| && InRange(rs[0])
    ensures Balanced(rs, es, 0)
  {
    hide Ready;
    assert Span(rs, 0) == [];
  }

  lemma TurnBalanced(cfg: Config, rs: seq<Fsm>, es: seq<Event>, n: nat)
    requires 0 < n <= |es| < |rs| && Balanced(rs, es, n - 1) && es[n - 1].ReadyTurn? && rs[n] == Ready(cfg, rs[n - 1]).r
    ensures Balanced(rs, es, n)
  {
    var r := rs[n - 1];
    hide Ready, Overtaken, CommitAfter, Skipped, Handed;
    TurnExact(cfg, r);
    HandedJoin(Due(r), Skipped(r));
    HandedSplit(r.log, rs[0].applied, r.applied, rs[n].applied);
    assert Handed(Span(rs, n)) == Handed(Span(rs, n - 1)) + (Handed(Due(r)) + Handed(Skipped(r)));
    hide Due, Span;
    Ledger(Given(rs, es, n - 1), PassedOver(rs, es, n - 1), Handed(Span(rs, n - 1)), Handed(Due(r)), Handed(Skipped(r)));
  }

  lemma Ledger<T>(given: seq<T>, lost: seq<T>, all: seq<T>, more: seq<T>, gone: seq<T>)
    requires |given| + |lost| == |all| && (lost == [] ==> given == all)
    ensures |given + more| + |lost + gone| == |all + (more + gone)|
    ensures lost + gone == [] ==> given + more == all + (more + gone)
  {
    assert lost + gone == [] ==> lost == [] && gone == [];
  }

  lemma InputBalanced(cfg: Config, rs: seq<Fsm>, es: seq<Event>, n: nat)
    requires 0 < n <= |es| < |rs| && Balanced(rs, es, n - 1) && InMemory(es[n - 1]) && rs[n] == Handle(cfg, rs[n - 1], es[n - 1]).r
    ensures Balanced(rs, es, n)
  {
    hide Handle, Handed;
    var r := rs[n - 1];
    InputKept(cfg, r, es[n - 1]);
    WindowOfPrefix(rs[n].log, r.committed, rs[0].applied, r.applied);
    WindowOfPrefix(r.log, r.committed, rs[0].applied, r.applied);
    assert Span(rs, n) == Span(rs, n - 1);
  }

  /** A ready turn taken here skips no entry that is due to the state machine. */
  ghost predicate Clean(rs: seq<Fsm>, es: seq<Event>, i: nat)
    requires i < |es| < |rs|
  {
    es[i].ReadyTurn? && InRange(rs[i]) ==> Handed(rs[i].log[rs[i].committed..CommitAfter(rs[i], Due(rs[i]))]) == []
  }

  /**
   Exactly once: over any run of one incarnation the state machine is given the non-empty committed entries
   between the two positions, in order and without gap, if and only if at every ready turn the stretch between
   the commit index and the one its removals lead to holds only empty entries. What is given and what is
   passed over always add up.
   */
  lemma ExactlyOnce(cfg: Config, rs: seq<Fsm>, es: seq<Event>)
    requires NodeRun(cfg, rs, es)
    ensures var n := |es|;
      && InRange(rs[n]) && rs[0].applied <= rs[n].applied
      && |Given(rs, es, n)| + |PassedOver(rs, es, n)| == |Handed(rs[n].log[rs[0].applied..rs[n].applied])|
      && (Given(rs, es, n) == Handed(rs[n].log[rs[0].applied..rs[n].applied]) <==> forall i :: 0 <= i < n ==> Clean(rs, es, i))
  {
    hide Handed, Handle, CommitAfter;
    RunBalanced(cfg, rs, es, |es|);
    PassedOverNothing(rs, es, |es|);
  }

  lemma {:induction false} PassedOverNothing(rs: seq<Fsm>, es: seq<Event>, n: nat)
    requires n <= |es| < |rs|
    ensures PassedOver(rs, es, n) == [] <==> forall i :: 0 <= i < n ==> Clean(rs, es, i)
  {
    hide Handed, CommitAfter;
    if n > 0 {
      PassedOverNothing(rs, es, n - 1);
      assert PassedOver(rs, es, n) == [] <==> PassedOver(rs, es, n - 1) == [] && Clean(rs, es, n - 1);
    }
  }
}
