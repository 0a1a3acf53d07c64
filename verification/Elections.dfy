/** From a timeout to office: what a campaign asks for, how votes are counted, and what a majority of them brings. */
module Elections {
  import opened RaftTypes
  import opened LogSpec
  import opened ProgressSpec
  import opened QuorumIndex
  import opened FsmSpec
  import opened FsmParts
  import opened Cluster
  import C = CoreRaft

  // ---- taking office ----

  /** An entry without data opens a leader's term. */
  function Opening(r: Fsm): Entry { Entry(r.term, |r.log| + 1, Normal([])) }

  /** The request that brings it to member k. */
  function OpeningRequest(r: Fsm, k: Id, commit: nat): Message {
    Message(r.id, k, r.term, ReqAppend(|r.log|, C.LastTerm(r.log), commit, [Opening(r)]))
  }

  /** r has become leader of its term: its log is opened and every other member is sent the opening entry. */
  ghost predicate TookOffice(r: Fsm, a: Res) {
    && a.r.state == StateLeader && a.r.leader == r.id && a.r.id == r.id && a.r.term == r.term && a.r.vote == r.vote
    && a.r.log == r.log + [Opening(r)] && a.r.committed >= r.committed && a.r.applied == r.applied && a.r.fault == r.fault
    && a.r.replicas.Keys == r.replicas.Keys
    && a.out == set k | k in r.replicas && k != r.id :: OpeningRequest(r, k, a.r.committed)
  }

  /** A node may open a term: it is a member and has one configuration change in flight at most. */
  ghost predicate MayOpen(cfg: Config, r: Fsm) {
    && r.id in r.replicas && r.committed <= |r.log| && cfg.maxInflight > 0
    && C.ConfsAbove(r.log[r.committed..], 0) <= 1
  }

  /** A new leader's note of its members, and of itself. */
  ghost predicate NewNotes(r: Fsm, r1: Fsm) {
    && r1.replicas.Keys == r.replicas.Keys && r.id in r.replicas
    && forall k :: k in r1.replicas && k != r.id ==>
         var p := r1.replicas[k]; p.state == Probe && !p.paused && p.next == |r.log| + 1 && p.matched == 0
  }

  lemma Opens(cfg: Config, r: Fsm)
    requires MayOpen(cfg, r) && r.state != StateFollower
    ensures var a := BecomeLeader(cfg, r);
      && a.state == StateLeader && a.leader == r.id && a.id == r.id && a.term == r.term && a.vote == r.vote
      && a.log == r.log + [Opening(r)] && r.committed <= a.committed && a.applied == r.applied && NewNotes(r, a)
      && a.fault == r.fault
  {
    var r1 := Reset(cfg, r, r.term, |r.log|, true).(leader := r.id, state := StateLeader, acks := {});
    var r2 := r1.(pendingConf := C.ConfsAbove(r.log[r.committed..], 0) == 1);
    LeaderOpens(cfg, r);
    assert NewNotes(r, r2);
    assert r2.replicas[r.id].matched == |r.log|;
    assert forall k :: k in r2.replicas ==> r2.replicas[k].matched <= |r.log|;
    hide Reset, BecomeLeader;
    OpeningLogged(cfg, r2, Opening(r));
  }

  lemma OpeningLogged(cfg: Config, r: Fsm, e: Entry)
    requires r.id in r.replicas && r.committed <= |r.log| && e.index == |r.log| + 1
    requires forall k :: k in r.replicas ==> r.replicas[k].matched <= |r.log|
    ensures var a := AppendEntry(cfg, r, [e]);
      && a.state == r.state && a.leader == r.leader && a.id == r.id && a.term == r.term && a.vote == r.vote && a.applied == r.applied
      && a.log == r.log + [e] && r.committed <= a.committed && a.fault == r.fault && a.replicas.Keys == r.replicas.Keys
      && (forall k :: k in r.replicas && k != r.id ==> a.replicas[k] == r.replicas[k])
  {
    hide Agreed, Matches, TermIn;
    assert r.log[..|r.log|] == r.log;
    var r1 := r.(log := r.log + [e]);
    var r2 := r1.(replicas := r1.replicas[r.id := r1.replicas[r.id].MaybeUpdate(|r1.log|, r1.committed)]);
    assert r.id in r2.replicas;
    AgreedWithin(r2);
  }

  /** What a majority has is in the log, if what each has is. */
  lemma AgreedWithin(r: Fsm)
    requires r.replicas != map[] && forall k :: k in r.replicas ==> r.replicas[k].matched <= |r.log|
    ensures Commits(r) ==> Matches(r.replicas) != map[] && Agreed(Matches(r.replicas)) <= |r.log|
  {
    var m := Matches(r.replicas);
    if Commits(r) {
      assert Reached(m, Agreed(m)) != {};
      var k :| k in Reached(m, Agreed(m));
    }
  }

  lemma BatchOfOne(cfg: Config, log: seq<Entry>, e: Entry)
    ensures Batch(cfg, log + [e], |log| + 1) == [e] && TermAt(log + [e], |log|) == C.LastTerm(log)
  {
    assert (log + [e])[|log|..] == [e];
  }

  lemma OpeningFor(cfg: Config, r: Fsm, a: Fsm, k: Id)
    requires NewNotes(r, a) && a.log == r.log + [Opening(r)] && a.term == r.term && a.id == r.id && k in a.replicas && k != r.id
    ensures !a.replicas[k].IsPaused() && a.replicas[k].next >= 1 && !SendFaults(a.replicas[k])
    ensures Msg(a, k, AppendBody(cfg, a, a.replicas[k])) == OpeningRequest(r, k, a.committed)
  {
    BatchOfOne(cfg, r.log, Opening(r));
    hide Batch, TermIn;
  }

  /** The opening entry goes out to all others. */
  lemma OfficeAnnounced(cfg: Config, r: Fsm)
    requires MayOpen(cfg, r) && r.state != StateFollower
    ensures TookOffice(r, BcastAppend(cfg, BecomeLeader(cfg, r)))
  {
    hide BecomeLeader, MayOpen, AppendBody, OpeningRequest, SendFaults, SendProgress, Progress.IsPaused, Opening;
    Opens(cfg, r);
    var a := BecomeLeader(cfg, r);
    forall k | k in a.replicas && k != r.id
      ensures !a.replicas[k].IsPaused() && a.replicas[k].next >= 1 && !SendFaults(a.replicas[k])
      ensures Msg(a, k, AppendBody(cfg, a, a.replicas[k])) == OpeningRequest(r, k, a.committed)
    {
      OpeningFor(cfg, r, a, k);
    }
  }

  // ---- the campaign ----

  /**
   A timeout makes a member that does not lead a candidate of the next term with its own vote, and asks every other
   member for theirs, naming the end of its log. A member with a committed configuration change still to apply waits.
   */
  lemma TimeoutExactly(cfg: Config, r: Fsm, force: bool)
    requires r.state != StateLeader && r.id in r.replicas && |r.replicas| >= 2 && InRange(r)
    ensures var a := Handle(cfg, r, HupTick(force));
      if exists e :: e in Due(r) && e.payload.Conf? then a == Res(r, {}) else
      && a.r.state == StateCandidate && a.r.term == r.term + 1 && a.r.vote == r.id && a.r.votes == map[r.id := true]
      && a.r.leader == NO_LEADER && a.r.log == r.log && a.r.committed == r.committed && a.r.applied == r.applied
      && a.r.replicas.Keys == r.replicas.Keys && a.r.id == r.id && a.r.fault == r.fault
      && a.out == set k | k in r.replicas && k != r.id :: Message(r.id, k, r.term + 1, ReqVote(force, |r.log|, C.LastTerm(r.log)))
  {
    NoConfs(Due(r));
    var c := Poll(BecomeCandidate(cfg, r), r.id, true);
    assert c.replicas.Keys == r.replicas.Keys && |c.replicas.Keys| == |c.replicas| && |r.replicas.Keys| == |r.replicas|;
    assert c.votes == map[r.id := true] && Granted(c.votes) == {r.id};
    hide BecomeLeader, BecomeElectionAck, C.ConfsAbove, TermIn;
    CandidateAsks(cfg, r, c, force);
    hide BecomeCandidate, Poll;
  }

  lemma CandidateAsks(cfg: Config, r: Fsm, c: Fsm, force: bool)
    requires c.id == r.id && c.term == r.term + 1 && c.log == r.log && c.replicas.Keys == r.replicas.Keys
    ensures ToOthers(c, ReqVote(force, |c.log|, TermAt(c.log, |c.log|)))
      == set k | k in r.replicas && k != r.id :: Message(r.id, k, r.term + 1, ReqVote(force, |r.log|, C.LastTerm(r.log)))
  {}

  lemma {:induction false} NoConfs(ents: seq<Entry>)
    ensures C.ConfsAbove(ents, 0) == 0 <==> forall e :: e in ents ==> !e.payload.Conf?
  {
    if ents != [] {
      var n := |ents| - 1;
      NoConfs(ents[..n]);
      assert ents == ents[..n] + [ents[n]];
    }
  }

  // ---- the count ----

  function VoteOf(k: Id, r: Fsm, granted: bool): Message { Message(k, r.id, r.term, RespVote(!granted)) }

  /** The votes once k's is in; a second one of the same member does not count. */
  function WithVote(r: Fsm, k: Id, granted: bool): map<Id, bool> { if k in r.votes then r.votes else r.votes[k := granted] }

  function InFavour(votes: map<Id, bool>): set<Id> { set v | v in votes && votes[v] }

  function Yes(votes: map<Id, bool>): nat { |InFavour(votes)| }

  /** What becomes of a candidate when a vote comes in. */
  lemma VoteCounted(cfg: Config, r: Fsm, k: Id, granted: bool)
    requires r.state == StateCandidate && r.term >= 1 && k in r.replicas && MayOpen(cfg, r)
    ensures var a, votes, q := Handle(cfg, r, Recv(VoteOf(k, r, granted))), WithVote(r, k, granted), |r.replicas| / 2 + 1;
      if Yes(votes) == q && !cfg.leaseCheck then TookOffice(r, a)
      else if Yes(votes) == q then |r.replicas| >= 2 ==> AsksForAcks(r, a)
      else if |votes| - Yes(votes) == q then StepsDown(r, a)
      else a == Res(r.(votes := votes), {})
  {
    hide BecomeLeader, BecomeElectionAck, BcastAppend, BecomeFollower, MayOpen;
    var votes := WithVote(r, k, granted);
    var r1 := r.(votes := votes);
    VoteTaken(cfg, r, k, granted);
    assert Granted(votes) == InFavour(votes);
    hide Granted, InFavour;
    SameTerms(cfg, r, r1);
    OfficeAnnounced(cfg, r1);
    if |r.replicas| >= 2 { RoundBegins(cfg, r1); }
    GivesUp(cfg, r1);
  }

  lemma VoteTaken(cfg: Config, r: Fsm, k: Id, granted: bool)
    requires r.state == StateCandidate && r.term >= 1 && k in r.replicas
    ensures Handle(cfg, r, Recv(VoteOf(k, r, granted))) == CandidateVote(cfg, r, k, granted)
    ensures Poll(r, k, granted) == r.(votes := WithVote(r, k, granted))
  {
    hide CandidateVote;
  }

  lemma SameTerms(cfg: Config, r: Fsm, r1: Fsm)
    requires MayOpen(cfg, r) && r1 == r.(votes := r1.votes)
    ensures MayOpen(cfg, r1)
  {}

  /** A round of acknowledgements before office, with the lease check on. */
  ghost predicate AsksForAcks(r: Fsm, a: Res) {
    && a.r.state == StateElectionAck && a.r.id == r.id && a.r.term == r.term && a.r.vote == r.vote && a.r.acks == {r.id}
    && a.r.log == r.log && a.r.committed == r.committed && a.r.applied == r.applied && a.r.replicas.Keys == r.replicas.Keys
    && a.r.fault == r.fault
    && a.out == set k | k in r.replicas && k != r.id :: Message(r.id, k, r.term, ReqElectAck)
  }

  lemma RoundBegins(cfg: Config, r: Fsm)
    requires |r.replicas| >= 2
    ensures AsksForAcks(r, BecomeElectionAck(cfg, r))
  {
    hide BecomeLeader;
    var r2 := Reset(cfg, r.(acks := {r.id}), r.term, 0, false).(state := StateElectionAck);
    assert r2.replicas.Keys == r.replicas.Keys;
    assert ToOthers(r2, ReqElectAck) == set k | k in r.replicas && k != r.id :: Message(r.id, k, r.term, ReqElectAck);
  }

  ghost predicate StepsDown(r: Fsm, a: Res) {
    && a.r.state == StateFollower && a.r.leader == NO_LEADER && a.r.id == r.id && a.r.term == r.term && a.r.vote == r.vote
    && a.r.log == r.log && a.r.committed == r.committed && a.r.applied == r.applied && a.out == {}
  }

  lemma GivesUp(cfg: Config, r: Fsm)
    ensures StepsDown(r, Res(BecomeFollower(cfg, r, r.term, NO_LEADER), {}))
  {}

  function AckOf(k: Id, r: Fsm): Message { Message(k, r.id, r.term, RespElectAck) }

  /** In the acknowledgement round a majority of answers brings office, fewer are collected. */
  lemma AckCounted(cfg: Config, r: Fsm, k: Id)
    requires r.state == StateElectionAck && r.term >= 1 && k in r.replicas && MayOpen(cfg, r)
    ensures var a, acks := Handle(cfg, r, Recv(AckOf(k, r))), r.acks + {k};
      if |acks| >= |r.replicas| / 2 + 1 then TookOffice(r, a)
      else && a.out == {} && a.r == r.(acks := acks, replicas := a.r.replicas) && a.r.replicas.Keys == r.replicas.Keys
  {
    hide BecomeLeader, BcastAppend;
    var r1 := r.(acks := r.acks + {k}, replicas := r.replicas[k := r.replicas[k].(active := true)]);
    assert r1.replicas.Keys == r.replicas.Keys && |r1.replicas.Keys| == |r1.replicas| && |r.replicas.Keys| == |r.replicas|;
    OfficeAnnounced(cfg, r1);
    AckHeard(cfg, r, k);
  }

  lemma AckHeard(cfg: Config, r: Fsm, k: Id)
    requires r.state == StateElectionAck && r.term >= 1 && k in r.replicas
    ensures Handle(cfg, r, Recv(AckOf(k, r))) == ElectionAcked(cfg, r, k)
  {
    hide ElectionAcked;
  }

  // ---- a majority elects ----

  /** What the node does on a sequence of inputs, and what the last one makes it send. */
  ghost function After(cfg: Config, r: Fsm, es: seq<Event>): Res {
    if es == [] then Res(r, {}) else Handle(cfg, After(cfg, r, es[..|es| - 1]).r, es[|es| - 1])
  }

  ghost function GrantsOf(r: Fsm, voters: seq<Id>): seq<Event> {
    seq(|voters|, i requires 0 <= i < |voters| => Recv(VoteOf(voters[i], r, true)))
  }

  ghost function Acks(r: Fsm, voters: seq<Id>): seq<Event> {
    seq(|voters|, i requires 0 <= i < |voters| => Recv(AckOf(voters[i], r)))
  }

  /** Different other members. */
  ghost predicate Others(r: Fsm, voters: seq<Id>) {
    && (forall i :: 0 <= i < |voters| ==> voters[i] in r.replicas && voters[i] != r.id)
    && (forall i, j :: 0 <= i < j < |voters| ==> voters[i] != voters[j])
  }

  function AllOf(voters: seq<Id>): set<Id> { set v | v in voters }

  /** The voters' ballots on top of the candidate's own. */
  ghost function Ballots(r: Fsm, voters: seq<Id>): map<Id, bool> {
    if voters == [] then map[r.id := true] else Ballots(r, voters[..|voters| - 1])[voters[|voters| - 1] := true]
  }

  lemma {:induction false} BallotsAre(r: Fsm, voters: seq<Id>)
    requires Others(r, voters)
    ensures var b := Ballots(r, voters);
      && (forall v :: v in b <==> v == r.id || v in voters) && (forall v :: v in b ==> b[v]) && |b| == |voters| + 1 && Yes(b) == |voters| + 1
    decreases |voters|
  {
    var b := Ballots(r, voters);
    if voters != [] {
      var n := |voters| - 1;
      BallotsAre(r, voters[..n]);
      assert voters == voters[..n] + [voters[n]] && voters[n] !in Ballots(r, voters[..n]);
    }
    assert InFavour(b) == b.Keys && |b.Keys| == |b|;
  }

  lemma AfterSnoc(cfg: Config, r: Fsm, es: seq<Event>, e: Event)
    ensures After(cfg, r, es + [e]) == Handle(cfg, After(cfg, r, es).r, e)
  {
    hide Handle;
    assert (es + [e])[..|es|] == es;
  }

  /** Fewer than a majority: the candidate collects. */
  lemma {:induction false} Collects(cfg: Config, r: Fsm, voters: seq<Id>)
    requires r.state == StateCandidate && r.term >= 1 && r.votes == map[r.id := true] && MayOpen(cfg, r)
    requires Others(r, voters) && |voters| + 1 < |r.replicas| / 2 + 1
    ensures After(cfg, r, GrantsOf(r, voters)).r == r.(votes := Ballots(r, voters))
    decreases |voters|
  {
    hide Handle, MayOpen, TookOffice, AsksForAcks, StepsDown, Yes;
    if voters != [] {
      var n := |voters| - 1;
      Collects(cfg, r, voters[..n]);
      Elects(cfg, r, voters);
      BallotsAre(r, voters);
    }
  }

  /** The last of the voters' grants reaches a candidate that has collected the others. */
  lemma Elects(cfg: Config, r: Fsm, voters: seq<Id>)
    requires r.state == StateCandidate && r.term >= 1 && MayOpen(cfg, r) && Others(r, voters) && voters != []
    requires After(cfg, r, GrantsOf(r, voters[..|voters| - 1])).r == r.(votes := Ballots(r, voters[..|voters| - 1]))
    ensures var a, q := After(cfg, r, GrantsOf(r, voters)), |r.replicas| / 2 + 1;
      if |voters| + 1 == q && !cfg.leaseCheck then TookOffice(r, a)
      else if |voters| + 1 == q then |r.replicas| >= 2 ==> AsksForAcks(r, a)
      else a == Res(r.(votes := Ballots(r, voters)), {})
  {
    hide Handle, MayOpen, Yes, TookOffice, AsksForAcks, StepsDown;
    var n := |voters| - 1;
    var k, front := voters[n], voters[..n];
    assert voters == front + [k];
    assert GrantsOf(r, voters) == GrantsOf(r, front) + [Recv(VoteOf(k, r, true))];
    AfterSnoc(cfg, r, GrantsOf(r, front), Recv(VoteOf(k, r, true)));
    BallotsAre(r, front);
    BallotsAre(r, voters);
    var r1 := r.(votes := Ballots(r, front));
    SameTerms(cfg, r, r1);
    VoteCounted(cfg, r1, k, true);
    SameCandidate(r, r1, After(cfg, r, GrantsOf(r, voters)));
    assert WithVote(r1, k, true) == Ballots(r, voters);
  }

  lemma SameCandidate(r: Fsm, r1: Fsm, a: Res)
    requires r1 == r.(votes := r1.votes)
    ensures (TookOffice(r1, a) ==> TookOffice(r, a)) && (AsksForAcks(r1, a) ==> AsksForAcks(r, a))
  {
    assert forall k, c :: OpeningRequest(r1, k, c) == OpeningRequest(r, k, c);
  }

  /** The grants of a majority, in any order, bring a candidate into office, or into the round before it. */
  lemma MajorityElects(cfg: Config, r: Fsm, voters: seq<Id>)
    requires r.state == StateCandidate && r.term >= 1 && r.votes == map[r.id := true] && MayOpen(cfg, r)
    requires Others(r, voters) && voters != [] && |voters| + 1 == |r.replicas| / 2 + 1
    ensures var a := After(cfg, r, GrantsOf(r, voters)); if cfg.leaseCheck then AsksForAcks(r, a) else TookOffice(r, a)
  {
    hide Handle, MayOpen, TookOffice, AsksForAcks;
    var n := |voters| - 1;
    assert |r.replicas| >= 2;
    Collects(cfg, r, voters[..n]);
    Elects(cfg, r, voters);
  }

  /** The same of the acknowledgements. */
  lemma {:induction false} CollectsAcks(cfg: Config, r: Fsm, voters: seq<Id>)
    requires r.state == StateElectionAck && r.term >= 1 && r.acks == {r.id} && MayOpen(cfg, r) && Others(r, voters)
    requires |voters| + 1 < |r.replicas| / 2 + 1
    ensures var a := After(cfg, r, Acks(r, voters)).r;
      a == r.(acks := a.acks, replicas := a.replicas) && a.replicas.Keys == r.replicas.Keys && a.acks == {r.id} + AllOf(voters)
    decreases |voters|
  {
    hide Handle, MayOpen, TookOffice;
    if voters != [] {
      var n := |voters| - 1;
      CollectsAcks(cfg, r, voters[..n]);
      AckArrives(cfg, r, voters);
    }
  }

  lemma AllOfSnoc(front: seq<Id>, k: Id)
    ensures AllOf(front + [k]) == AllOf(front) + {k} && (k in AllOf(front) <==> k in front) && AllOf([]) == {}
  {}

  lemma {:induction false} DifferentOnes(id: Id, voters: seq<Id>)
    requires id !in voters && forall i, j :: 0 <= i < j < |voters| ==> voters[i] != voters[j]
    ensures |{id} + AllOf(voters)| == |voters| + 1
    decreases |voters|
  {
    hide AllOf;
    if voters == [] {
      AllOfSnoc([], id);
      assert {id} + AllOf(voters) == {id};
    } else {
      var n := |voters| - 1;
      var front, k := voters[..n], voters[n];
      DifferentOnes(id, front);
      AllOfSnoc(front, k);
      OneMoreMember(id, AllOf(front), k);
      assert voters == front + [k];
    }
  }

  lemma OneMoreMember(id: Id, s: set<Id>, k: Id)
    requires k != id && k !in s
    ensures |{id} + (s + {k})| == |{id} + s| + 1
  {
    assert {id} + (s + {k}) == ({id} + s) + {k};
  }

  lemma AckArrives(cfg: Config, r: Fsm, voters: seq<Id>)
    requires r.state == StateElectionAck && r.term >= 1 && MayOpen(cfg, r) && Others(r, voters) && voters != []
    requires var a := After(cfg, r, Acks(r, voters[..|voters| - 1])).r;
      && a == r.(acks := a.acks, replicas := a.replicas) && a.replicas.Keys == r.replicas.Keys
      && a.acks == {r.id} + AllOf(voters[..|voters| - 1])
    ensures var a := After(cfg, r, Acks(r, voters));
      if |voters| + 1 >= |r.replicas| / 2 + 1 then TookOffice(r, a)
      else && a.r == r.(acks := a.r.acks, replicas := a.r.replicas) && a.r.replicas.Keys == r.replicas.Keys
           && a.r.acks == {r.id} + AllOf(voters)
  {
    hide Handle, MayOpen, AllOf, TookOffice;
    var n := |voters| - 1;
    var k, front := voters[n], voters[..n];
    assert voters == front + [k];
    assert Acks(r, voters) == Acks(r, front) + [Recv(AckOf(k, r))];
    AfterSnoc(cfg, r, Acks(r, front), Recv(AckOf(k, r)));
    var r1 := After(cfg, r, Acks(r, front)).r;
    assert |r1.replicas.Keys| == |r1.replicas| && |r.replicas.Keys| == |r.replicas|;
    SameAcks(cfg, r, r1);
    AckCounted(cfg, r1, k);
    SameOffice(r, r1, After(cfg, r, Acks(r, voters)));
    AllOfSnoc(front, k);
    assert r1.acks + {k} == {r.id} + AllOf(voters);
    DifferentOnes(r.id, voters);
  }

  lemma SameOffice(r: Fsm, r1: Fsm, a: Res)
    requires r1 == r.(acks := r1.acks, replicas := r1.replicas) && r1.replicas.Keys == r.replicas.Keys
    ensures TookOffice(r1, a) ==> TookOffice(r, a)
  {
    assert (set k | k in r.replicas && k != r.id :: OpeningRequest(r, k, a.r.committed))
        == set k | k in r1.replicas && k != r1.id :: OpeningRequest(r1, k, a.r.committed);
  }

  lemma SameAcks(cfg: Config, r: Fsm, r1: Fsm)
    requires MayOpen(cfg, r) && r1 == r.(acks := r1.acks, replicas := r1.replicas) && r1.replicas.Keys == r.replicas.Keys
    ensures MayOpen(cfg, r1)
  {}

  /** The acknowledgements of a majority, in any order, bring office. */
  lemma MajorityInstalls(cfg: Config, r: Fsm, voters: seq<Id>)
    requires r.state == StateElectionAck && r.term >= 1 && r.acks == {r.id} && MayOpen(cfg, r)
    requires Others(r, voters) && voters != [] && |voters| + 1 == |r.replicas| / 2 + 1
    ensures TookOffice(r, After(cfg, r, Acks(r, voters)))
  {
    hide Handle, MayOpen, TookOffice;
    CollectsAcks(cfg, r, voters[..|voters| - 1]);
    AckArrives(cfg, r, voters);
  }
}
