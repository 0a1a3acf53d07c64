/** Append requests at a follower, and the dispatch over all messages. */
module SimFollower {
  import opened RaftTypes
  import opened LogSpec
  import opened ProgressSpec
  import opened FsmSpec
  import opened Cluster
  import opened ClusterSim
  import opened SimLeader
  import opened SimSend
  import opened SimReplies
  import opened SimElection
  import C = CoreRaft
  import opened CoreInvariant
  import opened CoreElection
  import opened CoreSafety

  // ---- append requests ----

  /**
   A request whose previous entry is in the log by term agrees with the log up to there. Outside the
   log the term reads as 0, which no entry has: only the empty prefix matches it.
   */
  lemma PrefixMatches(ll: map<nat, seq<Entry>>, log: seq<Entry>, leaders: seq<Entry>, i: nat)
    requires LogOk(ll, log) && LogOk(ll, leaders) && i <= |leaders| && TermAt(log, i) == TermAt(leaders, i)
    ensures i <= |log| && log[..i] == leaders[..i]
  {
    if i > 0 {
      assert EntryOk(ll, leaders, i - 1);
      LogMatching(ll, log, leaders, i - 1);
    }
  }

  /** Cutting at the first conflict is adopting the leader's entries where the log differs. */
  lemma AppendIsAdopt(ll: map<nat, seq<Entry>>, log: seq<Entry>, leaders: seq<Entry>, committed: nat,
                      index: nat, commit: nat, ents: seq<Entry>)
    requires LogOk(ll, log) && LogOk(ll, leaders) && index + |ents| <= |leaders| && committed <= index
    requires ents == leaders[index..index + |ents|]
    ensures Consecutive(ents, index)
    ensures var j := index + |ents|;
      var a := MaybeAppend(0, 0, log, committed, index, TermAt(leaders, index), commit, ents);
      && !a.panic
      && (a.ok ==> a.last == j && a.log == C.Adopt(log, leaders, j) && a.committed == Max(committed, Min(commit, j)))
      && (!a.ok ==> a.log == log && a.committed == committed)
  {
    hide LogOk, FindConflict, TakeFrom, C.Adopt;
    LeaderNumbers(ll, leaders, index, ents);
    if TermAt(log, index) == TermAt(leaders, index) {
      ConflictPlace(0, 0, log, ents, index);
      TakeIsAdopt(ll, log, leaders, committed, index, commit, ents);
    }
  }

  lemma LeaderNumbers(ll: map<nat, seq<Entry>>, leaders: seq<Entry>, index: nat, ents: seq<Entry>)
    requires LogOk(ll, leaders) && index + |ents| <= |leaders| && ents == leaders[index..index + |ents|]
    ensures Consecutive(ents, index)
  {
    forall k | 0 <= k < |ents| ensures ents[k].index == index + 1 + k { assert EntryOk(ll, leaders, index + k); }
  }

  /** Taking the entries from the first conflict on, when the previous entry matches. */
  lemma TakeIsAdopt(ll: map<nat, seq<Entry>>, log: seq<Entry>, leaders: seq<Entry>, committed: nat,
                    index: nat, commit: nat, ents: seq<Entry>)
    requires LogOk(ll, log) && LogOk(ll, leaders) && index + |ents| <= |leaders| && committed <= index
    requires ents == leaders[index..index + |ents|] && Consecutive(ents, index) && TermAt(log, index) == TermAt(leaders, index)
    ensures var ci, j := FindConflict(0, 0, log, ents), index + |ents|;
      && (ci != 0 ==> index < ci <= j)
      && TakeFrom(0, log, committed, ci, index, commit, ents)
         == AppendResult(true, false, C.Adopt(log, leaders, j), Max(committed, Min(commit, j)), j)
  {
    hide LogOk, FindConflict, TakeFrom, TermIn, C.Adopt;
    PrefixMatches(ll, log, leaders, index);
    ConflictPlace(0, 0, log, ents, index);
    var ci := FindConflict(0, 0, log, ents);
    if ci == 0 {
      NoConflict(ll, log, leaders, index, ents);
      TakeNothing(log, committed, index, commit, ents);
    } else {
      AtConflict(ll, log, leaders, index, ents, ci);
      AdoptReaches(log, leaders, index + |ents|);
      TakeRest(log, committed, ci, index, commit, ents);
    }
  }

  lemma TakeNothing(log: seq<Entry>, committed: nat, index: nat, commit: nat, ents: seq<Entry>)
    requires Consecutive(ents, index) && committed <= index && index + |ents| <= |log|
    ensures var j := index + |ents|;
      TakeFrom(0, log, committed, 0, index, commit, ents) == AppendResult(true, false, log, Max(committed, Min(commit, j)), j)
  {}

  lemma TakeRest(log: seq<Entry>, committed: nat, ci: nat, index: nat, commit: nat, ents: seq<Entry>)
    requires Consecutive(ents, index) && committed <= index < ci <= index + |ents| && ci <= |log| + 1
    requires |AppendEnts(0, log, ents[ci - (index + 1)..])| >= index + |ents|
    ensures var log', j := AppendEnts(0, log, ents[ci - (index + 1)..]), index + |ents|;
      TakeFrom(0, log, committed, ci, index, commit, ents) == AppendResult(true, false, log', Max(committed, Min(commit, j)), j)
  {
    hide AppendEnts;
  }

  lemma AdoptReaches(log: seq<Entry>, leaders: seq<Entry>, j: nat)
    requires j <= |leaders|
    ensures |C.Adopt(log, leaders, j)| >= j
  {}

  lemma NoConflict(ll: map<nat, seq<Entry>>, log: seq<Entry>, leaders: seq<Entry>, index: nat, ents: seq<Entry>)
    requires LogOk(ll, log) && LogOk(ll, leaders) && index + |ents| <= |leaders| && ents == leaders[index..index + |ents|]
    requires index <= |log| && log[..index] == leaders[..index]
    requires forall k :: 0 <= k < |ents| ==> TermAt(log, index + 1 + k) == ents[k].term
    ensures var j := index + |ents|; j <= |log| && log[..j] == leaders[..j] && C.Adopt(log, leaders, j) == log
  {
    var j := index + |ents|;
    if ents != [] {
      assert TermAt(log, index + 1 + (|ents| - 1)) == ents[|ents| - 1].term;
      PrefixMatches(ll, log, leaders, j);
    }
  }

  lemma AtConflict(ll: map<nat, seq<Entry>>, log: seq<Entry>, leaders: seq<Entry>, index: nat, ents: seq<Entry>, ci: nat)
    requires LogOk(ll, log) && LogOk(ll, leaders) && index + |ents| <= |leaders| && ents == leaders[index..index + |ents|]
    requires Consecutive(ents, index) && index <= |log| && log[..index] == leaders[..index]
    requires index < ci <= index + |ents| && TermAt(log, ci) != ents[ci - index - 1].term
    requires forall k :: 0 <= k < ci - index - 1 ==> TermAt(log, index + 1 + k) == ents[k].term
    ensures ci <= |log| + 1 && AppendEnts(0, log, ents[ci - (index + 1)..]) == C.Adopt(log, leaders, index + |ents|)
  {
    var j, n := index + |ents|, ci - index - 1;
    NoConflict(ll, log, leaders, index, ents[..n]);
    assert log[..ci - 1] == leaders[..ci - 1];
    assert j <= |log| ==> log[..j][ci - 1] != leaders[..j][ci - 1];
    assert leaders[..j] == leaders[..ci - 1] + ents[n..];
  }

  lemma AppendReqSim(cfg: Config, s: C.State, v: Id, r: Fsm, m: Message) returns (s': C.State)
    requires Good(s) && NodeSim(cfg, s, v, r) && r.state == StateFollower && m.to == v
    requires MsgOk(s, m) && m.term == r.term && m.body.ReqAppend?
    ensures SimTo(cfg, s, v, HandleAppend(cfg, r, m.from, m.body.index, m.body.logTerm, m.body.commit, m.body.ents), s')
  {
    hide Good, Grows, ProgressInv, VotesOk, Elected, MaybeAppend, LogOk, C.DoAccept;
    NodeFacts(s, v);
    LeaderLogOk(s, m.term);
    var b := m.body;
    if b.index < r.committed {
      s' := C.DoAckCommit(s, v);
      ActAckCommit(s, v);
    } else {
      AppendIsAdopt(s.ll, r.log, s.ll[m.term], r.committed, b.index, b.commit, b.ents);
      var a := MaybeAppend(0, 0, r.log, r.committed, b.index, b.logTerm, b.commit, b.ents);
      if a.ok {
        s' := C.DoAccept(s, v, a.last, b.commit);
        ActAccept(s, v, a.last, b.commit);
        AcceptedNode(s, v, r, a.last, b.commit);
      } else {
        s' := s;
        SimSay(cfg, s, v, r, {Msg(r, m.from, RespAppend(true, b.index, r.committed, |r.log|))});
      }
    }
  }

  lemma AcceptedNode(s: C.State, v: Id, r: Fsm, j: nat, k: nat)
    requires C.CanAccept(s, v, j, k) && SameNode(s.nodes[v], r) && r.state == StateFollower
    ensures var s' := C.DoAccept(s, v, j, k);
      && s'.servers == s.servers && v in s'.nodes
      && SameNode(s'.nodes[v], r.(log := C.Adopt(r.log, s.ll[r.term], j), committed := Max(r.committed, Min(k, j))))
      && C.Acked(s', r.term, v, j)
  {}

  lemma LeaderLogOk(s: C.State, t: nat)
    requires Good(s) && t in s.ll
    ensures LogOk(s.ll, s.ll[t])
  {
    hide NodesInv, VotesInv, CampInv, RolesInv, AcksInv, KeptInv, VotedInv, CompletenessInv, SendsInv, CommitInv, ConfInv, FixedInv;
    assert LeaderOk(s, t);
  }

  // ---- dispatch ----

  /** A message of the node's own term, or a heartbeat that passed the filter. */
  ghost predicate Timely(s: C.State, v: Id, r: Fsm, m: Message) {
    && m.to == v && m.from != v
    && ((m.term == r.term && MsgOk(s, m)) || (IsHeartbeat(m) && (m.body.ReqHeartBeat? ==> m.from == r.leader)))
  }

  lemma FollowerSim(cfg: Config, s: C.State, v: Id, r: Fsm, m: Message) returns (s': C.State)
    requires Good(s) && NodeSim(cfg, s, v, r) && r.state == StateFollower && Timely(s, v, r, m)
    ensures SimTo(cfg, s, v, StepFollower(cfg, r, m), s')
  {
    hide Good, Grows, Hup, HandleAppend, Grants;
    NodeFacts(s, v);
    var r1 := r.(leader := m.from);
    match m.body
    case ReqAppend(_, _, _, _) =>
      s' := AppendReqSim(cfg, s, v, r1, m);
    case ReqVote(_, index, logTerm) =>
      if Grants(cfg, r, m.from, index, logTerm) {
        s' := VoteSim(cfg, s, v, r, m);
      } else {
        s' := s;
        SimSay(cfg, s, v, r, {Msg(r, m.from, RespVote(true))});
      }
    case LeaseTimeout =>
      if r.leader == m.from {
        s' := HupSim(cfg, s, v, r, false);
      } else {
        s' := s;
        SimStay(cfg, s, v, r);
      }
    case ReqElectAck =>
      s' := s;
      SimSay(cfg, s, v, r1, {Msg(r, m.from, RespElectAck)});
    case _ =>
      s' := s;
      assert r.leader == m.from ==> r1 == r;
      SimStay(cfg, s, v, r);
  }

  /** A candidate, in either phase, that hears from a leader of its term. */
  lemma YieldSim(cfg: Config, s: C.State, v: Id, r: Fsm, m: Message) returns (s': C.State)
    requires Good(s) && NodeSim(cfg, s, v, r) && r.state != StateLeader && Timely(s, v, r, m) && r.term >= 1
    ensures var f := BecomeFollower(cfg, r, r.term, m.from);
      match m.body
      case ReqAppend(index, logTerm, commit, ents) => SimTo(cfg, s, v, HandleAppend(cfg, f, m.from, index, logTerm, commit, ents), s')
      case ReqHeartBeat => SimTo(cfg, s, v, Res(f, {}), s')
      case ReqElectAck => SimTo(cfg, s, v, Res(f, {Msg(r, m.from, RespElectAck)}), s')
      case _ => true
  {
    hide Good, Grows, NodeSim, HandleAppend, BecomeFollower;
    NodeId(cfg, s, v, r);
    NodeFacts(s, v);
    var f := BecomeFollower(cfg, r, r.term, m.from);
    FollowerShape(cfg, r, r.term, m.from);
    s' := FollowSim(cfg, s, v, r, r.term, m.from);
    match m.body
    case ReqAppend(index, logTerm, commit, ents) =>
      MsgGrows(s, s', m);
      var s1 := s';
      s' := AppendReqSim(cfg, s1, v, f, m);
      Join(cfg, s, s1, s', v, Res(f, {}), HandleAppend(cfg, f, m.from, index, logTerm, commit, ents));
    case ReqElectAck =>
      NodeId(cfg, s', v, f);
      NodeFacts(s', v);
      SimSay(cfg, s', v, f, {Msg(r, m.from, RespElectAck)});
      Join(cfg, s, s', s', v, Res(f, {}), Res(f, {Msg(r, m.from, RespElectAck)}));
    case _ =>
  }

  lemma FollowerShape(cfg: Config, r: Fsm, t: nat, lead: Id)
    ensures var f := BecomeFollower(cfg, r, t, lead); f.state == StateFollower && f.term == t && f.leader == lead
  {}

  lemma CandidateStepSim(cfg: Config, s: C.State, v: Id, r: Fsm, m: Message) returns (s': C.State)
    requires Good(s) && NodeSim(cfg, s, v, r) && r.state == StateCandidate && Timely(s, v, r, m)
    ensures SimTo(cfg, s, v, StepCandidate(cfg, r, m), s')
  {
    hide Good, Grows, HandleAppend, BecomeFollower, BecomeLeader, BecomeElectionAck, BcastAppend;
    NodeFacts(s, v);
    match m.body
    case RespVote(_) => s' := VoteAnswerSim(cfg, s, v, r, m);
    case ReqVote(_, _, _) =>
      s' := s;
      SimSay(cfg, s, v, r, {Msg(r, m.from, RespVote(true))});
    case ReqAppend(_, _, _, _) => s' := YieldSim(cfg, s, v, r, m);
    case ReqHeartBeat => s' := YieldSim(cfg, s, v, r, m);
    case ReqElectAck => s' := YieldSim(cfg, s, v, r, m);
    case _ =>
      s' := s;
      SimStay(cfg, s, v, r);
  }

  lemma AckStepSim(cfg: Config, s: C.State, v: Id, r: Fsm, m: Message) returns (s': C.State)
    requires Good(s) && NodeSim(cfg, s, v, r) && r.state == StateElectionAck && Timely(s, v, r, m)
    requires m.IsResponse() ==> m.from in r.replicas
    ensures SimTo(cfg, s, v, StepElectionAck(cfg, r, m), s')
  {
    hide Good, Grows, HandleAppend, BecomeFollower, BecomeLeader, BcastAppend;
    NodeFacts(s, v);
    match m.body
    case RespElectAck =>
      var r1 := r.(replicas := r.replicas[m.from := r.replicas[m.from].(active := true)], acks := r.acks + {m.from});
      assert NodeSim(cfg, s, v, r1);
      if |r1.acks| >= Quorum(r1) {
        s' := LeadBcastSim(cfg, s, v, r1);
      } else {
        s' := s;
        SimStay(cfg, s, v, r1);
      }
    case ReqVote(_, _, _) =>
      s' := s;
      SimSay(cfg, s, v, r, {Msg(r, m.from, RespVote(true))});
    case ReqAppend(_, _, _, _) => s' := YieldSim(cfg, s, v, r, m);
    case ReqHeartBeat => s' := YieldSim(cfg, s, v, r, m);
    case ReqElectAck => s' := YieldSim(cfg, s, v, r, m);
    case _ =>
      s' := s;
      SimStay(cfg, s, v, r);
  }
}
