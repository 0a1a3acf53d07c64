/** Leading, replicating and committing keep the invariant. */
module CoreReplication {
  import opened RaftTypes
  import opened CoreRaft
  import opened CoreInvariant
  import opened CoreElection

  // ---- a new leader ----

  lemma LeadGrows(s: State, v: Id, q: set<Id>)
    requires LeadersInv(s) && VotesInv(s) && RolesInv(s) && AcksInv(s) && CanLead(s, v, q)
    ensures s.nodes[v].term !in s.ll && Grows(s, DoLead(s, v, q))
  {
    FirstLeader(s, v, q);
    assert (s.nodes[v].term, v) !in s.ack;
  }

  lemma FirstLogOk(ll: map<nat, seq<Entry>>, n: Node)
    requires n.term >= 1 && n.term in ll && ll[n.term] == FirstLog(n) && LogOk(ll, n.log)
    ensures LogOk(ll, FirstLog(n))
  {
    var log := FirstLog(n);
    forall k | 0 <= k < |log| ensures EntryOk(ll, log, k) {
      if k < |n.log| {
        assert EntryOk(ll, n.log, k);
        assert log[..k + 1] == n.log[..k + 1];
      }
    }
  }

  lemma LeadLog(s: State, v: Id, q: set<Id>)
    requires NodesInv(s) && CampInv(s) && RolesInv(s) && LeadersInv(s) && CanLead(s, v, q) && Grows(s, DoLead(s, v, q))
    requires s.nodes[v].term !in s.ll
    ensures var s' := DoLead(s, v, q); NodesInv(s') && LeadersInv(s')
  {
    hide LeaderOk, NodeOk, LogOk;
    LeadFirst(s, v, q);
    LeadOwn(s, v, q);
    LeadNodes(s, v, q);
    OtherLeaders(s, DoLead(s, v, q), s.nodes[v].term);
  }

  lemma LeadFirst(s: State, v: Id, q: set<Id>)
    requires NodesInv(s) && CampInv(s) && RolesInv(s) && CanLead(s, v, q) && Grows(s, DoLead(s, v, q))
    ensures var n := s.nodes[v]; n.term >= 1 && TermsUpTo(n.log, n.term) && LogOk(DoLead(s, v, q).ll, FirstLog(n))
  {
    var s', t := DoLead(s, v, q), s.nodes[v].term;
    assert RoleOk(s, v) && CampOk(s, t, v) && NodeOk(s, v);
    hide NodesInv, CampInv, RolesInv;
    LogOkGrows(s.ll, s'.ll, s.nodes[v].log);
    FirstLogOk(s'.ll, s.nodes[v]);
  }

  lemma LeadOwn(s: State, v: Id, q: set<Id>)
    requires CanLead(s, v, q) && LogOk(DoLead(s, v, q).ll, FirstLog(s.nodes[v]))
    requires s.nodes[v].term >= 1 && TermsUpTo(s.nodes[v].log, s.nodes[v].term)
    ensures LeaderOk(DoLead(s, v, q), s.nodes[v].term)
  {
    hide LogOk;
  }

  lemma LeadNodes(s: State, v: Id, q: set<Id>)
    requires NodesInv(s) && CanLead(s, v, q) && Grows(s, DoLead(s, v, q))
    requires LogOk(DoLead(s, v, q).ll, FirstLog(s.nodes[v]))
    ensures NodesInv(DoLead(s, v, q))
  {
    var s' := DoLead(s, v, q);
    OldLogs(s, s');
    hide LogOk, Grows;
    forall w | w in s'.nodes ensures NodeOk(s', w) { assert NodeOk(s, w); }
  }

  lemma LeadRoles(s: State, v: Id, q: set<Id>)
    requires CampInv(s) && RolesInv(s) && AcksInv(s) && CanLead(s, v, q) && Grows(s, DoLead(s, v, q))
    requires s.nodes[v].term !in s.ll
    ensures var s' := DoLead(s, v, q); CampInv(s') && RolesInv(s') && AcksInv(s')
  {
    var s' := DoLead(s, v, q);
    OldCamps(s, s');
    forall w | w in s'.nodes ensures RoleOk(s', w) { assert RoleOk(s, w); }
    forall t, w | (t, w) in s'.ack ensures AckOk(s', t, w) {
      if (t, w) in s.ack { assert AckOk(s, t, w); }
    }
  }

  lemma LeadKept(s: State, v: Id, q: set<Id>)
    requires KeptInv(s) && AcksInv(s) && CanLead(s, v, q) && Grows(s, DoLead(s, v, q)) && s.nodes[v].term !in s.ll
    ensures KeptInv(DoLead(s, v, q))
  {
    var s', u := DoLead(s, v, q), s.nodes[v].term;
    assert forall w :: (u, w) !in s.ack;
    forall t, w, i | w in s'.nodes && OwnIndex(s', t, i) && Acked(s', t, w, i) ensures Held(s', s'.nodes[w].log, t, i) {
      if t != u {
        assert OwnIndex(s, t, i) && Acked(s, t, w, i);
        HeldGrows(s, s', s.nodes[w].log, s'.nodes[w].log, t, i);
      }
    }
  }

  lemma LeadVoted(s: State, v: Id, q: set<Id>)
    requires VotedInv(s) && VotesInv(s) && AcksInv(s) && CanLead(s, v, q) && Grows(s, DoLead(s, v, q))
    requires s.nodes[v].term !in s.ll
    ensures VotedInv(DoLead(s, v, q))
  {
    var s', n := DoLead(s, v, q), s.nodes[v].term;
    assert forall w :: (n, w) !in s.ack;
    forall u, w, c, t, i | (u, w, c) in s'.votes && (u, c) in s'.camp && t < u && OwnIndex(s', t, i) && Acked(s', t, w, i)
      ensures Held(s', s'.camp[(u, c)], t, i)
    {
      assert VoteOk(s, u, w, c);
      assert t != n;
      assert OwnIndex(s, t, i) && Acked(s, t, w, i);
      HeldGrows(s, s', s.camp[(u, c)], s'.camp[(u, c)], t, i);
    }
  }

  /** The new leader holds everything that may still be chosen in an earlier term. */
  lemma LeaderHolds(s: State, v: Id, q: set<Id>, t: nat, i: nat)
    requires VotedInv(s) && VotesInv(s) && RolesInv(s) && CanLead(s, v, q) && t < s.nodes[v].term && OwnIndex(s, t, i)
    ensures Held(s, s.nodes[v].log, t, i)
  {
    var u := s.nodes[v].term;
    assert RoleOk(s, v);
    if exists w :: w in q && Acked(s, t, w, i) {
      var w :| w in q && Acked(s, t, w, i);
      assert (u, w, v) in s.votes;
    } else {
      forall w | w in q ensures w in s.nodes && s.nodes[w].term > t && !Acked(s, t, w, i) {
        assert VoteOk(s, u, w, v);
      }
      assert BlockedBy(s, q, t, i);
    }
  }

  lemma LeadCompletes(s: State, v: Id, q: set<Id>)
    requires VotedInv(s) && VotesInv(s) && RolesInv(s) && AcksInv(s) && CampInv(s) && CompletenessInv(s)
    requires CanLead(s, v, q) && Grows(s, DoLead(s, v, q)) && s.nodes[v].term !in s.ll
    requires LeadersInv(DoLead(s, v, q)) && VotesInv(DoLead(s, v, q))
    ensures CompletenessInv(DoLead(s, v, q))
  {
    var s', n := DoLead(s, v, q), s.nodes[v].term;
    assert forall w :: (n, w) !in s.ack;
    forall t, u, i | t < u && u in s'.ll && OwnIndex(s', t, i) ensures Held(s', s'.ll[u], t, i) {
      if t == n {
        LaterLeaderBlocks(s', t, u, i);
      } else {
        assert OwnIndex(s, t, i);
        if u == n {
          LeaderHolds(s, v, q, t, i);
          HeldGrows(s, s', s.nodes[v].log, s'.ll[u], t, i);
        } else {
          HeldGrows(s, s', s.ll[u], s'.ll[u], t, i);
        }
      }
    }
  }

  lemma LeadKeeps(s: State, v: Id, q: set<Id>)
    requires Inv(s) && CanLead(s, v, q)
    ensures Grows(s, DoLead(s, v, q)) && Inv(DoLead(s, v, q))
  {
    hide Grows, NodesInv, VotesInv, CampInv, LeadersInv, RolesInv, AcksInv, KeptInv, VotedInv, CompletenessInv, SendsInv, CommitInv;
    var s' := DoLead(s, v, q);
    LeadGrows(s, v, q);
    LeadLog(s, v, q);
    LeadRoles(s, v, q);
    LeadKept(s, v, q);
    LeadVoted(s, v, q);
    OldVotes(s, s');
    LeadCompletes(s, v, q);
    OldSends(s, s');
    LogExtends(s, s', v);
  }

  /** Appending to one log leaves all commit indexes sound. */
  lemma LogExtends(s: State, s': State, v: Id)
    requires CommitInv(s) && Grows(s, s') && v in s.nodes && s.nodes[v].log <= s'.nodes[v].log
    requires forall w :: w in s.nodes ==> s'.nodes[w].commit == s.nodes[w].commit && s'.nodes[w].applied == s.nodes[w].applied
    requires forall w :: w in s.nodes && w != v ==> s'.nodes[w].log == s.nodes[w].log
    ensures CommitInv(s')
  {
    forall w | w in s'.nodes ensures CommitOk(s', s'.nodes[w].log, s'.nodes[w].commit, s'.nodes[w].term) {
      assert NodeGrows(s.nodes[w], s'.nodes[w]);
      var n := s.nodes[w];
      assert n.log <= s'.nodes[w].log;
      CommitGrows(s, s', n.log, s'.nodes[w].log, n.commit, n.term, s'.nodes[w].term);
    }
  }

  // ---- a leader's own entries ----

  lemma AppendGrows(s: State, v: Id, ents: seq<Entry>)
    requires RolesInv(s) && AcksInv(s) && CanAppend(s, v, ents)
    ensures Grows(s, DoAppend(s, v, ents)) && s.nodes[v].term in s.ll && s.ll[s.nodes[v].term] == s.nodes[v].log
  {
    assert RoleOk(s, v);
  }

  lemma AppendLogOk(ll: map<nat, seq<Entry>>, n: Node, ents: seq<Entry>)
    requires n.term >= 1 && n.term in ll && ll[n.term] == n.log + ents && LogOk(ll, n.log)
    requires forall i :: 0 <= i < |ents| ==> ents[i].term == n.term && ents[i].index == |n.log| + i + 1
    ensures LogOk(ll, n.log + ents)
  {
    var log := n.log + ents;
    forall k | 0 <= k < |log| ensures EntryOk(ll, log, k) {
      if k < |n.log| {
        assert EntryOk(ll, n.log, k);
        assert log[..k + 1] == n.log[..k + 1];
      }
    }
  }

  lemma AppendLog(s: State, v: Id, ents: seq<Entry>)
    requires NodesInv(s) && RolesInv(s) && LeadersInv(s) && CanAppend(s, v, ents) && Grows(s, DoAppend(s, v, ents))
    ensures var s' := DoAppend(s, v, ents); NodesInv(s') && LeadersInv(s')
  {
    var s', t := DoAppend(s, v, ents), s.nodes[v].term;
    OldLogs(s, s');
    OwnLogOk(s, v, ents);
    OtherLeaders(s, s', t);
    forall w | w in s'.nodes ensures NodeOk(s', w) {}
  }

  lemma OwnLogOk(s: State, v: Id, ents: seq<Entry>)
    requires NodesInv(s) && RolesInv(s) && LeadersInv(s) && CanAppend(s, v, ents) && Grows(s, DoAppend(s, v, ents))
    ensures LeaderOk(DoAppend(s, v, ents), s.nodes[v].term)
  {
    var s', t := DoAppend(s, v, ents), s.nodes[v].term;
    assert RoleOk(s, v) && LeaderOk(s, t) && t >= 1;
    OldElections(s, s');
    hide NodesInv, LeadersInv, ElectionOk, LogOk, TermsUpTo, EndsIn;
    OwnEntries(s, v, ents);
  }

  lemma OwnEntries(s: State, v: Id, ents: seq<Entry>)
    requires NodesInv(s) && CanAppend(s, v, ents) && Grows(s, DoAppend(s, v, ents))
    requires var t := s.nodes[v].term; t >= 1 && t in s.ll && TermsUpTo(s.ll[t], t) && EndsIn(s.ll[t], t) && s.ll[t] == s.nodes[v].log
    ensures var s', t := DoAppend(s, v, ents), s.nodes[v].term; LogOk(s'.ll, s'.ll[t]) && TermsUpTo(s'.ll[t], t) && EndsIn(s'.ll[t], t)
  {
    var s' := DoAppend(s, v, ents);
    LogOkGrows(s.ll, s'.ll, s.nodes[v].log);
    AppendLogOk(s'.ll, s.nodes[v], ents);
  }

  lemma OtherLeaders(s: State, s': State, t: nat)
    requires LeadersInv(s) && Grows(s, s') && t in s'.ll && s'.ll == s.ll[t := s'.ll[t]]
    requires LeaderOk(s', t)
    ensures LeadersInv(s')
  {
    OldElections(s, s');
    forall u | u in s'.ll ensures LeaderOk(s', u) {
      if u != t {
        assert LeaderOk(s, u);
        LogOkGrows(s.ll, s'.ll, s.ll[u]);
      }
    }
  }

  lemma AppendRoles(s: State, v: Id, ents: seq<Entry>)
    requires CampInv(s) && RolesInv(s) && AcksInv(s) && CanAppend(s, v, ents) && Grows(s, DoAppend(s, v, ents))
    ensures var s' := DoAppend(s, v, ents); CampInv(s') && RolesInv(s') && AcksInv(s')
  {
    var s' := DoAppend(s, v, ents);
    OldCamps(s, s');
    assert RoleOk(s, v);
    forall w | w in s'.nodes ensures RoleOk(s', w) { assert RoleOk(s, w); }
    forall t, w | (t, w) in s'.ack ensures AckOk(s', t, w) {
      if (t, w) in s.ack {
        assert AckOk(s, t, w);
        assert s.ll[t][..s.ack[(t, w)]] == s'.ll[t][..s.ack[(t, w)]];
      }
    }
  }

  lemma AppendKept(s: State, v: Id, ents: seq<Entry>)
    requires KeptInv(s) && AcksInv(s) && RolesInv(s) && CanAppend(s, v, ents) && Grows(s, DoAppend(s, v, ents))
    ensures KeptInv(DoAppend(s, v, ents))
  {
    var s', u := DoAppend(s, v, ents), s.nodes[v].term;
    assert RoleOk(s, v);
    forall t, w, i | w in s'.nodes && OwnIndex(s', t, i) && Acked(s', t, w, i) ensures Held(s', s'.nodes[w].log, t, i) {
      if !(t == u && w == v) {
        assert Acked(s, t, w, i) && AckOk(s, t, w);
        assert OwnIndex(s, t, i);
        HeldGrows(s, s', s.nodes[w].log, s'.nodes[w].log, t, i);
      }
    }
  }

  lemma AppendVoted(s: State, v: Id, ents: seq<Entry>)
    requires VotedInv(s) && VotesInv(s) && AcksInv(s) && RolesInv(s) && CanAppend(s, v, ents) && Grows(s, DoAppend(s, v, ents))
    ensures VotedInv(DoAppend(s, v, ents))
  {
    var s', n := DoAppend(s, v, ents), s.nodes[v].term;
    assert RoleOk(s, v);
    forall u, w, c, t, i | (u, w, c) in s'.votes && (u, c) in s'.camp && t < u && OwnIndex(s', t, i) && Acked(s', t, w, i)
      ensures Held(s', s'.camp[(u, c)], t, i)
    {
      assert VoteOk(s, u, w, c);
      assert !(t == n && w == v);
      assert Acked(s, t, w, i) && AckOk(s, t, w);
      assert OwnIndex(s, t, i);
      HeldGrows(s, s', s.camp[(u, c)], s'.camp[(u, c)], t, i);
    }
  }

  lemma AppendCompletes(s: State, v: Id, ents: seq<Entry>)
    requires RolesInv(s) && AcksInv(s) && CompletenessInv(s) && CanAppend(s, v, ents) && Grows(s, DoAppend(s, v, ents))
    requires LeadersInv(DoAppend(s, v, ents)) && VotesInv(DoAppend(s, v, ents))
    ensures CompletenessInv(DoAppend(s, v, ents))
  {
    var s', n := DoAppend(s, v, ents), s.nodes[v].term;
    assert RoleOk(s, v);
    forall t: nat, u: nat, i: nat | t < u && u in s'.ll && OwnIndex(s', t, i) ensures Held(s', s'.ll[u], t, i) {
      if t == n && i > |s.ll[n]| {
        forall w | w in s'.nodes && s'.nodes[w].term > t ensures !Acked(s', t, w, i) {
          if (t, w) in s.ack { assert AckOk(s, t, w); }
        }
        LaterLeaderBlocks(s', t, u, i);
      } else {
        assert OwnIndex(s, t, i);
        assert s.ll[u] <= s'.ll[u];
        HeldGrows(s, s', s.ll[u], s'.ll[u], t, i);
      }
    }
  }

  lemma AppendKeeps(s: State, v: Id, ents: seq<Entry>)
    requires Inv(s) && CanAppend(s, v, ents)
    ensures Grows(s, DoAppend(s, v, ents)) && Inv(DoAppend(s, v, ents))
  {
    hide Grows, NodesInv, VotesInv, CampInv, LeadersInv, RolesInv, AcksInv, KeptInv, VotedInv, CompletenessInv, SendsInv, CommitInv;
    var s' := DoAppend(s, v, ents);
    AppendGrows(s, v, ents);
    AppendLog(s, v, ents);
    AppendRoles(s, v, ents);
    AppendKept(s, v, ents);
    AppendVoted(s, v, ents);
    OldVotes(s, s');
    AppendCompletes(s, v, ents);
    OldSends(s, s');
    LogExtends(s, s', v);
  }

  // ---- committing ----

  lemma ChosenNotBlocked(s: State, t: nat, i: nat)
    requires Chosen(s, t, i)
    ensures !Blocked(s, t, i)
  {
    if Blocked(s, t, i) {
      var q :| ChosenBy(s, q, t, i);
      var p :| BlockedBy(s, p, t, i);
      var x := QuorumsMeet(s.servers, q, p);
      assert false;
    }
  }

  /** Leader completeness: what was chosen in term t is in the log of every leader of t or later. */
  lemma LeaderCompleteness(s: State, t: nat, i: nat, u: nat)
    requires CompletenessInv(s) && Chosen(s, t, i) && t <= u && u in s.ll
    ensures i <= |s.ll[u]| && s.ll[u][..i] == s.ll[t][..i]
  {
    ChosenNotBlocked(s, t, i);
    assert t < u ==> Held(s, s.ll[u], t, i);
  }

  /** A node's committed entries are in the log of the leader of its term. */
  lemma CommittedAgrees(s: State, v: Id)
    requires CompletenessInv(s) && CommitInv(s) && v in s.nodes && s.nodes[v].term in s.ll
    ensures var n := s.nodes[v];
      n.commit <= |n.log| && n.commit <= |s.ll[n.term]| && n.log[..n.commit] == s.ll[n.term][..n.commit]
      && CommitOk(s, s.ll[n.term], n.commit, n.term)
  {
    var n := s.nodes[v];
    if n.commit > 0 {
      var t0: nat, i: nat :| CommitWitness(s, n.log, n.commit, n.term, t0, i);
      LeaderCompleteness(s, t0, i, n.term);
      var l, l0 := s.ll[n.term], s.ll[t0];
      assert l[..n.commit] == l[..i][..n.commit] == l0[..i][..n.commit] == l0[..n.commit];
      assert CommitWitness(s, l, n.commit, n.term, t0, i);
    }
  }

  // ---- steps of one node that touch neither logs nor votes ----

  ghost predicate QuietChange(s: State, v: Id, n': Node) {
    v in s.nodes && var n := s.nodes[v];
    && NodeGrows(n, n') && n'.log == n.log
    && (n'.role == Follower || (n'.role == n.role && n'.term == n.term))
    && n'.applied <= n'.commit && CommitOk(s, n'.log, n'.commit, n'.term)
  }

  lemma QuietGrows(s: State, v: Id, n': Node)
    requires QuietChange(s, v, n')
    ensures var s' := s.(nodes := s.nodes[v := n']); Grows(s, s') && SameLogs(s, s')
  {}

  lemma QuietRoles(s: State, v: Id, n': Node)
    requires QuietChange(s, v, n') && RolesInv(s)
    ensures RolesInv(s.(nodes := s.nodes[v := n']))
  {
    var s' := s.(nodes := s.nodes[v := n']);
    forall w | w in s'.nodes ensures RoleOk(s', w) { assert RoleOk(s, w); }
  }

  lemma QuietCommits(s: State, v: Id, n': Node)
    requires QuietChange(s, v, n') && CommitInv(s) && Grows(s, s.(nodes := s.nodes[v := n']))
    ensures CommitInv(s.(nodes := s.nodes[v := n']))
  {
    var s' := s.(nodes := s.nodes[v := n']);
    OldCommits(s, s');
    CommitGrows(s, s', n'.log, n'.log, n'.commit, n'.term, n'.term);
  }

  lemma QuietKeeps(s: State, v: Id, n': Node)
    requires Inv(s) && QuietChange(s, v, n')
    ensures var s' := s.(nodes := s.nodes[v := n']); Grows(s, s') && Inv(s')
  {
    hide QuietChange, Grows, SameLogs, NodesInv, VotesInv, CampInv, LeadersInv, RolesInv, AcksInv, KeptInv, VotedInv, CompletenessInv, SendsInv, CommitInv;
    var s' := s.(nodes := s.nodes[v := n']);
    QuietGrows(s, v, n');
    QuietRoles(s, v, n');
    QuietCommits(s, v, n');
    QuietHistory(s, s');
  }

  lemma QuietHistory(s: State, s': State)
    requires Inv(s) && Grows(s, s') && SameLogs(s, s') && s'.votes == s.votes && s'.camp == s.camp
    ensures NodesInv(s') && VotesInv(s') && CampInv(s') && LeadersInv(s') && AcksInv(s') && KeptInv(s')
    ensures VotedInv(s') && CompletenessInv(s') && (s'.sends == s.sends ==> SendsInv(s'))
  {
    hide SameLogs, NodesInv, VotesInv, LeadersInv, AcksInv, KeptInv, VotedInv, CompletenessInv, SendsInv;
    QuietKept(s, s');
    QuietLeaders(s, s');
    OldVotes(s, s');
    OldCamps(s, s');
    OldSends(s, s');
    QuietVoted(s, s');
  }

  lemma QuietVoted(s: State, s': State)
    requires VotedInv(s) && Grows(s, s') && SameLogs(s, s') && s'.votes == s.votes && s'.camp == s.camp
    ensures VotedInv(s')
  {
    forall u, w, c, t, i | (u, w, c) in s'.votes && (u, c) in s'.camp && t < u && OwnIndex(s', t, i) && Acked(s', t, w, i)
      ensures Held(s', s'.camp[(u, c)], t, i)
    {
      assert OwnIndex(s, t, i) && Acked(s, t, w, i);
      HeldGrows(s, s', s.camp[(u, c)], s'.camp[(u, c)], t, i);
    }
  }

  lemma CommitKeeps(s: State, v: Id, k: nat, q: set<Id>)
    requires Inv(s) && CanCommit(s, v, k, q)
    ensures Grows(s, DoCommit(s, v, k)) && Inv(DoCommit(s, v, k))
  {
    hide NodesInv, VotesInv, CampInv, LeadersInv, AcksInv, KeptInv, VotedInv, CompletenessInv, SendsInv, Grows;
    var n := s.nodes[v];
    QuietKeeps(s, v, n.(commit := k)) by {
      assert RoleOk(s, v);
      assert ChosenBy(s, q, n.term, k);
      assert CommitWitness(s, n.log, k, n.term, n.term, k);
    }
  }

  lemma UpdateTermKeeps(s: State, v: Id, t: nat)
    requires Inv(s) && v in s.nodes && s.nodes[v].term < t
    ensures Grows(s, DoUpdateTerm(s, v, t)) && Inv(DoUpdateTerm(s, v, t))
  {
    hide NodesInv, VotesInv, CampInv, LeadersInv, RolesInv, AcksInv, KeptInv, VotedInv, CompletenessInv, SendsInv, CommitInv, CommitOk, Grows;
    LaterTerm(s, v, t);
    QuietKeeps(s, v, s.nodes[v].(term := t, vote := NO_LEADER, role := Follower));
  }

  lemma LaterTerm(s: State, v: Id, t: nat)
    requires CommitInv(s) && v in s.nodes && s.nodes[v].term <= t
    ensures CommitOk(s, s.nodes[v].log, s.nodes[v].commit, t) && s.nodes[v].applied <= s.nodes[v].commit
  {
    var n := s.nodes[v];
    if n.commit > 0 {
      var t0: nat, i: nat :| CommitWitness(s, n.log, n.commit, n.term, t0, i);
      assert CommitWitness(s, n.log, n.commit, t, t0, i);
    }
  }

  lemma StepDownKeeps(s: State, v: Id)
    requires Inv(s) && v in s.nodes
    ensures Grows(s, DoStepDown(s, v)) && Inv(DoStepDown(s, v))
  {
    QuietKeeps(s, v, s.nodes[v].(role := Follower));
  }

  lemma ApplyKeeps(s: State, v: Id)
    requires Inv(s) && v in s.nodes && s.nodes[v].commit <= |s.nodes[v].log|
    ensures Grows(s, DoApply(s, v)) && Inv(DoApply(s, v))
  {
    QuietKeeps(s, v, DoApply(s, v).nodes[v]);
  }

  // ---- offering entries ----

  lemma SendGrows(s: State, v: Id)
    requires CanSend(s, v)
    ensures Grows(s, DoSend(s, v)) && SameLogs(s, DoSend(s, v))
  {}

  lemma SendSends(s: State, v: Id)
    requires CanSend(s, v) && SendsInv(s) && RolesInv(s) && CommitInv(s) && Grows(s, DoSend(s, v))
    ensures SendsInv(DoSend(s, v)) && RolesInv(DoSend(s, v)) && CommitInv(DoSend(s, v))
  {
    var s' := DoSend(s, v);
    OldSends(s, s');
    OldCommits(s, s');
    assert RoleOk(s, v);
    forall w | w in s'.nodes ensures RoleOk(s', w) { assert RoleOk(s, w); }
  }

  lemma SendKeeps(s: State, v: Id)
    requires Inv(s) && CanSend(s, v)
    ensures Grows(s, DoSend(s, v)) && Inv(DoSend(s, v))
  {
    hide Grows, SameLogs, NodesInv, VotesInv, CampInv, LeadersInv, RolesInv, AcksInv, KeptInv, VotedInv, CompletenessInv, SendsInv, CommitInv;
    SendGrows(s, v);
    SendSends(s, v);
    QuietHistory(s, DoSend(s, v));
  }

  // ---- accepting ----

  lemma AdoptHas(log: seq<Entry>, leaders: seq<Entry>, j: nat, a: nat)
    requires j <= |leaders| && a <= |log| && a <= |leaders| && log[..a] == leaders[..a]
    ensures var r := Adopt(log, leaders, j); a <= |r| && r[..a] == leaders[..a] && j <= |r| && r[..j] == leaders[..j]
  {
    if a <= j {
      assert leaders[..j][..a] == leaders[..a];
    } else {
      assert log[..a][..j] == log[..j] && leaders[..a][..j] == leaders[..j];
    }
  }

  lemma AcceptGrows(s: State, v: Id, j: nat, k: nat)
    requires v in s.nodes && s.nodes[v].term in s.ll && j <= |s.ll[s.nodes[v].term]|
    ensures Grows(s, DoAccept(s, v, j, k))
  {}

  lemma AcceptLog(s: State, v: Id, j: nat, k: nat)
    requires NodesInv(s) && LeadersInv(s) && v in s.nodes && s.nodes[v].term in s.ll && j <= |s.ll[s.nodes[v].term]|
    requires Grows(s, DoAccept(s, v, j, k))
    ensures var s' := DoAccept(s, v, j, k); NodesInv(s') && LeadersInv(s')
  {
    var s', t := DoAccept(s, v, j, k), s.nodes[v].term;
    OldElections(s, s');
    assert LeaderOk(s, t) && NodeOk(s, v);
    LogOkPrefix(s.ll, s.ll[t], j);
    forall u | u in s'.ll ensures LeaderOk(s', u) { assert LeaderOk(s, u); }
    forall w | w in s'.nodes ensures NodeOk(s', w) { assert NodeOk(s, w); }
  }

  lemma AcceptRoles(s: State, v: Id, j: nat, k: nat)
    requires CampInv(s) && RolesInv(s) && v in s.nodes && s.nodes[v].term in s.ll && j <= |s.ll[s.nodes[v].term]|
    requires Grows(s, DoAccept(s, v, j, k))
    ensures var s' := DoAccept(s, v, j, k); CampInv(s') && RolesInv(s')
  {
    var s' := DoAccept(s, v, j, k);
    OldCamps(s, s');
    forall w | w in s'.nodes ensures RoleOk(s', w) { assert RoleOk(s, w); }
  }

  lemma AcceptAcks(s: State, v: Id, j: nat, k: nat)
    requires AcksInv(s) && v in s.nodes && s.nodes[v].term in s.ll && j <= |s.ll[s.nodes[v].term]|
    ensures AcksInv(DoAccept(s, v, j, k))
  {
    var s', u := DoAccept(s, v, j, k), s.nodes[v].term;
    forall t, w | (t, w) in s'.ack ensures AckOk(s', t, w) {
      if (t, w) in s.ack {
        assert AckOk(s, t, w);
      }
      if t == u && w == v {
        var a := if (t, w) in s.ack then s.ack[(t, w)] else 0;
        AdoptHas(s.nodes[v].log, s.ll[u], j, a);
      }
    }
  }

  lemma AcceptKept(s: State, v: Id, j: nat, k: nat)
    requires KeptInv(s) && CompletenessInv(s) && v in s.nodes && s.nodes[v].term in s.ll && j <= |s.ll[s.nodes[v].term]|
    requires Grows(s, DoAccept(s, v, j, k)) && AcksInv(s) && AcksInv(DoAccept(s, v, j, k))
    ensures KeptInv(DoAccept(s, v, j, k))
  {
    var s', u := DoAccept(s, v, j, k), s.nodes[v].term;
    forall t, w, i | w in s'.nodes && OwnIndex(s', t, i) && Acked(s', t, w, i) ensures Held(s', s'.nodes[w].log, t, i) {
      assert OwnIndex(s, t, i);
      if w != v {
        assert Acked(s, t, w, i);
        HeldGrows(s, s', s.nodes[w].log, s'.nodes[w].log, t, i);
      } else {
        AcceptKeptBy(s, v, j, k, t, i);
      }
    }
  }

  lemma AcceptKeptBy(s: State, v: Id, j: nat, k: nat, t: nat, i: nat)
    requires KeptInv(s) && CompletenessInv(s) && v in s.nodes && s.nodes[v].term in s.ll && j <= |s.ll[s.nodes[v].term]|
    requires Grows(s, DoAccept(s, v, j, k)) && AcksInv(DoAccept(s, v, j, k))
    requires OwnIndex(s, t, i) && Acked(DoAccept(s, v, j, k), t, v, i)
    ensures var s' := DoAccept(s, v, j, k); OwnIndex(s', t, i) && Held(s', s'.nodes[v].log, t, i)
  {
    var s', u := DoAccept(s, v, j, k), s.nodes[v].term;
    assert AckOk(s', t, v);
    if t == u {
      var a, log' := s'.ack[(t, v)], s'.nodes[v].log;
      assert log'[..i] == log'[..a][..i] == s.ll[t][..a][..i] == s.ll[t][..i];
    } else {
      assert Acked(s, t, v, i);
      if Blocked(s, t, i) {
        BlockedGrows(s, s', t, i);
      } else {
        assert Held(s, s.ll[u], t, i) && Held(s, s.nodes[v].log, t, i);
        AdoptHas(s.nodes[v].log, s.ll[u], j, i);
      }
    }
  }

  lemma AcceptVoted(s: State, v: Id, j: nat, k: nat)
    requires VotedInv(s) && VotesInv(s) && v in s.nodes && s.nodes[v].term in s.ll && j <= |s.ll[s.nodes[v].term]|
    requires Grows(s, DoAccept(s, v, j, k))
    ensures VotedInv(DoAccept(s, v, j, k))
  {
    var s', n := DoAccept(s, v, j, k), s.nodes[v].term;
    forall u, w, c, t, i | (u, w, c) in s'.votes && (u, c) in s'.camp && t < u && OwnIndex(s', t, i) && Acked(s', t, w, i)
      ensures Held(s', s'.camp[(u, c)], t, i)
    {
      assert VoteOk(s, u, w, c);
      assert !(t == n && w == v);
      assert OwnIndex(s, t, i) && Acked(s, t, w, i);
      HeldGrows(s, s', s.camp[(u, c)], s'.camp[(u, c)], t, i);
    }
  }

  lemma AcceptCompletes(s: State, v: Id, j: nat, k: nat)
    requires CompletenessInv(s) && v in s.nodes && s.nodes[v].term in s.ll && j <= |s.ll[s.nodes[v].term]|
    requires Grows(s, DoAccept(s, v, j, k))
    ensures CompletenessInv(DoAccept(s, v, j, k))
  {
    var s' := DoAccept(s, v, j, k);
    forall t, u, i | t < u && u in s'.ll && OwnIndex(s', t, i) ensures Held(s', s'.ll[u], t, i) {
      assert OwnIndex(s, t, i);
      HeldGrows(s, s', s.ll[u], s'.ll[u], t, i);
    }
  }

  lemma AcceptCommit(s: State, v: Id, j: nat, k: nat)
    requires CompletenessInv(s) && CommitInv(s) && v in s.nodes && s.nodes[v].term in s.ll
    requires SendOk(s, s.nodes[v].term, j, k) && Grows(s, DoAccept(s, v, j, k))
    ensures CommitInv(DoAccept(s, v, j, k))
  {
    var s' := DoAccept(s, v, j, k);
    OldCommits(s, s');
    AcceptCommitBy(s, v, j, k);
  }

  lemma AcceptCommitBy(s: State, v: Id, j: nat, k: nat)
    requires CompletenessInv(s) && CommitInv(s) && v in s.nodes && s.nodes[v].term in s.ll
    requires SendOk(s, s.nodes[v].term, j, k) && Grows(s, DoAccept(s, v, j, k))
    ensures var s' := DoAccept(s, v, j, k); CommitOk(s', s'.nodes[v].log, s'.nodes[v].commit, s'.nodes[v].term)
  {
    hide CompletenessInv, Grows;
    var s', n := DoAccept(s, v, j, k), s.nodes[v];
    var l := s.ll[n.term];
    CommittedAgrees(s, v);
    AdoptHas(n.log, l, j, n.commit);
    var log', c := s'.nodes[v].log, s'.nodes[v].commit;
    if n.commit >= Min(k, j) {
      CommitGrows(s, s', n.log, log', c, n.term, n.term);
    } else {
      CommitLess(s, l, k, c, n.term);
      assert log'[..c] == log'[..j][..c] == l[..j][..c] == l[..c];
      CommitGrows(s, s', l, log', c, n.term, n.term);
    }
  }

  lemma CommitLess(s: State, log: seq<Entry>, k: nat, c: nat, t: nat)
    requires CommitOk(s, log, k, t) && c <= k
    ensures CommitOk(s, log, c, t)
  {
    if c > 0 {
      var t0: nat, i: nat :| CommitWitness(s, log, k, t, t0, i);
      assert log[..c] == log[..k][..c] == s.ll[t0][..k][..c] == s.ll[t0][..c];
      assert CommitWitness(s, log, c, t, t0, i);
    }
  }

  lemma AcceptKeeps(s: State, v: Id, j: nat, k: nat)
    requires Inv(s) && v in s.nodes && s.nodes[v].term in s.ll && SendOk(s, s.nodes[v].term, j, k)
    ensures Grows(s, DoAccept(s, v, j, k)) && Inv(DoAccept(s, v, j, k))
  {
    hide Grows, NodesInv, VotesInv, CampInv, LeadersInv, RolesInv, AcksInv, KeptInv, VotedInv, CompletenessInv, SendsInv, CommitInv;
    var s' := DoAccept(s, v, j, k);
    AcceptGrows(s, v, j, k);
    AcceptLog(s, v, j, k);
    AcceptRoles(s, v, j, k);
    AcceptAcks(s, v, j, k);
    AcceptKept(s, v, j, k);
    AcceptVoted(s, v, j, k);
    AcceptCompletes(s, v, j, k);
    AcceptCommit(s, v, j, k);
    OldVotes(s, s');
    OldSends(s, s');
  }

  /** Answering with one's own commit index is the same as accepting that much of the leader's log. */
  lemma AckCommitKeeps(s: State, v: Id)
    requires Inv(s) && CanAckCommit(s, v)
    ensures Grows(s, DoAckCommit(s, v)) && Inv(DoAckCommit(s, v))
  {
    var n := s.nodes[v];
    CommittedAgrees(s, v);
    AcceptKeeps(s, v, n.commit, n.commit);
    assert DoAckCommit(s, v) == DoAccept(s, v, n.commit, n.commit);
  }
}
