/** Elections keep the invariant: votes, campaigns, and the log a new leader starts from. */
module CoreElection {
  import opened RaftTypes
  import opened CoreRaft
  import opened CoreInvariant

  /** Two logs with the same term at an index agree up to it: both copy the leader of that term. */
  lemma LogMatching(ll: map<nat, seq<Entry>>, a: seq<Entry>, b: seq<Entry>, k: nat)
    requires LogOk(ll, a) && LogOk(ll, b) && k < |a| && k < |b| && a[k].term == b[k].term
    ensures a[..k + 1] == b[..k + 1]
  {
    assert EntryOk(ll, a, k) && EntryOk(ll, b, k);
  }

  /** Terms never fall along a log. */
  lemma TermsRise(s: State, log: seq<Entry>, a: nat, b: nat)
    requires LeadersInv(s) && LogOk(s.ll, log) && a <= b < |log|
    ensures log[a].term <= log[b].term
  {
    var u := log[b].term;
    assert EntryOk(s.ll, log, b);
    assert log[a] == log[..b + 1][a] == s.ll[u][..b + 1][a] == s.ll[u][a];
    assert LeaderOk(s, u);
  }

  /** A candidate that a majority voted for is the first leader of its term. */
  lemma FirstLeader(s: State, v: Id, q: set<Id>)
    requires LeadersInv(s) && VotesInv(s) && RolesInv(s) && CanLead(s, v, q)
    ensures s.nodes[v].term !in s.ll
  {
    var t := s.nodes[v].term;
    if t in s.ll {
      assert LeaderOk(s, t);
      var x := QuorumsMeet(s.servers, q, s.electors[t]);
      assert false;
    }
  }

  /** A later leader's electors block every index of term t that none of them acknowledged. */
  lemma LaterLeaderBlocks(s: State, t: nat, u: nat, i: nat)
    requires LeadersInv(s) && VotesInv(s) && u in s.ll && t < u
    requires forall v :: v in s.nodes && s.nodes[v].term > t ==> !Acked(s, t, v, i)
    ensures Blocked(s, t, i)
  {
    assert LeaderOk(s, u);
    forall v | v in s.electors[u] ensures v in s.nodes && s.nodes[v].term > t {
      assert VoteOk(s, u, v, s.who[u]);
    }
    assert BlockedBy(s, s.electors[u], t, i);
  }

  /** A voter's log holds what it acknowledged, and the vote rule passes that on to the candidate. */
  lemma VoteHeld(s: State, mine: seq<Entry>, theirs: seq<Entry>, t: nat, i: nat)
    requires LeadersInv(s) && CompletenessInv(s) && LogOk(s.ll, mine) && LogOk(s.ll, theirs)
    requires OwnIndex(s, t, i) && Held(s, mine, t, i) && UpToDate(mine, theirs)
    ensures Held(s, theirs, t, i)
  {
    if !Blocked(s, t, i) {
      assert mine[i - 1] == mine[..i][i - 1] == s.ll[t][i - 1];
      TermsRise(s, mine, i - 1, |mine| - 1);
      var u := LastTerm(theirs);
      assert t >= 1 by { assert LeaderOk(s, t); }
      var l := |theirs| - 1;
      assert EntryOk(s.ll, theirs, l);
      assert theirs[..l + 1] == theirs;
      if u == LastTerm(mine) {
        LogMatching(s.ll, mine, theirs, |mine| - 1) by {
          assert EntryOk(s.ll, mine, |mine| - 1);
          assert theirs[|mine| - 1] == s.ll[u][|mine| - 1] == mine[..|mine|][|mine| - 1];
        }
        assert theirs[..i] == theirs[..|mine|][..i] == mine[..|mine|][..i] == mine[..i];
      } else {
        assert Held(s, s.ll[u], t, i);
        HeldPrefix(s, theirs, u, t, i);
      }
    }
  }

  /** A prefix of a later leader's log that reaches into the leader's own term holds index i. */
  lemma HeldPrefix(s: State, log: seq<Entry>, u: nat, t: nat, i: nat)
    requires LeadersInv(s) && OwnIndex(s, t, i) && u in s.ll && t < u
    requires i <= |s.ll[u]| && s.ll[u][..i] == s.ll[t][..i]
    requires log != [] && |log| <= |s.ll[u]| && log == s.ll[u][..|log|] && log[|log| - 1].term == u
    ensures i <= |log| && log[..i] == s.ll[t][..i]
  {
    SharedTerm(s, u, t, i, |log| - 1);
    assert log[..i] == s.ll[u][..i];
  }

  /** Where two leaders' logs agree, the terms are those of the earlier leader. */
  lemma SharedTerm(s: State, u: nat, t: nat, i: nat, l: nat)
    requires LeadersInv(s) && OwnIndex(s, t, i) && u in s.ll
    requires i <= |s.ll[u]| && s.ll[u][..i] == s.ll[t][..i] && l < |s.ll[u]|
    ensures l < i ==> s.ll[u][l].term <= t
  {
    if l < i {
      assert s.ll[u][l] == s.ll[u][..i][l] == s.ll[t][..i][l] == s.ll[t][l];
      assert LeaderOk(s, t);
    }
  }

  // ---- steps that leave every log, every leader and every acknowledgement as they were ----

  ghost predicate SameLogs(s: State, s': State) {
    && s'.ll == s.ll && s'.ack == s.ack && s'.who == s.who && s'.electors == s.electors
    && s'.nodes.Keys == s.nodes.Keys
    && forall v :: v in s.nodes ==> s'.nodes[v].log == s.nodes[v].log
  }

  lemma QuietKept(s: State, s': State)
    requires KeptInv(s) && AcksInv(s) && Grows(s, s') && SameLogs(s, s')
    ensures AcksInv(s') && KeptInv(s')
  {
    forall t, v | (t, v) in s'.ack ensures AckOk(s', t, v) {
      assert AckOk(s, t, v) && NodeGrows(s.nodes[v], s'.nodes[v]);
    }
    forall t, v, i | v in s'.nodes && OwnIndex(s', t, i) && Acked(s', t, v, i) ensures Held(s', s'.nodes[v].log, t, i) {
      assert OwnIndex(s, t, i) && Acked(s, t, v, i);
      HeldGrows(s, s', s.nodes[v].log, s'.nodes[v].log, t, i);
    }
  }

  lemma QuietLeaders(s: State, s': State)
    requires LeadersInv(s) && CompletenessInv(s) && NodesInv(s) && Grows(s, s') && SameLogs(s, s')
    ensures LeadersInv(s') && CompletenessInv(s') && NodesInv(s')
  {
    OldElections(s, s');
    OldLogs(s, s');
    forall t | t in s'.ll ensures LeaderOk(s', t) { assert LeaderOk(s, t); }
    forall t, u, i | t < u && u in s'.ll && OwnIndex(s', t, i) ensures Held(s', s'.ll[u], t, i) {
      assert OwnIndex(s, t, i);
      HeldGrows(s, s', s.ll[u], s'.ll[u], t, i);
    }
  }

  // ---- campaigning ----

  lemma CampaignGrows(s: State, v: Id)
    requires CampInv(s) && CanCampaign(s, v)
    ensures var s' := DoCampaign(s, v); Grows(s, s') && SameLogs(s, s')
  {
    assert (s.nodes[v].term + 1, v) !in s.camp;
  }

  lemma CampaignVotes(s: State, v: Id)
    requires NodesInv(s) && VotesInv(s) && CanCampaign(s, v) && Grows(s, DoCampaign(s, v))
    ensures VotesInv(DoCampaign(s, v))
  {
    var s' := DoCampaign(s, v);
    OldVotes(s, s');
    forall t, w, c | (t, w, c) in s.votes ensures (t, w) != (s.nodes[v].term + 1, v) {
      assert VoteOk(s, t, w, c);
    }
    forall t, w, c | (t, w, c) in s'.votes ensures VoteOk(s', t, w, c) {}
  }

  lemma CampaignRoles(s: State, v: Id)
    requires NodesInv(s) && CampInv(s) && RolesInv(s) && LeadersInv(s) && CanCampaign(s, v) && Grows(s, DoCampaign(s, v))
    ensures CampInv(DoCampaign(s, v)) && RolesInv(DoCampaign(s, v))
  {
    var s' := DoCampaign(s, v);
    OldCamps(s, s');
    assert NodeOk(s, v);
    var t := s.nodes[v].term + 1;
    assert t in s.ll ==> LeaderOk(s, t);
    forall w | w in s'.nodes ensures RoleOk(s', w) { assert RoleOk(s, w); }
  }

  lemma CampaignVoted(s: State, v: Id)
    requires VotedInv(s) && KeptInv(s) && VotesInv(s) && CanCampaign(s, v)
    requires Grows(s, DoCampaign(s, v)) && SameLogs(s, DoCampaign(s, v))
    ensures VotedInv(DoCampaign(s, v))
  {
    var s' := DoCampaign(s, v);
    forall u, w, c, t, i | (u, w, c) in s'.votes && (u, c) in s'.camp && t < u && OwnIndex(s', t, i) && Acked(s', t, w, i)
      ensures Held(s', s'.camp[(u, c)], t, i)
    {
      assert OwnIndex(s, t, i) && Acked(s, t, w, i);
      if (u, w, c) in s.votes {
        assert VoteOk(s, u, w, c);
        HeldGrows(s, s', s.camp[(u, c)], s'.camp[(u, c)], t, i);
      } else {
        HeldGrows(s, s', s.nodes[v].log, s.nodes[v].log, t, i);
      }
    }
  }

  lemma CampaignKeeps(s: State, v: Id)
    requires Inv(s) && CanCampaign(s, v)
    ensures Grows(s, DoCampaign(s, v)) && Inv(DoCampaign(s, v))
  {
    var s' := DoCampaign(s, v);
    CampaignGrows(s, v);
    CampaignVotes(s, v);
    CampaignRoles(s, v);
    CampaignVoted(s, v);
    QuietKept(s, s');
    QuietLeaders(s, s');
    OldSends(s, s');
    OldCommits(s, s');
  }

  // ---- granting a vote ----

  lemma GrantGrows(s: State, v: Id, c: Id)
    requires CanGrant(s, v, c)
    ensures var s' := DoGrant(s, v, c); Grows(s, s') && SameLogs(s, s')
  {}

  lemma GrantVotes(s: State, v: Id, c: Id)
    requires NodesInv(s) && VotesInv(s) && CampInv(s) && CanGrant(s, v, c) && Grows(s, DoGrant(s, v, c))
    ensures VotesInv(DoGrant(s, v, c))
  {
    var s' := DoGrant(s, v, c);
    OldVotes(s, s');
    assert CampOk(s, s.nodes[v].term, c);
    forall t, w, d | (t, w, d) in s.votes && t == s.nodes[v].term && w == v ensures d == c {
      assert VoteOk(s, t, w, d);
    }
    forall t, w, d | (t, w, d) in s'.votes ensures VoteOk(s', t, w, d) {}
  }

  lemma GrantRoles(s: State, v: Id, c: Id)
    requires CampInv(s) && RolesInv(s) && CanGrant(s, v, c) && Grows(s, DoGrant(s, v, c))
    ensures CampInv(DoGrant(s, v, c)) && RolesInv(DoGrant(s, v, c))
  {
    var s' := DoGrant(s, v, c);
    OldCamps(s, s');
    forall w | w in s'.nodes ensures RoleOk(s', w) { assert RoleOk(s, w); }
  }

  lemma GrantVoted(s: State, v: Id, c: Id)
    requires NodesInv(s) && CampInv(s) && LeadersInv(s) && KeptInv(s) && VotedInv(s) && CompletenessInv(s)
    requires CanGrant(s, v, c) && Grows(s, DoGrant(s, v, c)) && SameLogs(s, DoGrant(s, v, c))
    ensures VotedInv(DoGrant(s, v, c))
  {
    var s' := DoGrant(s, v, c);
    forall u, w, d, t, i | (u, w, d) in s'.votes && (u, d) in s'.camp && t < u && OwnIndex(s', t, i) && Acked(s', t, w, i)
      ensures Held(s', s'.camp[(u, d)], t, i)
    {
      assert OwnIndex(s, t, i) && Acked(s, t, w, i);
      if (u, w, d) !in s.votes {
        assert NodeOk(s, v) && CampOk(s, u, d);
        VoteHeld(s, s.nodes[v].log, s.camp[(u, d)], t, i);
      }
      HeldGrows(s, s', s.camp[(u, d)], s'.camp[(u, d)], t, i);
    }
  }

  lemma GrantKeeps(s: State, v: Id, c: Id)
    requires Inv(s) && CanGrant(s, v, c)
    ensures Grows(s, DoGrant(s, v, c)) && Inv(DoGrant(s, v, c))
  {
    var s' := DoGrant(s, v, c);
    GrantGrows(s, v, c);
    GrantVotes(s, v, c);
    GrantRoles(s, v, c);
    GrantVoted(s, v, c);
    QuietKept(s, s');
    QuietLeaders(s, s');
    OldSends(s, s');
    OldCommits(s, s');
  }
}
