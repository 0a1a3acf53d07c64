/** The inductive invariant of the core protocol, and what growth of the history preserves. */
module CoreInvariant {
  import opened RaftTypes
  import opened CoreRaft

  // ---- logs ----

  /** Entry k of `log` was written by the leader of its term, and so was everything before it. */
  ghost predicate EntryOk(ll: map<nat, seq<Entry>>, log: seq<Entry>, k: nat)
    requires k < |log|
  {
    var t := log[k].term;
    && t >= 1 && log[k].index == k + 1
    && t in ll && k < |ll[t]| && log[..k + 1] == ll[t][..k + 1]
  }

  ghost predicate LogOk(ll: map<nat, seq<Entry>>, log: seq<Entry>) {
    forall k :: 0 <= k < |log| ==> EntryOk(ll, log, k)
  }

  ghost predicate TermsUpTo(log: seq<Entry>, t: nat) {
    forall k :: 0 <= k < |log| ==> log[k].term <= t
  }

  // ---- choosing ----

  /** Index i of the log of leader t holds an entry of t's own term. */
  ghost predicate OwnIndex(s: State, t: nat, i: nat) {
    t in s.ll && 1 <= i <= |s.ll[t]| && s.ll[t][i - 1].term == t
  }

  ghost predicate BlockedBy(s: State, q: set<Id>, t: nat, i: nat) {
    && IsQuorum(s.servers, q)
    && forall v :: v in q ==> v in s.nodes && s.nodes[v].term > t && !Acked(s, t, v, i)
  }

  /** A majority has left term t without acknowledging index i: i can never be chosen in t. */
  ghost predicate Blocked(s: State, t: nat, i: nat) {
    exists q :: BlockedBy(s, q, t, i)
  }

  ghost predicate ChosenBy(s: State, q: set<Id>, t: nat, i: nat) {
    IsQuorum(s.servers, q) && forall v :: v in q ==> Acked(s, t, v, i)
  }

  /** A majority acknowledged an entry of the leader's own term: the prefix up to it is committed. */
  ghost predicate Chosen(s: State, t: nat, i: nat) {
    OwnIndex(s, t, i) && exists q :: ChosenBy(s, q, t, i)
  }

  /** `log` carries the first i entries of leader t, unless those can never be chosen. */
  ghost predicate Held(s: State, log: seq<Entry>, t: nat, i: nat)
    requires OwnIndex(s, t, i)
  {
    (i <= |log| && log[..i] == s.ll[t][..i]) || Blocked(s, t, i)
  }

  ghost predicate CommitWitness(s: State, log: seq<Entry>, k: nat, t: nat, t0: nat, i: nat) {
    Chosen(s, t0, i) && t0 <= t && k <= i && k <= |log| && log[..k] == s.ll[t0][..k]
  }

  /** The first k entries of `log` are a chosen prefix, chosen in term t or earlier. */
  ghost predicate CommitOk(s: State, log: seq<Entry>, k: nat, t: nat) {
    k <= |log| && (k == 0 || exists t0: nat, i: nat :: CommitWitness(s, log, k, t, t0, i))
  }

  // ---- the invariant, clause by clause ----

  ghost predicate NodeOk(s: State, v: Id)
    requires v in s.nodes
  {
    LogOk(s.ll, s.nodes[v].log) && TermsUpTo(s.nodes[v].log, s.nodes[v].term)
  }

  ghost predicate NodesInv(s: State) {
    && NO_LEADER !in s.servers && s.nodes.Keys == s.servers
    && forall v :: v in s.nodes ==> NodeOk(s, v)
  }

  ghost predicate VoteOk(s: State, t: nat, v: Id, c: Id) {
    && v in s.nodes && c in s.servers && c != NO_LEADER && (t, c) in s.camp && t <= s.nodes[v].term
    && (t == s.nodes[v].term ==> s.nodes[v].vote == c)
  }

  ghost predicate VotesInv(s: State) {
    && (forall t, v, c :: (t, v, c) in s.votes ==> VoteOk(s, t, v, c))
    && (forall t, v, c, d :: (t, v, c) in s.votes && (t, v, d) in s.votes ==> c == d)
  }

  ghost predicate CampOk(s: State, t: nat, c: Id)
    requires (t, c) in s.camp
  {
    && c in s.nodes && 1 <= t <= s.nodes[c].term
    && LogOk(s.ll, s.camp[(t, c)]) && TermsUpTo(s.camp[(t, c)], t - 1) && (t, c, c) in s.votes
  }

  ghost predicate CampInv(s: State) {
    forall t, c :: (t, c) in s.camp ==> CampOk(s, t, c)
  }

  ghost predicate ElectionOk(s: State, t: nat) {
    && t >= 1 && t in s.who && s.who[t] in s.nodes && s.nodes[s.who[t]].term >= t
    && t in s.electors && VotedBy(s, t, s.who[t], s.electors[t])
  }

  /** A leader's log ends in an entry of its own term: it opens its term with one. */
  ghost predicate EndsIn(log: seq<Entry>, t: nat) { log != [] && log[|log| - 1].term == t }

  ghost predicate LeaderOk(s: State, t: nat)
    requires t in s.ll
  {
    && ElectionOk(s, t) && LogOk(s.ll, s.ll[t]) && TermsUpTo(s.ll[t], t) && EndsIn(s.ll[t], t)
    && Acked(s, t, s.who[t], |s.ll[t]|)
  }

  ghost predicate LeadersInv(s: State) {
    forall t :: t in s.ll ==> LeaderOk(s, t)
  }

  /** Roles tie a node to the history of its term. */
  ghost predicate RoleOk(s: State, v: Id)
    requires v in s.nodes
  {
    var n := s.nodes[v];
    && (n.role == Candidate ==>
          && (n.term, v) in s.camp && s.camp[(n.term, v)] == n.log
          && !(n.term in s.ll && n.term in s.who && s.who[n.term] == v))
    && (n.role == Leader ==>
          n.term in s.ll && n.term in s.who && s.who[n.term] == v && s.ll[n.term] == n.log)
  }

  ghost predicate RolesInv(s: State) {
    forall v :: v in s.nodes ==> RoleOk(s, v)
  }

  /** Within the term of the acknowledgement the node's log still agrees with the leader's. */
  ghost predicate AckOk(s: State, t: nat, v: Id)
    requires (t, v) in s.ack
  {
    var i := s.ack[(t, v)];
    && v in s.nodes && t in s.ll && i <= |s.ll[t]| && t <= s.nodes[v].term
    && (t == s.nodes[v].term ==> i <= |s.nodes[v].log| && s.nodes[v].log[..i] == s.ll[t][..i])
  }

  ghost predicate AcksInv(s: State) {
    forall t, v :: (t, v) in s.ack ==> AckOk(s, t, v)
  }

  /** What a node acknowledged it keeps, as long as it may still be chosen. */
  ghost predicate KeptInv(s: State) {
    forall t, v, i :: v in s.nodes && OwnIndex(s, t, i) && Acked(s, t, v, i) ==> Held(s, s.nodes[v].log, t, i)
  }

  /** Whoever a node votes for holds what the node had acknowledged in earlier terms. */
  ghost predicate VotedInv(s: State) {
    forall u, v, c, t, i ::
      (u, v, c) in s.votes && (u, c) in s.camp && t < u && OwnIndex(s, t, i) && Acked(s, t, v, i)
      ==> Held(s, s.camp[(u, c)], t, i)
  }

  /** Leader completeness in its inductive form. */
  ghost predicate CompletenessInv(s: State) {
    forall t, u, i :: t < u && u in s.ll && OwnIndex(s, t, i) ==> Held(s, s.ll[u], t, i)
  }

  ghost predicate SendOk(s: State, t: nat, j: nat, k: nat) {
    t in s.ll && j <= |s.ll[t]| && CommitOk(s, s.ll[t], k, t)
  }

  ghost predicate SendsInv(s: State) {
    forall t, j, k :: (t, j, k) in s.sends ==> SendOk(s, t, j, k)
  }

  ghost predicate CommitInv(s: State) {
    forall v :: v in s.nodes ==>
      s.nodes[v].applied <= s.nodes[v].commit && CommitOk(s, s.nodes[v].log, s.nodes[v].commit, s.nodes[v].term)
  }

  ghost predicate Inv(s: State) {
    NodesInv(s) && VotesInv(s) && CampInv(s) && LeadersInv(s) && RolesInv(s) && AcksInv(s) && KeptInv(s)
    && VotedInv(s) && CompletenessInv(s) && SendsInv(s) && CommitInv(s)
  }

  // ---- growth ----

  /** A node moves forward: terms and commit indexes rise, and a vote cast in a term stays. */
  ghost predicate NodeGrows(n: Node, n': Node) {
    n.term <= n'.term && n.commit <= n'.commit && (n.term == n'.term && n.vote != NO_LEADER ==> n'.vote == n.vote)
  }

  ghost predicate LLGrows(ll: map<nat, seq<Entry>>, ll': map<nat, seq<Entry>>) {
    forall t :: t in ll ==> t in ll' && ll[t] <= ll'[t]
  }

  /** Acknowledgements rise, and nobody acknowledges in a term it has left. */
  ghost predicate AckGrows(s: State, s': State) {
    && (forall t, v :: (t, v) in s.ack ==> (t, v) in s'.ack && s.ack[(t, v)] <= s'.ack[(t, v)])
    && (forall t, v :: (t, v) in s'.ack && v in s.nodes && s.nodes[v].term > t ==>
          (t, v) in s.ack && s.ack[(t, v)] == s'.ack[(t, v)])
  }

  ghost predicate Grows(s: State, s': State) {
    && s'.servers == s.servers && s'.nodes.Keys == s.nodes.Keys
    && (forall v :: v in s.nodes ==> NodeGrows(s.nodes[v], s'.nodes[v]))
    && LLGrows(s.ll, s'.ll) && AckGrows(s, s')
    && (forall k :: k in s.camp ==> k in s'.camp && s'.camp[k] == s.camp[k])
    && s.votes <= s'.votes && s.sends <= s'.sends
    && (forall t :: t in s.ll && t in s.who ==> t in s'.who && s'.who[t] == s.who[t])
    && (forall t :: t in s.ll && t in s.electors ==> t in s'.electors && s'.electors[t] == s.electors[t])
  }

  lemma GrowsTrans(a: State, b: State, c: State)
    requires Grows(a, b) && Grows(b, c)
    ensures Grows(a, c)
  {
    forall t, v | (t, v) in c.ack && v in a.nodes && a.nodes[v].term > t
      ensures (t, v) in a.ack && a.ack[(t, v)] == c.ack[(t, v)]
    {
      assert NodeGrows(a.nodes[v], b.nodes[v]);
    }
    forall v | v in a.nodes ensures NodeGrows(a.nodes[v], c.nodes[v]) {
      assert NodeGrows(a.nodes[v], b.nodes[v]) && NodeGrows(b.nodes[v], c.nodes[v]);
    }
  }

  // ---- what was true of the past stays true ----

  lemma OldVotes(s: State, s': State)
    requires VotesInv(s) && Grows(s, s')
    ensures forall t, v, c :: (t, v, c) in s.votes ==> VoteOk(s', t, v, c)
    ensures s'.votes == s.votes ==> VotesInv(s')
  {
    forall t, v, c | (t, v, c) in s.votes ensures VoteOk(s', t, v, c) {
      assert VoteOk(s, t, v, c) && NodeGrows(s.nodes[v], s'.nodes[v]);
      assert (t, c) in s'.camp;
    }
  }

  lemma OldCamps(s: State, s': State)
    requires CampInv(s) && Grows(s, s')
    ensures forall t, c :: (t, c) in s.camp ==> (t, c) in s'.camp && CampOk(s', t, c)
  {
    forall t, c | (t, c) in s.camp ensures (t, c) in s'.camp && CampOk(s', t, c) {
      assert CampOk(s, t, c) && NodeGrows(s.nodes[c], s'.nodes[c]);
      LogOkGrows(s.ll, s'.ll, s.camp[(t, c)]);
    }
  }

  lemma OldElections(s: State, s': State)
    requires LeadersInv(s) && Grows(s, s')
    ensures forall t :: t in s.ll ==> ElectionOk(s', t)
  {
    forall t | t in s.ll ensures ElectionOk(s', t) {
      assert LeaderOk(s, t) && NodeGrows(s.nodes[s.who[t]], s'.nodes[s.who[t]]);
    }
  }

  lemma OldSends(s: State, s': State)
    requires SendsInv(s) && Grows(s, s')
    ensures forall t, j, k :: (t, j, k) in s.sends ==> SendOk(s', t, j, k)
    ensures s'.sends == s.sends ==> SendsInv(s')
  {
    forall t, j, k | (t, j, k) in s.sends ensures SendOk(s', t, j, k) {
      assert SendOk(s, t, j, k) && s.ll[t] <= s'.ll[t];
      CommitGrows(s, s', s.ll[t], s'.ll[t], k, t, t);
    }
  }

  lemma OldCommits(s: State, s': State)
    requires CommitInv(s) && Grows(s, s')
    ensures forall v :: v in s.nodes ==> CommitOk(s', s.nodes[v].log, s.nodes[v].commit, s'.nodes[v].term)
  {
    forall v | v in s.nodes ensures CommitOk(s', s.nodes[v].log, s.nodes[v].commit, s'.nodes[v].term) {
      assert NodeGrows(s.nodes[v], s'.nodes[v]);
      CommitGrows(s, s', s.nodes[v].log, s.nodes[v].log, s.nodes[v].commit, s.nodes[v].term, s'.nodes[v].term);
    }
  }

  lemma OldLogs(s: State, s': State)
    requires NodesInv(s) && Grows(s, s')
    ensures forall v :: v in s.nodes ==> LogOk(s'.ll, s.nodes[v].log) && TermsUpTo(s.nodes[v].log, s'.nodes[v].term)
  {
    forall v | v in s.nodes ensures LogOk(s'.ll, s.nodes[v].log) && TermsUpTo(s.nodes[v].log, s'.nodes[v].term) {
      assert NodeOk(s, v) && NodeGrows(s.nodes[v], s'.nodes[v]);
      LogOkGrows(s.ll, s'.ll, s.nodes[v].log);
    }
  }

  lemma BlockedGrows(s: State, s': State, t: nat, i: nat)
    requires Grows(s, s') && Blocked(s, t, i)
    ensures Blocked(s', t, i)
  {
    var q :| BlockedBy(s, q, t, i);
    forall v | v in q ensures v in s'.nodes && s'.nodes[v].term > t && !Acked(s', t, v, i) {
      assert NodeGrows(s.nodes[v], s'.nodes[v]);
    }
    assert BlockedBy(s', q, t, i);
  }

  lemma OwnIndexGrows(s: State, s': State, t: nat, i: nat)
    requires Grows(s, s') && OwnIndex(s, t, i)
    ensures OwnIndex(s', t, i) && s'.ll[t][..i] == s.ll[t][..i]
  {
    assert s.ll[t] <= s'.ll[t];
    assert s'.ll[t][i - 1] == s.ll[t][i - 1];
  }

  lemma ChosenGrows(s: State, s': State, t: nat, i: nat)
    requires Grows(s, s') && Chosen(s, t, i)
    ensures Chosen(s', t, i) && s'.ll[t][..i] == s.ll[t][..i]
  {
    OwnIndexGrows(s, s', t, i);
    var q :| ChosenBy(s, q, t, i);
    assert ChosenBy(s', q, t, i);
  }

  lemma HeldGrows(s: State, s': State, log: seq<Entry>, log': seq<Entry>, t: nat, i: nat)
    requires Grows(s, s') && OwnIndex(s, t, i) && Held(s, log, t, i) && log <= log'
    ensures OwnIndex(s', t, i) && Held(s', log', t, i)
  {
    OwnIndexGrows(s, s', t, i);
    if Blocked(s, t, i) {
      BlockedGrows(s, s', t, i);
    } else {
      assert log'[..i] == log[..i];
    }
  }

  lemma CommitGrows(s: State, s': State, log: seq<Entry>, log': seq<Entry>, k: nat, t: nat, t': nat)
    requires Grows(s, s') && CommitOk(s, log, k, t) && t <= t' && k <= |log'| && log'[..k] == log[..k]
    ensures CommitOk(s', log', k, t')
  {
    if k > 0 {
      var t0: nat, i: nat :| CommitWitness(s, log, k, t, t0, i);
      ChosenGrows(s, s', t0, i);
      assert s'.ll[t0][..k] == s'.ll[t0][..i][..k] == s.ll[t0][..i][..k] == s.ll[t0][..k];
      assert CommitWitness(s', log', k, t', t0, i);
    }
  }

  lemma LogOkGrows(ll: map<nat, seq<Entry>>, ll': map<nat, seq<Entry>>, log: seq<Entry>)
    requires LLGrows(ll, ll') && LogOk(ll, log)
    ensures LogOk(ll', log)
  {
    forall k | 0 <= k < |log| ensures EntryOk(ll', log, k) {
      var t := log[k].term;
      assert EntryOk(ll, log, k) && ll[t] <= ll'[t];
      assert ll'[t][..k + 1] == ll[t][..k + 1];
    }
  }

  lemma LogOkPrefix(ll: map<nat, seq<Entry>>, log: seq<Entry>, j: nat)
    requires LogOk(ll, log) && j <= |log|
    ensures LogOk(ll, log[..j])
  {
    forall k | 0 <= k < j ensures EntryOk(ll, log[..j], k) {
      assert EntryOk(ll, log, k);
      assert log[..j][..k + 1] == log[..k + 1];
    }
  }
}
