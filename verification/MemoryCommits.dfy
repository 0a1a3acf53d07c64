/** What a node has committed only in memory, and loses in a crash, was nevertheless chosen for good. */
module MemoryCommits {
  import opened RaftTypes
  import opened FsmSpec
  import opened Cluster
  import opened ClusterSim
  import opened SimLeader
  import opened Batched
  import opened BatchedSafety
  import opened RaftSafety
  import ReadyLoopSafety
  import C = CoreRaft
  import opened CoreInvariant
  import opened CoreSafety

  // ---- one node runs ahead of the record ----

  ghost predicate OthersAcks(s: C.State, u: C.State, v: Id) {
    forall t, k :: (t, k) in u.ack && k != v ==> (t, k) in s.ack && s.ack[(t, k)] == u.ack[(t, k)]
  }

  /** Node v has moved on alone from s to u. */
  ghost predicate Ahead(s: C.State, u: C.State, v: Id) {
    Inv(s) && Inv(u) && Grows(s, u) && OthersAcks(s, u, v) && v in u.nodes
  }

  ghost predicate SendsBacked(s: C.State, u: C.State) {
    forall t, j, k :: (t, j, k) in u.sends ==> t in u.ll && CommitOk(s, u.ll[t], k, t)
  }

  /** What v has committed by u, and every commit index sent by then, was chosen in s already. */
  ghost predicate Backed(s: C.State, u: C.State, v: Id) {
    v in u.nodes && CommitOk(s, u.nodes[v].log, u.nodes[v].commit, u.nodes[v].term) && SendsBacked(s, u)
  }

  lemma StepAhead(s: C.State, u: C.State, v: Id, a: C.Action)
    requires Ahead(s, u, v) && a.v == v && C.Enabled(u, a)
    ensures Ahead(s, C.Step(u, a), v) && Grows(u, C.Step(u, a))
  {
    hide Inv, Grows, C.Step, C.Enabled;
    var u' := C.Step(u, a);
    StepAcks(u, a);
    StepInv(u, a);
    SameServers(u, u', v);
    GrowsTrans(s, u, C.Step(u, a));
  }

  lemma SameServers(u: C.State, u': C.State, v: Id)
    requires Grows(u, u')
    ensures u'.servers == u.servers && (v in u.nodes <==> v in u'.nodes)
  {}

  lemma StepAcks(u: C.State, a: C.Action)
    requires C.Enabled(u, a)
    ensures OthersAcks(u, C.Step(u, a), a.v)
  {}

  /** A chosen prefix stays chosen in any log that begins with it. */
  lemma Rebacked(s: C.State, log: seq<Entry>, log': seq<Entry>, k: nat, k': nat, t: nat, t': nat)
    requires CommitOk(s, log, k, t) && k' <= k && t <= t' && k' <= |log'| && log'[..k'] == log[..k']
    ensures CommitOk(s, log', k', t')
  {
    if k' > 0 {
      var t0: nat, i: nat :| CommitWitness(s, log, k, t, t0, i);
      assert log[..k'] == log[..k][..k'] == s.ll[t0][..k][..k'] == s.ll[t0][..k'];
      assert CommitWitness(s, log', k', t', t0, i);
    }
  }

  /** What a node has committed stays in its log. */
  lemma CommittedStays(u: C.State, u': C.State, v: Id)
    requires Inv(u) && Inv(u') && Grows(u, u') && v in u.nodes
    ensures var n, n' := u.nodes[v], u'.nodes[v];
      n.commit <= n'.commit <= |n'.log| && n.commit <= |n.log| && n'.log[..n.commit] == n.log[..n.commit] && n.term <= n'.term
  {
    hide NodesInv, VotesInv, CampInv, LeadersInv, RolesInv, AcksInv, KeptInv, VotedInv, CompletenessInv, SendsInv;
    var n, n' := u.nodes[v], u'.nodes[v];
    assert NodeGrows(n, n');
    CommitGrows(u, u', n.log, n.log, n.commit, n.term, n.term);
    ChosenAgree(u', n.log, n.commit, n.term, n'.log, n'.commit, n'.term, n.commit);
  }

  /** What another node has acknowledged the leader has sent, and so stored and acknowledged itself. */
  lemma LeaderStored(s: C.State, u: C.State, v: Id, y: Id, k: nat)
    requires Ahead(s, u, v) && u.nodes[v].role == C.Leader && y != v && C.Acked(u, u.nodes[v].term, y, k)
    ensures var t := u.nodes[v].term; t in s.ll && k <= |s.ll[t]| && s.ll[t] <= u.nodes[v].log && C.Acked(s, t, v, k)
  {
    hide NodesInv, VotesInv, CampInv, KeptInv, VotedInv, CompletenessInv, SendsInv, CommitInv, LogOk, ElectionOk;
    var t := u.nodes[v].term;
    assert AckOk(s, t, y) && RoleOk(u, v);
    assert s.ll[t] <= u.ll[t] && LeaderOk(s, t);
    SameLeader(s, u, t);
  }

  lemma SameLeader(s: C.State, u: C.State, t: nat)
    requires Grows(s, u) && LeadersInv(s) && t in s.ll && t in u.who
    ensures t in s.who && s.who[t] == u.who[t]
  {
    assert LeaderOk(s, t);
  }

  /** A leader's commit rests on an acknowledgement of another node. */
  lemma CommitBacked(s: C.State, u: C.State, v: Id, k: nat, q: set<Id>)
    requires Ahead(s, u, v) && |s.servers| >= 2 && C.CanCommit(u, v, k, q)
    ensures CommitOk(s, u.nodes[v].log, k, u.nodes[v].term)
  {
    hide Inv, Grows;
    SameServers(s, u, v);
    var n := u.nodes[v];
    var t := n.term;
    var y := ReadyLoopSafety.Another(s.servers, q, v);
    assert C.Acked(u, t, y, k);
    LeaderStored(s, u, v, y, k);
    assert s.ll[t][k - 1] == n.log[k - 1];
    forall x | x in q ensures C.Acked(s, t, x, k) { assert C.Acked(u, t, x, k); }
    assert ChosenBy(s, q, t, k);
    assert CommitWitness(s, n.log, k, t, t, k);
  }

  /** A follower commits no further than an append request says, and those are backed. */
  lemma AcceptBacked(s: C.State, u: C.State, v: Id, j: nat, k: nat)
    requires Ahead(s, u, v) && Backed(s, u, v) && C.CanAccept(u, v, j, k) && Ahead(s, C.DoAccept(u, v, j, k), v)
    requires Grows(u, C.DoAccept(u, v, j, k))
    ensures var n' := C.DoAccept(u, v, j, k).nodes[v]; CommitOk(s, n'.log, n'.commit, n'.term)
  {
    hide Inv, Grows, CommitOk;
    var u', n := C.DoAccept(u, v, j, k), u.nodes[v];
    var n', l := u'.nodes[v], u.ll[n.term];
    CommittedStays(u, u', v);
    if n.commit < Min(k, j) {
      assert CommitOk(s, l, k, n.term);
      var c := Min(k, j);
      assert n'.log[..j] == l[..j];
      assert n'.log[..c] == n'.log[..j][..c] == l[..j][..c] == l[..c];
      Rebacked(s, l, n'.log, k, c, n.term, n.term);
    } else {
      Rebacked(s, n.log, n'.log, n.commit, n.commit, n.term, n.term);
    }
  }

  /** A new append request carries its sender's commit index. */
  lemma NewSend(u: C.State, a: C.Action, t: nat, j: nat, k: nat)
    requires RolesInv(u) && C.Enabled(u, a) && (t, j, k) in C.Step(u, a).sends && (t, j, k) !in u.sends
    ensures var n := u.nodes[a.v]; C.Step(u, a).ll == u.ll && t == n.term && k == n.commit && t in u.ll && u.ll[t] == n.log
  {
    assert RoleOk(u, a.v);
  }

  lemma SendsStay(s: C.State, u: C.State, a: C.Action)
    requires RolesInv(u) && C.Enabled(u, a) && LLGrows(u.ll, C.Step(u, a).ll) && SendsBacked(s, u)
    requires CommitOk(s, u.nodes[a.v].log, u.nodes[a.v].commit, u.nodes[a.v].term)
    ensures SendsBacked(s, C.Step(u, a))
  {
    hide CommitOk, RolesInv;
    var u' := C.Step(u, a);
    assert a.v in u.nodes;
    hide C.Step, C.Enabled;
    forall t, j, k | (t, j, k) in u'.sends ensures t in u'.ll && CommitOk(s, u'.ll[t], k, t) {
      if (t, j, k) in u.sends {
        assert u.ll[t] <= u'.ll[t] && CommitOk(s, u.ll[t], k, t);
        WithinLog(s, u.ll[t], k, t);
        Rebacked(s, u.ll[t], u'.ll[t], k, k, t, t);
      } else {
        NewSend(u, a, t, j, k);
      }
    }
  }

  lemma WithinLog(s: C.State, log: seq<Entry>, k: nat, t: nat)
    requires CommitOk(s, log, k, t)
    ensures k <= |log|
  {}

  lemma StepShape(u: C.State, u': C.State)
    requires Inv(u) && Grows(u, u')
    ensures RolesInv(u) && LLGrows(u.ll, u'.ll)
  {}

  lemma StepBacked(s: C.State, u: C.State, v: Id, a: C.Action)
    requires Ahead(s, u, v) && Backed(s, u, v) && |s.servers| >= 2 && a.v == v && C.Enabled(u, a)
    ensures Ahead(s, C.Step(u, a), v) && Backed(s, C.Step(u, a), v)
  {
    hide Inv, Grows, CommitOk, SendsBacked;
    var u' := C.Step(u, a);
    StepAhead(s, u, v, a);
    StepShape(u, u');
    SendsStay(s, u, a);
    CommittedStays(u, u', v);
    match a
    case LeaderCommit(_, k, q) => CommitBacked(s, u, v, k, q);
    case Accept(_, j, k) => AcceptBacked(s, u, v, j, k);
    case _ =>
      var n, n' := u.nodes[v], u'.nodes[v];
      Rebacked(s, n.log, n'.log, n.commit, n.commit, n.term, n'.term);
  }

  lemma {:induction false} PathBacked(s: C.State, u: C.State, u': C.State, v: Id, acts: seq<C.Action>)
    requires Ahead(s, u, v) && Backed(s, u, v) && |s.servers| >= 2 && C.Path(u, u', v, acts)
    ensures Backed(s, u', v)
    decreases |acts|
  {
    hide Ahead, Backed, C.Enabled, C.Step;
    if acts != [] {
      StepBacked(s, u, v, acts[0]);
      PathBacked(s, C.Step(u, acts[0]), u', v, acts[1..]);
    }
  }

  /** Wherever v's own actions lead, nothing it commits on the way is new to the record. */
  lemma MovesBacked(s: C.State, u: C.State, v: Id)
    requires Good(s) && v in s.nodes && |s.servers| >= 2 && Moves(s, u, v)
    ensures v in u.nodes && CommitOk(s, u.nodes[v].log, u.nodes[v].commit, u.nodes[v].term)
  {
    hide NodesInv, VotesInv, CampInv, LeadersInv, RolesInv, AcksInv, KeptInv, VotedInv, CompletenessInv, ConfInv, FixedInv;
    var acts :| C.Path(s, u, v, acts);
    GrowsRefl(s);
    assert Ahead(s, s, v);
    assert Backed(s, s, v) by {
      forall t, j, k | (t, j, k) in s.sends ensures t in s.ll && CommitOk(s, s.ll[t], k, t) { assert SendOk(s, t, j, k); }
    }
    hide Ahead, Moves, C.Path, Good;
    PathBacked(s, s, u, v, acts);
  }

  // ---- the ready loop ----

  /** A commit in memory rests on the durable states and the messages sent. */
  lemma MemoryBacked(cfg: Config, servers: set<Id>, b: BWorld, w: World, s: C.State, es: seq<Event>, a: Id)
    requires ValidConfig(cfg, servers) && Linked(cfg, servers, w, s) && a in b.nodes && a in w.nodes && |servers| >= 2
    requires NodeLink(cfg, servers, a, w.net, b.nodes[a], w.nodes[a], es)
    ensures var r := b.nodes[a].mem; CommitOk(s, r.log, r.committed, r.term)
  {
    hide Good, Replay, Moves, CommitOk, Inputs, Linked;
    var u := ReadyLoopSafety.ReplayLinked(cfg, servers, w, s, a, es);
    var r := b.nodes[a].mem;
    StandsFor(cfg, servers, w, s, a);
    StandsFor(cfg, servers, World(w.nodes[a := r], w.net + b.nodes[a].queue), u, a);
    MovesBacked(s, u, a);
  }

  /** Two nodes have committed the same, as far as both have come. */
  ghost predicate SameCommits(x: Fsm, y: Fsm) {
    x.committed <= |x.log| && y.committed <= |y.log|
    && forall k: nat :: k <= x.committed && k <= y.committed ==> x.log[..k] == y.log[..k]
  }

  /**
   With two servers or more, what any node has committed in memory at any time agrees with what any node has
   committed in memory at any other time, even if one has crashed since without persisting it.
   */
  lemma MemoryCommitsAgree(cfg: Config, servers: set<Id>, bs: seq<BWorld>, i: nat, j: nat, a: Id, b: Id)
    requires ValidConfig(cfg, servers) && |servers| >= 2 && BRun(cfg, servers, bs) && i <= j < |bs| && a in bs[i].nodes && b in bs[j].nodes
    ensures SameCommits(bs[i].nodes[a].mem, bs[j].nodes[b].mem)
  {
    hide BRun, Init, Next, Good, NodeSim, NodeLink, CommitOk, Grows;
    var wss, ess := BRunLinked(cfg, servers, bs);
    assert Link(cfg, servers, bs[i], wss[i], ess[i]) && Link(cfg, servers, bs[j], wss[j], ess[j]) && wss[i] <= wss[j];
    var ss := RunLinked(cfg, servers, wss[j]);
    var m, n := |wss[i]| - 1, |wss[j]| - 1;
    assert wss[j][m] == wss[i][m] && Grows(ss[m], ss[n]);
    assert Linked(cfg, servers, wss[j][m], ss[m]) && Linked(cfg, servers, wss[j][n], ss[n]);
    MemoryBacked(cfg, servers, bs[i], wss[j][m], ss[m], ess[i][a], a);
    MemoryBacked(cfg, servers, bs[j], wss[j][n], ss[n], ess[j][b], b);
    var x, y := bs[i].nodes[a].mem, bs[j].nodes[b].mem;
    WithinLog(ss[m], x.log, x.committed, x.term);
    WithinLog(ss[n], y.log, y.committed, y.term);
    CommitGrows(ss[m], ss[n], x.log, x.log, x.committed, x.term, x.term);
    forall k: nat | k <= x.committed && k <= y.committed ensures x.log[..k] == y.log[..k] {
      CommitsAgree(ss[n], x.log, x.committed, x.term, y.log, y.committed, y.term, k);
    }
  }
}
