/** What holds in every run of the cluster, through loss, repetition, reordering, crashes and restarts. */
module RaftSafety {
  import opened RaftTypes
  import opened LogSpec
  import opened FsmSpec
  import opened Cluster
  import opened ClusterSim
  import opened SimLeader
  import opened SimSend
  import opened SimElection
  import opened SimStep
  import opened SimApply
  import C = CoreRaft
  import opened CoreInvariant
  import CoreElection
  import CoreReplication
  import opened CoreSafety

  /** The core protocol in state s stands for the whole world. */
  ghost predicate Linked(cfg: Config, servers: set<Id>, w: World, s: C.State) {
    && Good(s) && s.servers == servers && w.nodes.Keys == servers
    && (forall v :: v in w.nodes ==> NodeSim(cfg, s, v, w.nodes[v]))
    && OutOk(s, w.net)
  }

  lemma InitLinked(cfg: Config, servers: set<Id>, w: World)
    requires ValidConfig(cfg, servers) && Init(cfg, servers, w)
    ensures Linked(cfg, servers, w, C.Init(servers))
  {
    hide Inv, ConfInv, StartsEmpty, NodeSim;
    InitInv(servers);
    forall v | v in w.nodes ensures NodeSim(cfg, C.Init(servers), v, w.nodes[v]) {
      FirstNode(cfg, servers, v, w.nodes[v]);
    }
  }

  lemma FirstNode(cfg: Config, servers: set<Id>, v: Id, r: Fsm)
    requires ValidConfig(cfg, servers) && v in servers && StartsEmpty(cfg, servers, v, r)
    ensures NodeSim(cfg, C.Init(servers), v, r)
  {
    hide Start;
    var peers: map<Id, Peer> :| peers.Keys == servers && r == Start(cfg, v, peers, HardState(0, NO_LEADER, 0), [], 0);
    StartShape(cfg, v, peers, HardState(0, NO_LEADER, 0), [], 0);
  }

  lemma EventSim(cfg: Config, servers: set<Id>, w: World, s: C.State, v: Id, e: Event) returns (s': C.State)
    requires ValidConfig(cfg, servers) && Linked(cfg, servers, w, s)
    requires v in w.nodes && Allowed(servers, v, w.nodes[v].committed, w.net, e)
    ensures SimTo(cfg, s, v, Handle(cfg, w.nodes[v], e), s')
  {
    hide Good, NodeSim, SimTo, Receive, Hup, Propose, Ready, Start, Resume, LeaseExpire, MsgOk;
    var r := w.nodes[v];
    assert NodeSim(cfg, s, v, r);
    NodeId(cfg, s, v, r);
    match e
    case Recv(m) => s' := ReceiveSim(cfg, s, v, r, m);
    case HupTick(force) => s' := HupSim(cfg, s, v, r, force);
    case LeaseTick => s' := LeaseSim(cfg, s, v, r);
    case ResumeTick => s' := s; ResumeSim(cfg, s, v, r);
    case Submit(ps) => s' := ProposeSim(cfg, s, v, r, ps);
    case ReadyTurn => s' := ReadySim(cfg, s, v, r);
    case Restart(peers, applied) => s' := RestartSim(cfg, s, v, r, peers, applied);
  }

  /** The core protocol follows a step of a node by actions of that node. */
  ghost predicate Follows(cfg: Config, servers: set<Id>, w: World, w': World, s: C.State, s': C.State) {
    exists v, e :: NextBy(cfg, servers, w, w', v, e) && C.Reaches(s, s', v)
  }

  lemma NextLinked(cfg: Config, servers: set<Id>, w: World, w': World, s: C.State) returns (s': C.State)
    requires ValidConfig(cfg, servers) && Linked(cfg, servers, w, s) && Next(cfg, servers, w, w')
    ensures Linked(cfg, servers, w', s') && Grows(s, s') && Follows(cfg, servers, w, w', s, s')
  {
    hide Linked, Handle, Grows, C.Reaches;
    var v, e :| NextBy(cfg, servers, w, w', v, e);
    s' := EventSim(cfg, servers, w, s, v, e);
    Relink(cfg, servers, w, s, s', v, Handle(cfg, w.nodes[v], e));
  }

  lemma Relink(cfg: Config, servers: set<Id>, w: World, s: C.State, s': C.State, v: Id, res: Res)
    requires Linked(cfg, servers, w, s) && v in w.nodes && SimTo(cfg, s, v, res, s')
    ensures Linked(cfg, servers, World(w.nodes[v := res.r], w.net + res.out), s') && Grows(s, s')
  {
    hide Good, NodeSim;
    var w' := World(w.nodes[v := res.r], w.net + res.out);
    forall k | k in w'.nodes ensures NodeSim(cfg, s', k, w'.nodes[k]) {
      if k != v {
        assert NodeSim(cfg, s, k, w.nodes[k]);
        NodeId(cfg, s, k, w.nodes[k]);
        NodeGrowsSim(cfg, s, s', k, w.nodes[k]);
      }
    }
    OutGrows(s, s', w.net);
  }

  lemma StandsFor(cfg: Config, servers: set<Id>, w: World, s: C.State, a: Id)
    requires Linked(cfg, servers, w, s) && a in w.nodes
    ensures Good(s) && s.servers == servers && a in s.nodes && SameNode(s.nodes[a], w.nodes[a])
  {
    hide Good, OutOk, ProgressInv, VotesOk, Elected;
    assert NodeSim(cfg, s, a, w.nodes[a]);
  }

  // ---- whole runs ----

  ghost predicate LinkedRun(cfg: Config, servers: set<Id>, ws: seq<World>, ss: seq<C.State>) {
    && |ss| == |ws| && (ss != [] ==> ss[0] == C.Init(servers))
    && (forall i :: 0 <= i < |ws| - 1 ==> Follows(cfg, servers, ws[i], ws[i + 1], ss[i], ss[i + 1]))
    && (forall i :: 0 <= i < |ws| ==> Linked(cfg, servers, ws[i], ss[i]))
    && (forall i, j :: 0 <= i <= j < |ws| ==> Grows(ss[i], ss[j]))
  }

  /** Every run of the cluster is a run of the core protocol, step by step the same node's, with a growing history. */
  lemma RunLinked(cfg: Config, servers: set<Id>, ws: seq<World>) returns (ss: seq<C.State>)
    requires ValidConfig(cfg, servers) && Run(cfg, servers, ws)
    ensures LinkedRun(cfg, servers, ws, ss)
    decreases |ws|
  {
    hide Linked, Init, Next, Grows, Follows;
    var n := |ws| - 1;
    if n == 0 {
      InitLinked(cfg, servers, ws[0]);
      ss := [C.Init(servers)];
      GrowsRefl(ss[0]);
    } else {
      var ws0 := ws[..n];
      forall i | 0 <= i < |ws0| - 1 ensures Next(cfg, servers, ws0[i], ws0[i + 1]) {
        assert Next(cfg, servers, ws[i], ws[i + 1]);
      }
      var ss0 := RunLinked(cfg, servers, ws0);
      assert ws0[n - 1] == ws[n - 1];
      assert Next(cfg, servers, ws[n - 1], ws[n - 1 + 1]);
      var s' := NextLinked(cfg, servers, ws[n - 1], ws[n], ss0[n - 1]);
      ss := ss0 + [s'];
      Extend(cfg, servers, ws, ss0, s');
    }
  }

  lemma Extend(cfg: Config, servers: set<Id>, ws: seq<World>, ss: seq<C.State>, s': C.State)
    requires |ws| >= 2 && LinkedRun(cfg, servers, ws[..|ws| - 1], ss)
    requires Linked(cfg, servers, ws[|ws| - 1], s') && Grows(ss[|ss| - 1], s')
    requires Follows(cfg, servers, ws[|ws| - 2], ws[|ws| - 1], ss[|ss| - 1], s')
    ensures LinkedRun(cfg, servers, ws, ss + [s'])
  {
    hide Linked, Grows, Follows;
    var all := ss + [s'];
    forall i | 0 <= i < |ws| - 1 ensures Follows(cfg, servers, ws[i], ws[i + 1], all[i], all[i + 1]) {
      if i < |ws| - 2 {
        var ws0 := ws[..|ws| - 1];
        assert Follows(cfg, servers, ws0[i], ws0[i + 1], ss[i], ss[i + 1]);
      }
    }
    forall i | 0 <= i < |ws| ensures Linked(cfg, servers, ws[i], all[i]) {
      if i < |ss| { assert Linked(cfg, servers, ws[..|ws| - 1][i], ss[i]); }
    }
    forall i, j | 0 <= i <= j < |ws| ensures Grows(all[i], all[j]) {
      if j < |ss| {
        assert Grows(ss[i], ss[j]);
      } else if i < |ss| {
        GrowsTrans(ss[i], ss[|ss| - 1], s');
      } else {
        GrowsRefl(s');
      }
    }
  }

  // ---- the theorems ----

  ghost predicate Leads(w: World, v: Id) {
    v in w.nodes && w.nodes[v].state == StateLeader
  }

  /** Election safety: at most one node ever leads a term, at whatever times one looks. */
  lemma ElectionSafety(cfg: Config, servers: set<Id>, ws: seq<World>, i: nat, j: nat, a: Id, b: Id)
    requires ValidConfig(cfg, servers) && Run(cfg, servers, ws) && i <= j < |ws|
    requires Leads(ws[i], a) && Leads(ws[j], b) && ws[i].nodes[a].term == ws[j].nodes[b].term
    ensures a == b
  {
    hide Run, Follows, Good;
    var ss := RunLinked(cfg, servers, ws);
    assert Linked(cfg, servers, ws[i], ss[i]) && Linked(cfg, servers, ws[j], ss[j]) && Grows(ss[i], ss[j]);
    assert NodeSim(cfg, ss[i], a, ws[i].nodes[a]) && NodeSim(cfg, ss[j], b, ws[j].nodes[b]);
    NodeFacts(ss[i], a);
    NodeFacts(ss[j], b);
  }

  /** Log matching: the same term at an index means the same log up to it, on any two nodes at any two times. */
  lemma LogMatching(cfg: Config, servers: set<Id>, ws: seq<World>, i: nat, j: nat, a: Id, b: Id, k: nat)
    requires ValidConfig(cfg, servers) && Run(cfg, servers, ws) && i <= j < |ws| && a in ws[i].nodes && b in ws[j].nodes
    requires k < |ws[i].nodes[a].log| && k < |ws[j].nodes[b].log| && ws[i].nodes[a].log[k].term == ws[j].nodes[b].log[k].term
    ensures ws[i].nodes[a].log[..k + 1] == ws[j].nodes[b].log[..k + 1]
  {
    hide Run, Follows, Good, LogOk;
    var ss := RunLinked(cfg, servers, ws);
    assert Linked(cfg, servers, ws[i], ss[i]) && Linked(cfg, servers, ws[j], ss[j]) && Grows(ss[i], ss[j]);
    assert NodeSim(cfg, ss[i], a, ws[i].nodes[a]) && NodeSim(cfg, ss[j], b, ws[j].nodes[b]);
    NodeFacts(ss[i], a);
    NodeFacts(ss[j], b);
    LogOkGrows(ss[i].ll, ss[j].ll, ws[i].nodes[a].log);
    CoreElection.LogMatching(ss[j].ll, ws[i].nodes[a].log, ws[j].nodes[b].log, k);
  }

  /** What a node had committed at one time, in the history of a later time. */
  lemma CommittedThen(cfg: Config, servers: set<Id>, ws: seq<World>, ss: seq<C.State>, i: nat, j: nat, a: Id)
    requires LinkedRun(cfg, servers, ws, ss) && i <= j < |ws| && a in ws[i].nodes
    ensures var n := ws[i].nodes[a]; Good(ss[j]) && CommitOk(ss[j], n.log, n.committed, n.term)
  {
    hide Follows, Good, Grows, LogOk;
    assert Linked(cfg, servers, ws[i], ss[i]) && Linked(cfg, servers, ws[j], ss[j]) && Grows(ss[i], ss[j]);
    assert NodeSim(cfg, ss[i], a, ws[i].nodes[a]);
    var n := ws[i].nodes[a];
    CommitFact(ss[i], a);
    CommitGrows(ss[i], ss[j], n.log, n.log, n.committed, n.term, n.term);
  }

  lemma CommitFact(s: C.State, a: Id)
    requires Good(s) && a in s.nodes
    ensures var n := s.nodes[a]; CommitOk(s, n.log, n.commit, n.term)
  {
    hide NodesInv, VotesInv, CampInv, LeadersInv, RolesInv, AcksInv, KeptInv, VotedInv, CompletenessInv, SendsInv, ConfInv, FixedInv;
  }

  /** Two chosen prefixes agree where both reach. */
  lemma ChosenAgree(s: C.State, x: seq<Entry>, cx: nat, tx: nat, y: seq<Entry>, cy: nat, ty: nat, k: nat)
    requires Inv(s) && CommitOk(s, x, cx, tx) && CommitOk(s, y, cy, ty) && k <= cx && k <= cy
    ensures x[..k] == y[..k]
  {
    hide NodesInv, VotesInv, CampInv, LeadersInv, RolesInv, AcksInv, KeptInv, VotedInv, SendsInv, CommitInv, CompletenessInv;
    if k > 0 {
      var t: nat, i: nat :| CommitWitness(s, x, cx, tx, t, i);
      var u: nat, j: nat :| CommitWitness(s, y, cy, ty, u, j);
      if t <= u {
        CoreReplication.LeaderCompleteness(s, t, i, u);
        PrefixesAgree(x, y, s.ll[t], s.ll[u], cx, cy, i, k);
      } else {
        CoreReplication.LeaderCompleteness(s, u, j, t);
        PrefixesAgree(y, x, s.ll[u], s.ll[t], cy, cx, j, k);
      }
    }
  }

  lemma CommitsAgree(s: C.State, x: seq<Entry>, cx: nat, tx: nat, y: seq<Entry>, cy: nat, ty: nat, k: nat)
    requires Good(s) && CommitOk(s, x, cx, tx) && CommitOk(s, y, cy, ty) && k <= cx && k <= cy
    ensures x[..k] == y[..k]
  {
    hide Inv, ConfInv, FixedInv, CommitOk;
    ChosenAgree(s, x, cx, tx, y, cy, ty, k);
  }

  /** State machine safety: what any node ever commits at an index, every node ever commits there. */
  lemma StateMachineSafety(cfg: Config, servers: set<Id>, ws: seq<World>, i: nat, j: nat, a: Id, b: Id, k: nat)
    requires ValidConfig(cfg, servers) && Run(cfg, servers, ws) && i <= j < |ws| && a in ws[i].nodes && b in ws[j].nodes
    requires k <= ws[i].nodes[a].committed && k <= ws[j].nodes[b].committed
    ensures k <= |ws[i].nodes[a].log| && k <= |ws[j].nodes[b].log|
    ensures ws[i].nodes[a].log[..k] == ws[j].nodes[b].log[..k]
  {
    hide Run, Follows, Good, Linked;
    var ss := RunLinked(cfg, servers, ws);
    CommittedThen(cfg, servers, ws, ss, i, j, a);
    CommittedThen(cfg, servers, ws, ss, j, j, b);
    var m, n := ws[i].nodes[a], ws[j].nodes[b];
    CommitsAgree(ss[j], m.log, m.committed, m.term, n.log, n.committed, n.term, k);
  }

  /**
   Leader completeness: what a node has ever committed in a term is in the log of every leader of a later term, at
   whatever two times one looks, and in the log of a leader of the same term from then on.
   */
  lemma LeaderCompleteness(cfg: Config, servers: set<Id>, ws: seq<World>, i: nat, j: nat, a: Id, b: Id)
    requires ValidConfig(cfg, servers) && Run(cfg, servers, ws) && i < |ws| && j < |ws| && a in ws[i].nodes && Leads(ws[j], b)
    requires var t, u := ws[i].nodes[a].term, ws[j].nodes[b].term; t < u || (t == u && i <= j)
    ensures var m := ws[i].nodes[a];
      m.committed <= |m.log| && m.committed <= |ws[j].nodes[b].log| && m.log[..m.committed] == ws[j].nodes[b].log[..m.committed]
  {
    hide Run, Follows, Good, Grows, CommitOk, Linked, LogOk, FixedLog;
    var ss := RunLinked(cfg, servers, ws);
    var m, n, k := ws[i].nodes[a], ws[j].nodes[b], if i <= j then j else i;
    CommittedThen(cfg, servers, ws, ss, i, k, a);
    assert Linked(cfg, servers, ws[j], ss[j]) && Linked(cfg, servers, ws[k], ss[k]) && Grows(ss[j], ss[k]);
    StandsFor(cfg, servers, ws[j], ss[j], b);
    NodeFacts(ss[j], b);
    LeaderLogThen(ss[j], ss[k], n.term);
    if k == j {
      LeaderHas(ss[j], m.log, m.committed, m.term, n.term);
    } else {
      LeaderHad(ss[k], m.log, m.committed, m.term, n.term, n.log);
    }
  }

  /** A leader's log at one time is the beginning of its log at a later time, and ends in its own term. */
  lemma LeaderLogThen(s: C.State, s': C.State, u: nat)
    requires Good(s) && Grows(s, s') && u in s.ll
    ensures u in s'.ll && s.ll[u] <= s'.ll[u] && EndsIn(s.ll[u], u)
  {
    hide NodesInv, VotesInv, CampInv, RolesInv, AcksInv, KeptInv, VotedInv, CompletenessInv, SendsInv, CommitInv, ConfInv, FixedInv;
    assert LeaderOk(s, u);
  }

  /** What was chosen before a term is in every log its leader ever had: it ends before the leader's first entry. */
  lemma LeaderHad(s: C.State, log: seq<Entry>, c: nat, t: nat, u: nat, l: seq<Entry>)
    requires Good(s) && CommitOk(s, log, c, t) && t < u && u in s.ll && l <= s.ll[u] && EndsIn(l, u)
    ensures c <= |log| && c <= |l| && log[..c] == l[..c]
  {
    hide NodesInv, VotesInv, CampInv, RolesInv, AcksInv, KeptInv, VotedInv, SendsInv, CommitInv, ConfInv, FixedInv, CompletenessInv;
    LeaderHas(s, log, c, t, u);
    if c > 0 {
      var t0: nat, k: nat :| CommitWitness(s, log, c, t, t0, k);
      assert LeaderOk(s, t0);
      assert forall x :: 0 <= x < c ==> log[..c][x] == s.ll[t0][x] && s.ll[u][..c][x] == log[..c][x];
      assert s.ll[u][|l| - 1].term == u;
    }
  }

  lemma LeaderHas(s: C.State, log: seq<Entry>, c: nat, t: nat, u: nat)
    requires Good(s) && CommitOk(s, log, c, t) && t <= u && u in s.ll
    ensures c <= |log| && c <= |s.ll[u]| && log[..c] == s.ll[u][..c]
  {
    hide NodesInv, VotesInv, CampInv, LeadersInv, RolesInv, AcksInv, KeptInv, VotedInv, SendsInv, CommitInv, ConfInv, FixedInv, CompletenessInv;
    if c > 0 {
      var t0: nat, k: nat :| CommitWitness(s, log, c, t, t0, k);
      CoreReplication.LeaderCompleteness(s, t0, k, u);
      assert log[..c] == s.ll[t0][..k][..c] == s.ll[u][..k][..c];
    }
  }

  /** No reachable node has run into a panic, and its indexes are in order. */
  lemma NoPanic(cfg: Config, servers: set<Id>, ws: seq<World>, i: nat, a: Id)
    requires ValidConfig(cfg, servers) && Run(cfg, servers, ws) && i < |ws| && a in ws[i].nodes
    ensures var n := ws[i].nodes[a]; !n.fault && n.applied <= n.committed <= |n.log|
  {
    hide Run, Follows, Good, Grows;
    var ss := RunLinked(cfg, servers, ws);
    assert Linked(cfg, servers, ws[i], ss[i]);
    assert NodeSim(cfg, ss[i], a, ws[i].nodes[a]);
    NodeFacts(ss[i], a);
  }

  /** Terms and commit indexes never fall, across leader changes and restarts. */
  lemma NeverBack(cfg: Config, servers: set<Id>, ws: seq<World>, i: nat, j: nat, a: Id)
    requires ValidConfig(cfg, servers) && Run(cfg, servers, ws) && i <= j < |ws| && a in ws[i].nodes
    ensures a in ws[j].nodes
    ensures ws[i].nodes[a].term <= ws[j].nodes[a].term && ws[i].nodes[a].committed <= ws[j].nodes[a].committed
  {
    hide Run, Follows, Good;
    var ss := RunLinked(cfg, servers, ws);
    assert Linked(cfg, servers, ws[i], ss[i]) && Linked(cfg, servers, ws[j], ss[j]) && Grows(ss[i], ss[j]);
    assert NodeSim(cfg, ss[i], a, ws[i].nodes[a]) && NodeSim(cfg, ss[j], a, ws[j].nodes[a]);
    assert NodeGrows(ss[i].nodes[a], ss[j].nodes[a]);
  }

  /** At most one configuration entry lies above a node's commit index. */
  lemma OneConfPending(cfg: Config, servers: set<Id>, ws: seq<World>, i: nat, a: Id)
    requires ValidConfig(cfg, servers) && Run(cfg, servers, ws) && i < |ws| && a in ws[i].nodes
    ensures C.ConfsAbove(ws[i].nodes[a].log, ws[i].nodes[a].committed) <= 1
  {
    hide Run, Follows, Good, Grows;
    var ss := RunLinked(cfg, servers, ws);
    assert Linked(cfg, servers, ws[i], ss[i]);
    assert NodeSim(cfg, ss[i], a, ws[i].nodes[a]);
    NodeFacts(ss[i], a);
  }

  /** A leader's match index is never more than the follower has while it is in the leader's term. */
  lemma MatchSound(cfg: Config, servers: set<Id>, ws: seq<World>, i: nat, a: Id, k: Id)
    requires ValidConfig(cfg, servers) && Run(cfg, servers, ws) && i < |ws| && Leads(ws[i], a) && k in ws[i].nodes
    ensures var n, f := ws[i].nodes[a], ws[i].nodes[k];
      k in n.replicas &&
      var x := n.replicas[k].matched;
      && x <= |n.log| && (x > 0 ==> f.term >= n.term)
      && (f.term == n.term ==> x <= |f.log| && f.log[..x] == n.log[..x])
  {
    hide Run, Grows, Good;
    var ss := RunLinked(cfg, servers, ws);
    var s, n, f := ss[i], ws[i].nodes[a], ws[i].nodes[k];
    assert Linked(cfg, servers, ws[i], s);
    assert NodeSim(cfg, s, a, n) && NodeSim(cfg, s, k, f);
    assert ProgressOk(cfg, s, n, k, n.replicas[k]);
    if n.replicas[k].matched > 0 { AckedAgree(s, a, k, n.replicas[k].matched); }
  }

  /** A leader's windows: within their capacity, rising, and between match and next while replicating. */
  lemma WindowsInOrder(cfg: Config, servers: set<Id>, ws: seq<World>, i: nat, a: Id, k: Id)
    requires ValidConfig(cfg, servers) && Run(cfg, servers, ws) && i < |ws| && Leads(ws[i], a) && k in ws[i].nodes
    ensures k in ws[i].nodes[a].replicas
    ensures var pr := ws[i].nodes[a].replicas[k]; pr.Ordered() && pr.cap == cfg.maxInflight && !pr.state.Snapshot?
  {
    hide Run, Grows, Good;
    var ss := RunLinked(cfg, servers, ws);
    assert Linked(cfg, servers, ws[i], ss[i]);
    assert NodeSim(cfg, ss[i], a, ws[i].nodes[a]) && NodeSim(cfg, ss[i], k, ws[i].nodes[k]);
    assert ProgressOk(cfg, ss[i], ws[i].nodes[a], k, ws[i].nodes[a].replicas[k]);
  }

  lemma AckedAgree(s: C.State, a: Id, k: Id, x: nat)
    requires Good(s) && a in s.nodes && k in s.nodes && s.nodes[a].role == C.Leader && C.Acked(s, s.nodes[a].term, k, x)
    ensures s.nodes[k].term >= s.nodes[a].term
    ensures s.nodes[k].term == s.nodes[a].term ==>
      x <= |s.nodes[k].log| && x <= |s.nodes[a].log| && s.nodes[k].log[..x] == s.nodes[a].log[..x]
  {
    hide NodesInv, VotesInv, CampInv, LeadersInv, KeptInv, VotedInv, CompletenessInv, SendsInv, CommitInv, ConfInv, FixedInv;
    var t := s.nodes[a].term;
    assert RoleOk(s, a) && AckOk(s, t, k);
    var y := s.ack[(t, k)];
    if s.nodes[k].term == t {
      assert s.nodes[k].log[..y][..x] == s.nodes[k].log[..x] && s.ll[t][..y][..x] == s.ll[t][..x];
    }
  }
}
