/**
 Exactly once across crashes: what a state machine has been given by ready turns and recoveries is, at all times,
 the non-empty entries of the durable committed prefix, each once and in order.
 */
module GivenExactly {
  import opened RaftTypes
  import opened LogSpec
  import opened FsmSpec
  import opened FsmParts
  import opened Cluster
  import opened ClusterSim
  import opened SimLeader
  import opened SimApply
  import opened Batched
  import opened BatchedSafety
  import opened ReadyLoopSafety
  import opened ApplyOnce
  import RaftSafety
  import C = CoreRaft
  import opened CoreInvariant
  import opened CoreSafety

  /** A state machine that comes back at a position has exactly what it had been given up to it. */
  lemma {:induction false} SurvivingExact(log: seq<Entry>, c: nat, applied: nat)
    requires Consecutive(log, 0) && c <= |log|
    ensures Surviving(Handed(log[..c]), applied) == Handed(log[..Min(c, applied)])
  {
    hide Handed, Surviving;
    if c == 0 {
      NothingSurvives(applied);
      assert log[..0] == [];
    } else {
      var g, e := Handed(log[..c - 1]), log[c - 1];
      SurvivingExact(log, c - 1, applied);
      SurvivingSnoc(g, e, applied);
      HandedSnoc(log, c - 1);
      assert e.index == c && g + [] == g && Surviving(g, applied) + [] == Surviving(g, applied);
      assert Handed(log[..c]) == g + if e.payload == Normal([]) then [] else [e];
    }
  }

  lemma NothingSurvives(applied: nat)
    ensures Handed([]) == [] && Surviving([], applied) == []
  {}

  lemma SurvivingSnoc(given: seq<Entry>, e: Entry, applied: nat)
    ensures Surviving(given + [e], applied) == Surviving(given, applied) + (if e.index <= applied then [e] else [])
  {
    assert (given + [e])[..|given|] == given;
  }

  /** The node's memory goes on from its disk, and its state machine has what the disk says is committed. */
  ghost predicate GivenOk(n: BNode) {
    && InRange(n.mem) && n.mem.applied == n.hs.commit <= |n.stored|
    && n.mem.log[..n.hs.commit] == n.stored[..n.hs.commit]
    && n.given == Handed(n.stored[..n.hs.commit])
  }

  // ---- what is known of a reachable node ----

  lemma DiskFacts(cfg: Config, servers: set<Id>, bs: seq<BWorld>, i: nat, a: Id)
    requires ValidConfig(cfg, servers) && BRun(cfg, servers, bs) && i < |bs| && a in bs[i].nodes
    ensures var n := bs[i].nodes[a]; FixedLog(servers, n.stored) && Consecutive(n.stored, 0) && n.hs.commit <= |n.stored|
  {
    hide BRun, Good, ProgressInv, VotesOk, Elected;
    var w, s := Behind(cfg, servers, bs, i);
    assert NodeSim(cfg, s, a, w.nodes[a]) && OnDisk(bs[i].nodes[a], w.nodes[a]);
    NodeFacts(s, a);
    Numbers(s.ll, w.nodes[a].log);
  }

  lemma Numbers(ll: map<nat, seq<Entry>>, log: seq<Entry>)
    requires LogOk(ll, log)
    ensures Consecutive(log, 0)
  {
    forall k | 0 <= k < |log| ensures log[k].index == k + 1 { assert EntryOk(ll, log, k); }
  }

  lemma MemoryFacts(cfg: Config, servers: set<Id>, bs: seq<BWorld>, i: nat, a: Id)
    requires ValidConfig(cfg, servers) && BRun(cfg, servers, bs) && i < |bs| && a in bs[i].nodes
    ensures var r := bs[i].nodes[a].mem; InRange(r) && FixedLog(r.replicas.Keys, r.log)
  {
    hide BRun, Run, Init, Next;
    var ws := InMemoryRun(cfg, servers, bs, i, a, a);
    LastFacts(cfg, servers, ws, a);
  }

  // ---- the steps of a node ----

  lemma WorkGiven(cfg: Config, n: BNode, e: Event)
    requires GivenOk(n) && InMemory(e)
    ensures GivenOk(DoWork(cfg, n, e))
  {
    hide Handle, Handed;
    InputKept(cfg, n.mem, e);
    var log, c := Handle(cfg, n.mem, e).r.log, n.mem.committed;
    WindowOfPrefix(log, c, 0, n.hs.commit);
    WindowOfPrefix(n.mem.log, c, 0, n.hs.commit);
  }

  lemma TurnGiven(cfg: Config, n: BNode)
    requires GivenOk(n) && FixedLog(n.mem.replicas.Keys, n.mem.log)
    ensures GivenOk(DoTurn(cfg, n))
  {
    hide Ready, Handed;
    var r := n.mem;
    forall i | 0 <= i < |Due(r)| ensures !Removes(Due(r)[i], r.id) {
      assert Due(r)[i] == r.log[r.applied + i];
    }
    NoRemovalNoLoss(cfg, r);
    TurnExact(cfg, r);
    HandedSplit(r.log, 0, r.applied, r.committed);
  }

  lemma CrashGiven(cfg: Config, n: BNode, v: Id, peers: map<Id, Peer>, applied: nat)
    requires GivenOk(n) && FixedLog(peers.Keys, n.stored) && Consecutive(n.stored, 0) && applied <= n.hs.commit
    ensures GivenOk(DoCrash(cfg, n, v, peers, applied))
  {
    hide Start, Handed, Surviving;
    StartShape(cfg, v, peers, n.hs, n.stored, applied);
    SurvivingExact(n.stored, n.hs.commit, applied);
    HandedSplit(n.stored, 0, applied, n.hs.commit);
    assert Handout(Loaded(v, peers, n.hs, n.stored, applied)) == Handed(n.stored[applied..n.hs.commit]);
  }

  lemma StartGiven(cfg: Config, servers: set<Id>, v: Id, n: BNode)
    requires BStarts(cfg, servers, v, n)
    ensures GivenOk(n)
  {
    hide StartsEmpty;
    FirstDurable(cfg, servers, v, n.mem);
  }

  lemma {:induction false} RunGiven(cfg: Config, servers: set<Id>, bs: seq<BWorld>, i: nat, a: Id)
    requires ValidConfig(cfg, servers) && BRun(cfg, servers, bs) && i < |bs| && a in bs[i].nodes
    ensures GivenOk(bs[i].nodes[a])
    decreases i
  {
    hide GivenOk, DoWork, DoTurn, DoCrash, FixedLog;
    if i == 0 {
      assert BStarts(cfg, servers, a, bs[0].nodes[a]);
      StartGiven(cfg, servers, a, bs[0].nodes[a]);
    } else {
      assert BNext(cfg, servers, bs[i - 1], bs[i - 1 + 1]);
      var v, e :| BNextBy(cfg, servers, bs[i - 1], bs[i], v, e);
      RunGiven(cfg, servers, bs, i - 1, a);
      if a == v {
        var n := bs[i - 1].nodes[v];
        match e
        case Work(ev) => WorkGiven(cfg, n, ev);
        case Turn =>
          MemoryFacts(cfg, servers, bs, i - 1, v);
          TurnGiven(cfg, n);
        case Crash(peers, applied) =>
          DiskFacts(cfg, servers, bs, i - 1, v);
          CrashGiven(cfg, n, v, peers, applied);
      }
    }
  }

  // ---- the theorems ----

  /** In every reachable state, crashes included, a node's state machine holds exactly the non-empty entries of its
   durable committed prefix, each once and in index order. */
  lemma GivenExact(cfg: Config, servers: set<Id>, bs: seq<BWorld>, i: nat, a: Id)
    requires ValidConfig(cfg, servers) && BRun(cfg, servers, bs) && i < |bs| && a in bs[i].nodes
    ensures var n := bs[i].nodes[a];
      && n.hs.commit <= |n.stored| && n.given == Handed(n.stored[..n.hs.commit])
      && (forall e :: e in n.given <==> e in n.stored[..n.hs.commit] && e.payload != Normal([]))
      && (forall x, y :: 0 <= x < y < |n.given| ==> n.given[x].index < n.given[y].index)
  {
    hide BRun, Handed;
    RunGiven(cfg, servers, bs, i, a);
    DiskFacts(cfg, servers, bs, i, a);
    HandedExact(bs[i].nodes[a].stored[..bs[i].nodes[a].hs.commit], 0);
  }

  /** Any two state machines, at any two times, have been given the same entries as far as both have come. */
  lemma GivenAgree(cfg: Config, servers: set<Id>, bs: seq<BWorld>, i: nat, j: nat, a: Id, b: Id)
    requires ValidConfig(cfg, servers) && BRun(cfg, servers, bs) && i <= j < |bs| && a in bs[i].nodes && b in bs[j].nodes
    ensures bs[i].nodes[a].given <= bs[j].nodes[b].given || bs[j].nodes[b].given <= bs[i].nodes[a].given
  {
    hide BRun, Handed;
    GivenExact(cfg, servers, bs, i, a);
    GivenExact(cfg, servers, bs, j, b);
    var m, n := bs[i].nodes[a], bs[j].nodes[b];
    var c := Min(m.hs.commit, n.hs.commit);
    AppliedSafety(cfg, servers, bs, i, j, a, b, c);
    HandedPrefix(m.stored, c, m.hs.commit);
    HandedPrefix(n.stored, c, n.hs.commit);
  }

  lemma HandedPrefix(log: seq<Entry>, c: nat, d: nat)
    requires c <= d <= |log|
    ensures Handed(log[..c]) <= Handed(log[..d])
  {
    HandedSplit(log, 0, c, d);
    assert log[0..c] == log[..c] && log[0..d] == log[..d];
  }
}
