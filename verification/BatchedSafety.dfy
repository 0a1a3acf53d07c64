/** The ready loop refines the cluster in which every input is persisted and answered at once. */
module BatchedSafety {
  import opened RaftTypes
  import opened LogSpec
  import opened FsmSpec
  import opened Cluster
  import opened ClusterSim
  import opened SimLeader
  import opened SimSend
  import opened SimApply
  import opened Batched
  import opened RaftSafety
  import C = CoreRaft
  import opened CoreInvariant

  /** A node's inputs since the last turn, handled one after the other. */
  ghost function Replay(cfg: Config, r: Fsm, es: seq<Event>): Res {
    if es == [] then Res(r, {})
    else
      var before := Replay(cfg, r, es[..|es| - 1]);
      var last := Handle(cfg, before.r, es[|es| - 1]);
      Res(last.r, before.out + last.out)
  }

  ghost predicate Inputs(servers: set<Id>, v: Id, net: set<Message>, es: seq<Event>) {
    forall i :: 0 <= i < |es| ==> InMemory(es[i]) && Allowed(servers, v, 0, net, es[i])
  }

  /** r is the node as of its last turn; its memory is what replaying the inputs since then gives. */
  ghost predicate NodeLink(cfg: Config, servers: set<Id>, v: Id, net: set<Message>, n: BNode, r: Fsm, es: seq<Event>) {
    && n.hs == HardState(r.term, r.vote, r.committed) && n.stored == r.log
    && Inputs(servers, v, net, es) && Replay(cfg, r, es) == Res(n.mem, n.queue)
  }

  /** The cluster run `ws` ends in the durable state of b. */
  ghost predicate Link(cfg: Config, servers: set<Id>, b: BWorld, ws: seq<World>, es: map<Id, seq<Event>>) {
    && Run(cfg, servers, ws) && var w := ws[|ws| - 1];
    && w.net == b.net && w.nodes.Keys == b.nodes.Keys == servers == es.Keys
    && forall v :: v in b.nodes ==> NodeLink(cfg, servers, v, b.net, b.nodes[v], w.nodes[v], es[v])
  }

  // ---- extending cluster runs ----

  lemma RunMore(cfg: Config, servers: set<Id>, ws: seq<World>, v: Id, e: Event) returns (ws': seq<World>)
    requires Run(cfg, servers, ws) && v in ws[|ws| - 1].nodes
    requires var w := ws[|ws| - 1]; Allowed(servers, v, w.nodes[v].committed, w.net, e)
    ensures Run(cfg, servers, ws') && ws <= ws'
    ensures var w := ws[|ws| - 1];
      var res := Handle(cfg, w.nodes[v], e); ws'[|ws'| - 1] == World(w.nodes[v := res.r], w.net + res.out)
  {
    hide Handle, Init;
    var w := ws[|ws| - 1];
    var res := Handle(cfg, w.nodes[v], e);
    var w' := World(w.nodes[v := res.r], w.net + res.out);
    ws' := ws + [w'];
    assert NextBy(cfg, servers, w, w', v, e);
    assert Next(cfg, servers, w, w');
    RunSnoc(cfg, servers, ws, w');
  }

  lemma RunSnoc(cfg: Config, servers: set<Id>, ws: seq<World>, w': World)
    requires Run(cfg, servers, ws) && Next(cfg, servers, ws[|ws| - 1], w')
    ensures Run(cfg, servers, ws + [w'])
  {
    hide Next, Init;
    var all := ws + [w'];
    forall i | 0 <= i < |all| - 1 ensures Next(cfg, servers, all[i], all[i + 1]) {
      if i < |ws| - 1 { assert Next(cfg, servers, ws[i], ws[i + 1]); }
    }
  }

  lemma AllowedLater(servers: set<Id>, v: Id, c: nat, net: set<Message>, net': set<Message>, e: Event)
    requires InMemory(e) && Allowed(servers, v, 0, net, e) && net <= net'
    ensures Allowed(servers, v, c, net', e)
  {}

  /** Inputs of one node can be replayed at the end of a run: the messages they need are still around. */
  lemma RunReplay(cfg: Config, servers: set<Id>, ws: seq<World>, v: Id, es: seq<Event>) returns (ws': seq<World>)
    requires Run(cfg, servers, ws) && v in ws[|ws| - 1].nodes && Inputs(servers, v, ws[|ws| - 1].net, es)
    ensures Run(cfg, servers, ws') && ws <= ws'
    ensures var w := ws[|ws| - 1];
      var res := Replay(cfg, w.nodes[v], es); ws'[|ws'| - 1] == World(w.nodes[v := res.r], w.net + res.out)
    decreases |es|
  {
    hide Init, Next, Handle;
    var w := ws[|ws| - 1];
    if es == [] {
      assert w.nodes[v := w.nodes[v]] == w.nodes;
      ws' := ws;
    } else {
      var n := |es| - 1;
      var ws1 := RunReplay(cfg, servers, ws, v, es[..n]);
      var w1 := ws1[|ws1| - 1];
      AllowedLater(servers, v, w1.nodes[v].committed, w.net, w1.net, es[n]);
      ws' := RunMore(cfg, servers, ws1, v, es[n]);
      assert w.nodes[v := w1.nodes[v]][v := ws'[|ws'| - 1].nodes[v]] == w.nodes[v := ws'[|ws'| - 1].nodes[v]];
    }
  }

  // ---- one step of the ready loop ----

  /** What the cluster invariant says about the last world of a run. */
  lemma LastFacts(cfg: Config, servers: set<Id>, ws: seq<World>, v: Id)
    requires ValidConfig(cfg, servers) && Run(cfg, servers, ws) && v in ws[|ws| - 1].nodes
    ensures var r := ws[|ws| - 1].nodes[v];
      r.id == v && r.applied <= r.committed <= |r.log| && FixedLog(r.replicas.Keys, r.log) && !r.fault
  {
    hide Good, Init, Next, Grows;
    var ss := RunLinked(cfg, servers, ws);
    var n := |ws| - 1;
    assert Linked(cfg, servers, ws[n], ss[n]);
    assert NodeSim(cfg, ss[n], v, ws[n].nodes[v]);
    NodeFacts(ss[n], v);
  }

  lemma InputsLater(servers: set<Id>, v: Id, net: set<Message>, net': set<Message>, es: seq<Event>)
    requires Inputs(servers, v, net, es) && net <= net'
    ensures Inputs(servers, v, net', es)
  {}

  lemma WorkLink(cfg: Config, servers: set<Id>, b: BWorld, ws: seq<World>, es: map<Id, seq<Event>>, v: Id, e: Event)
    requires Link(cfg, servers, b, ws, es) && v in b.nodes && InMemory(e) && Allowed(servers, v, 0, b.net, e)
    ensures Link(cfg, servers, b.(nodes := b.nodes[v := DoWork(cfg, b.nodes[v], e)]), ws, es[v := es[v] + [e]])
  {
    hide Init, Next, Handle;
    var w, all := ws[|ws| - 1], es[v] + [e];
    assert NodeLink(cfg, servers, v, b.net, b.nodes[v], w.nodes[v], es[v]);
    assert all[..|all| - 1] == es[v];
    assert NodeLink(cfg, servers, v, b.net, DoWork(cfg, b.nodes[v], e), w.nodes[v], all);
  }

  lemma TurnLink(cfg: Config, servers: set<Id>, b: BWorld, ws: seq<World>, es: map<Id, seq<Event>>, v: Id) returns (ws': seq<World>)
    requires ValidConfig(cfg, servers) && Link(cfg, servers, b, ws, es) && v in b.nodes
    ensures var n := b.nodes[v];
      Link(cfg, servers, BWorld(b.nodes[v := DoTurn(cfg, n)], b.net + (n.queue + Ready(cfg, n.mem).out)), ws', es[v := []])
    ensures ws <= ws'
  {
    hide Init, Next, Ready, Replay;
    var w, n := ws[|ws| - 1], b.nodes[v];
    assert NodeLink(cfg, servers, v, b.net, n, w.nodes[v], es[v]);
    var ws1 := RunReplay(cfg, servers, ws, v, es[v]);
    LastFacts(cfg, servers, ws1, v);
    ReadyShape(cfg, n.mem);
    ws' := RunMore(cfg, servers, ws1, v, ReadyTurn);
    var w' := ws'[|ws'| - 1];
    var b' := BWorld(b.nodes[v := DoTurn(cfg, n)], b.net + (n.queue + Ready(cfg, n.mem).out));
    assert w'.net == b'.net;
    forall k | k in b'.nodes ensures NodeLink(cfg, servers, k, b'.net, b'.nodes[k], w'.nodes[k], es[v := []][k]) {
      if k == v {
        ReplayNone(cfg, w'.nodes[v]);
      } else {
        assert NodeLink(cfg, servers, k, b.net, b.nodes[k], w.nodes[k], es[k]);
        InputsLater(servers, k, b.net, b'.net, es[k]);
      }
    }
  }

  lemma ReplayNone(cfg: Config, r: Fsm)
    ensures Replay(cfg, r, []) == Res(r, {})
  {}

  lemma CrashLink(cfg: Config, servers: set<Id>, b: BWorld, ws: seq<World>, es: map<Id, seq<Event>>,
                  v: Id, peers: map<Id, Peer>, applied: nat) returns (ws': seq<World>)
    requires ValidConfig(cfg, servers) && Link(cfg, servers, b, ws, es) && v in b.nodes
    requires peers.Keys == servers && applied <= b.nodes[v].hs.commit
    ensures Link(cfg, servers, b.(nodes := b.nodes[v := DoCrash(cfg, b.nodes[v], v, peers, applied)]), ws', es[v := []])
    ensures ws <= ws'
  {
    hide Init, Next, Start, Replay, Surviving, Handout, Loaded;
    var w, n := ws[|ws| - 1], b.nodes[v];
    assert NodeLink(cfg, servers, v, b.net, n, w.nodes[v], es[v]);
    LastFacts(cfg, servers, ws, v);
    ws' := RunMore(cfg, servers, ws, v, Restart(peers, applied));
    LastFacts(cfg, servers, ws', v);
    var w' := ws'[|ws'| - 1];
    CrashDurable(cfg, servers, ws, ws', v, peers, applied);
    ReplayNone(cfg, w'.nodes[v]);
    assert NodeLink(cfg, servers, v, b.net, DoCrash(cfg, n, v, peers, applied), w'.nodes[v], []);
    hide NodeLink, DoCrash;
    forall k | k in b.nodes && k != v ensures NodeLink(cfg, servers, k, b.net, b.nodes[k], w'.nodes[k], es[k]) {
      assert NodeLink(cfg, servers, k, b.net, b.nodes[k], w.nodes[k], es[k]);
    }
  }

  /** A restart comes back with exactly the durable state. */
  lemma CrashDurable(cfg: Config, servers: set<Id>, ws: seq<World>, ws': seq<World>, v: Id, peers: map<Id, Peer>, applied: nat)
    requires ValidConfig(cfg, servers) && Run(cfg, servers, ws) && v in ws[|ws| - 1].nodes && peers.Keys == servers
    requires var r := ws[|ws| - 1].nodes[v];
      applied <= r.committed && ws' != [] && v in ws'[|ws'| - 1].nodes
      && ws'[|ws'| - 1].nodes[v] == Start(cfg, v, peers, HardState(r.term, r.vote, r.committed), r.log, applied)
    ensures var r, r' := ws[|ws| - 1].nodes[v], ws'[|ws'| - 1].nodes[v];
      r'.term == r.term && r'.vote == r.vote && r'.committed == r.committed && r'.log == r.log && r'.applied == r.committed
  {
    hide Good, Init, Next, Grows, Start;
    var ss := RunLinked(cfg, servers, ws);
    var n := |ws| - 1;
    assert Linked(cfg, servers, ws[n], ss[n]);
    assert NodeSim(cfg, ss[n], v, ws[n].nodes[v]);
    NodeFacts(ss[n], v);
    var r := ws[n].nodes[v];
    StartShape(cfg, v, peers, HardState(r.term, r.vote, r.committed), r.log, applied);
  }

  lemma BNextLink(cfg: Config, servers: set<Id>, b: BWorld, b': BWorld, ws: seq<World>, es: map<Id, seq<Event>>)
    returns (ws': seq<World>, es': map<Id, seq<Event>>)
    requires ValidConfig(cfg, servers) && Link(cfg, servers, b, ws, es) && BNext(cfg, servers, b, b')
    ensures Link(cfg, servers, b', ws', es') && ws <= ws'
  {
    hide Link, DoWork, DoTurn, DoCrash, Ready;
    var v, e :| BNextBy(cfg, servers, b, b', v, e);
    match e
    case Work(ev) =>
      EsOf(cfg, servers, b, ws, es, v);
      WorkLink(cfg, servers, b, ws, es, v, ev);
      ws', es' := ws, es[v := es[v] + [ev]];
    case Turn =>
      ws' := TurnLink(cfg, servers, b, ws, es, v);
      es' := es[v := []];
    case Crash(peers, applied) =>
      ws' := CrashLink(cfg, servers, b, ws, es, v, peers, applied);
      es' := es[v := []];
  }

  lemma EsOf(cfg: Config, servers: set<Id>, b: BWorld, ws: seq<World>, es: map<Id, seq<Event>>, v: Id)
    requires Link(cfg, servers, b, ws, es) && v in b.nodes
    ensures v in es
  {}

  // ---- whole runs ----

  ghost predicate LinkedB(cfg: Config, servers: set<Id>, bs: seq<BWorld>, wss: seq<seq<World>>, ess: seq<map<Id, seq<Event>>>) {
    && |wss| == |bs| == |ess|
    && (forall i :: 0 <= i < |bs| ==> Link(cfg, servers, bs[i], wss[i], ess[i]))
    && (forall i, j :: 0 <= i <= j < |bs| ==> wss[i] <= wss[j])
  }

  lemma BInitLink(cfg: Config, servers: set<Id>, b: BWorld) returns (ws: seq<World>, es: map<Id, seq<Event>>)
    requires ValidConfig(cfg, servers) && BInit(cfg, servers, b)
    ensures Link(cfg, servers, b, ws, es)
  {
    hide StartsEmpty, Handle;
    var w := World(map v | v in b.nodes :: b.nodes[v].mem, {});
    ws, es := [w], map v | v in b.nodes :: [];
    forall v | v in servers ensures StartsEmpty(cfg, servers, v, w.nodes[v]) {
      assert BStarts(cfg, servers, v, b.nodes[v]);
    }
    assert Run(cfg, servers, ws);
    forall v | v in b.nodes ensures NodeLink(cfg, servers, v, b.net, b.nodes[v], w.nodes[v], []) {
      assert BStarts(cfg, servers, v, b.nodes[v]);
      FirstDurable(cfg, servers, v, b.nodes[v].mem);
    }
  }

  lemma FirstDurable(cfg: Config, servers: set<Id>, v: Id, r: Fsm)
    requires StartsEmpty(cfg, servers, v, r)
    ensures r.term == 0 && r.vote == NO_LEADER && r.committed == 0 && r.log == [] && r.applied == 0
  {
    hide Start;
    var peers: map<Id, Peer> :| peers.Keys == servers && r == Start(cfg, v, peers, HardState(0, NO_LEADER, 0), [], 0);
    StartShape(cfg, v, peers, HardState(0, NO_LEADER, 0), [], 0);
  }

  /** Every run of the ready loop has behind it one run of the cluster, which its durable states follow. */
  lemma BRunLinked(cfg: Config, servers: set<Id>, bs: seq<BWorld>) returns (wss: seq<seq<World>>, ess: seq<map<Id, seq<Event>>>)
    requires ValidConfig(cfg, servers) && BRun(cfg, servers, bs)
    ensures LinkedB(cfg, servers, bs, wss, ess)
    decreases |bs|
  {
    hide Link, BInit, BNext;
    var n := |bs| - 1;
    if n == 0 {
      var ws, es := BInitLink(cfg, servers, bs[0]);
      wss, ess := [ws], [es];
    } else {
      var bs0 := bs[..n];
      forall i | 0 <= i < |bs0| - 1 ensures BNext(cfg, servers, bs0[i], bs0[i + 1]) {
        assert BNext(cfg, servers, bs[i], bs[i + 1]);
      }
      var wss0, ess0 := BRunLinked(cfg, servers, bs0);
      assert bs0[n - 1] == bs[n - 1];
      assert BNext(cfg, servers, bs[n - 1], bs[n - 1 + 1]);
      var ws', es' := BNextLink(cfg, servers, bs[n - 1], bs[n], wss0[n - 1], ess0[n - 1]);
      wss, ess := wss0 + [ws'], ess0 + [es'];
      forall i, j | 0 <= i <= j < |bs| ensures wss[i] <= wss[j] {
        if j == n && i < n { assert wss0[i] <= wss0[n - 1]; }
      }
    }
  }
}
