/** What the ready loop guarantees although it persists late and in batches. */
module ReadyLoopSafety {
  import opened RaftTypes
  import opened LogSpec
  import opened FsmSpec
  import opened Cluster
  import opened ClusterSim
  import opened SimLeader
  import opened SimSend
  import opened Batched
  import opened BatchedSafety
  import RaftSafety
  import C = CoreRaft
  import opened CoreInvariant
  import opened CoreSafety

  /** What a message promises is on disk, or its term is over for its sender. */
  ghost predicate Persisted(n: BNode, m: Message) {
    n.hs.term > m.term || (n.hs.term == m.term &&
      match m.body
      case RespVote(reject) => !reject ==> n.hs.vote == m.to
      case ReqVote(_, index, _) => n.hs.vote == m.from
      case RespAppend(reject, index, _, _) => !reject ==> index <= |n.stored|
      case ReqAppend(index, _, _, ents) => index + |ents| <= |n.stored| && n.stored[index..index + |ents|] == ents
      case _ => true)
  }

  /** The durable state of a node. */
  ghost predicate OnDisk(n: BNode, r: Fsm) {
    n.hs == HardState(r.term, r.vote, r.committed) && n.stored == r.log
  }

  /** The durable states and the network of a reachable world, as the core protocol sees them. */
  lemma Behind(cfg: Config, servers: set<Id>, bs: seq<BWorld>, i: nat) returns (w: World, s: C.State)
    requires ValidConfig(cfg, servers) && BRun(cfg, servers, bs) && i < |bs|
    ensures RaftSafety.Linked(cfg, servers, w, s) && w.net == bs[i].net && w.nodes.Keys == bs[i].nodes.Keys
    ensures forall v :: v in w.nodes ==> OnDisk(bs[i].nodes[v], w.nodes[v])
  {
    hide BRun, Good, Grows, Init, Next, NodeSim, Replay, Inputs;
    var wss, ess := BRunLinked(cfg, servers, bs);
    assert Link(cfg, servers, bs[i], wss[i], ess[i]);
    var ss := RaftSafety.RunLinked(cfg, servers, wss[i]);
    w, s := wss[i][|wss[i]| - 1], ss[|wss[i]| - 1];
  }

  /** Persist before send, in every reachable state and whatever was queued before one persist. */
  lemma PersistBeforeSend(cfg: Config, servers: set<Id>, bs: seq<BWorld>, i: nat, m: Message)
    requires ValidConfig(cfg, servers) && BRun(cfg, servers, bs) && i < |bs| && m in bs[i].net
    ensures m.from in bs[i].nodes && Persisted(bs[i].nodes[m.from], m)
  {
    hide BRun, Good, ProgressInv, VotesOk, Elected;
    var w, s := Behind(cfg, servers, bs, i);
    assert MsgOk(s, m);
    assert NodeSim(cfg, s, m.from, w.nodes[m.from]) && OnDisk(bs[i].nodes[m.from], w.nodes[m.from]);
    OnRecord(s, m);
  }

  /** An acknowledgement vouches for content: while its term lasts, the acknowledging node's durable log holds
   what the leader sent up to the acknowledged index. */
  lemma AcknowledgedIsStored(cfg: Config, servers: set<Id>, bs: seq<BWorld>, i: nat, m: Message, sent: Message)
    requires ValidConfig(cfg, servers) && BRun(cfg, servers, bs) && i < |bs| && m in bs[i].net && sent in bs[i].net
    requires m.body.RespAppend? && !m.body.reject && sent.body.ReqAppend? && sent.term == m.term
    requires sent.body.index + |sent.body.ents| <= m.body.index
    ensures m.from in bs[i].nodes
    ensures var n := bs[i].nodes[m.from]; var from, to := sent.body.index, sent.body.index + |sent.body.ents|;
      n.hs.term == m.term ==> to <= |n.stored| && n.stored[from..to] == sent.body.ents
  {
    hide BRun, Good, ProgressInv, VotesOk, Elected;
    var w, s := Behind(cfg, servers, bs, i);
    assert MsgOk(s, m) && MsgOk(s, sent);
    assert NodeSim(cfg, s, m.from, w.nodes[m.from]) && OnDisk(bs[i].nodes[m.from], w.nodes[m.from]);
    if bs[i].nodes[m.from].hs.term == m.term { AckedHolds(s, m, sent); }
  }

  lemma AckedHolds(s: C.State, m: Message, sent: Message)
    requires Good(s) && MsgOk(s, m) && MsgOk(s, sent) && s.nodes[m.from].term == m.term
    requires m.body.RespAppend? && !m.body.reject && sent.body.ReqAppend? && sent.term == m.term
    requires sent.body.index + |sent.body.ents| <= m.body.index
    ensures var n := s.nodes[m.from]; var from, to := sent.body.index, sent.body.index + |sent.body.ents|;
      to <= |n.log| && n.log[from..to] == sent.body.ents
  {
    hide NodesInv, VotesInv, CampInv, RolesInv, KeptInv, VotedInv, CompletenessInv, SendsInv, CommitInv, ConfInv, FixedInv;
    var n, l, k := s.nodes[m.from], s.ll[m.term], m.body.index;
    assert AckOk(s, m.term, m.from);
    WindowOfPrefix(n.log, k, sent.body.index, sent.body.index + |sent.body.ents|);
    WindowOfPrefix(l, k, sent.body.index, sent.body.index + |sent.body.ents|);
  }

  /** What a message says is on record still shows in its sender, unless the sender has moved to a later term. */
  lemma OnRecord(s: C.State, m: Message)
    requires Good(s) && MsgOk(s, m)
    ensures var n := s.nodes[m.from];
      n.term > m.term || (n.term == m.term &&
        match m.body
        case RespVote(reject) => !reject ==> n.vote == m.to
        case ReqVote(_, _, _) => n.vote == m.from
        case RespAppend(reject, index, _, _) => !reject ==> index <= |n.log|
        case ReqAppend(index, _, _, ents) => index + |ents| <= |n.log| && n.log[index..index + |ents|] == ents
        case _ => true)
  {
    hide NodesInv, RolesInv, KeptInv, VotedInv, CompletenessInv, SendsInv, CommitInv, ConfInv, FixedInv;
    var n := s.nodes[m.from];
    if n.term == m.term {
      match m.body
      case RespVote(reject) => if !reject { assert VoteOk(s, m.term, m.from, m.to); }
      case ReqVote(_, _, _) => assert CampOk(s, m.term, m.from) && VoteOk(s, m.term, m.from, m.from);
      case RespAppend(reject, index, _, _) => if !reject { assert AckOk(s, m.term, m.from); }
      case ReqAppend(index, _, _, ents) =>
        assert LeaderOk(s, m.term) && AckOk(s, m.term, m.from);
        var l := s.ll[m.term];
        assert n.log[..|l|] == l[..|l|] == l;
        WindowOfPrefix(n.log, |l|, index, index + |ents|);
      case _ =>
    }
  }

  /** All append requests of a term come from one node, whenever they were sent. */
  lemma OneVoicePerTerm(cfg: Config, servers: set<Id>, bs: seq<BWorld>, i: nat, m: Message, m': Message)
    requires ValidConfig(cfg, servers) && BRun(cfg, servers, bs) && i < |bs| && m in bs[i].net && m' in bs[i].net
    requires m.body.ReqAppend? && m'.body.ReqAppend? && m.term == m'.term
    ensures m.from == m'.from
  {
    hide BRun, Good, NodeSim;
    var w, s := Behind(cfg, servers, bs, i);
    assert MsgOk(s, m) && MsgOk(s, m');
  }

  /** State machine safety of the ready loop: two nodes never hand out different entries at an index, at any two times. */
  lemma AppliedSafety(cfg: Config, servers: set<Id>, bs: seq<BWorld>, i: nat, j: nat, a: Id, b: Id, k: nat)
    requires ValidConfig(cfg, servers) && BRun(cfg, servers, bs) && i <= j < |bs| && a in bs[i].nodes && b in bs[j].nodes
    requires k <= bs[i].nodes[a].hs.commit && k <= bs[j].nodes[b].hs.commit
    ensures k <= |bs[i].nodes[a].stored| && k <= |bs[j].nodes[b].stored|
    ensures bs[i].nodes[a].stored[..k] == bs[j].nodes[b].stored[..k]
  {
    hide BRun, Init, Next;
    var wss, ess := BRunLinked(cfg, servers, bs);
    assert Link(cfg, servers, bs[i], wss[i], ess[i]) && Link(cfg, servers, bs[j], wss[j], ess[j]) && wss[i] <= wss[j];
    var p, q := |wss[i]| - 1, |wss[j]| - 1;
    assert wss[j][p] == wss[i][p];
    assert NodeLink(cfg, servers, a, bs[i].net, bs[i].nodes[a], wss[i][p].nodes[a], ess[i][a]);
    assert NodeLink(cfg, servers, b, bs[j].net, bs[j].nodes[b], wss[j][q].nodes[b], ess[j][b]);
    RaftSafety.StateMachineSafety(cfg, servers, wss[j], p, q, a, b, k);
  }

  /** The durable term and commit index never fall. */
  lemma DurableNeverBack(cfg: Config, servers: set<Id>, bs: seq<BWorld>, i: nat, j: nat, a: Id)
    requires ValidConfig(cfg, servers) && BRun(cfg, servers, bs) && i <= j < |bs| && a in bs[i].nodes
    ensures a in bs[j].nodes && bs[i].nodes[a].hs.term <= bs[j].nodes[a].hs.term
    ensures bs[i].nodes[a].hs.commit <= bs[j].nodes[a].hs.commit
  {
    hide BRun, Init, Next;
    var wss, ess := BRunLinked(cfg, servers, bs);
    assert Link(cfg, servers, bs[i], wss[i], ess[i]) && Link(cfg, servers, bs[j], wss[j], ess[j]) && wss[i] <= wss[j];
    var p, q := |wss[i]| - 1, |wss[j]| - 1;
    assert wss[j][p] == wss[i][p];
    assert NodeLink(cfg, servers, a, bs[i].net, bs[i].nodes[a], wss[i][p].nodes[a], ess[i][a]);
    assert NodeLink(cfg, servers, a, bs[j].net, bs[j].nodes[a], wss[j][q].nodes[a], ess[j][a]);
    RaftSafety.NeverBack(cfg, servers, wss[j], p, q, a);
  }

  // ---- leaders in memory ----

  /** Replaying a node's inputs moves only that node. */
  lemma ReplayLinked(cfg: Config, servers: set<Id>, w: World, s: C.State, v: Id, es: seq<Event>) returns (s': C.State)
    requires ValidConfig(cfg, servers) && RaftSafety.Linked(cfg, servers, w, s) && v in w.nodes && Inputs(servers, v, w.net, es)
    ensures var res := Replay(cfg, w.nodes[v], es);
      RaftSafety.Linked(cfg, servers, World(w.nodes[v := res.r], w.net + res.out), s') && Moves(s, s', v)
    decreases |es|
  {
    hide Good, NodeSim, Handle, OutOk, Grows, OthersSame;
    if es == [] {
      s' := s;
      MovesNot(s, v);
      assert w.nodes[v := w.nodes[v]] == w.nodes && w.net + {} == w.net;
    } else {
      var n := |es| - 1;
      var before := Replay(cfg, w.nodes[v], es[..n]);
      var w1 := World(w.nodes[v := before.r], w.net + before.out);
      var s1 := ReplayLinked(cfg, servers, w, s, v, es[..n]);
      AllowedLater(servers, v, w1.nodes[v].committed, w.net, w1.net, es[n]);
      s' := RaftSafety.EventSim(cfg, servers, w1, s1, v, es[n]);
      var res := Handle(cfg, before.r, es[n]);
      RaftSafety.Relink(cfg, servers, w1, s1, s', v, res);
      MovesOn(s, s1, s', v);
      assert w1.nodes[v := res.r] == w.nodes[v := res.r] && w1.net + res.out == w.net + (before.out + res.out);
    }
  }

  /** A node that leads in memory was elected, and all votes but its own are on record among the durable states. */
  lemma LeaderElected(cfg: Config, servers: set<Id>, b: BWorld, w: World, s: C.State, es: seq<Event>, a: Id)
    returns (q: set<Id>)
    requires ValidConfig(cfg, servers) && RaftSafety.Linked(cfg, servers, w, s) && a in b.nodes && a in w.nodes
    requires NodeLink(cfg, servers, a, w.net, b.nodes[a], w.nodes[a], es) && b.nodes[a].mem.state == StateLeader
    ensures IsQuorum(servers, q) && forall k :: k in q && k != a ==> (b.nodes[a].mem.term, k, a) in s.votes
  {
    hide Good, Replay, Grows;
    var s' := ReplayLinked(cfg, servers, w, s, a, es);
    assert NodeSim(cfg, s', a, b.nodes[a].mem);
    NodeFacts(s', a);
    ElectionFact(s', s'.nodes[a].term);
    q := s'.electors[s'.nodes[a].term];
  }

  lemma ElectionFact(s: C.State, t: nat)
    requires Good(s) && t in s.ll
    ensures ElectionOk(s, t)
  {
    hide NodesInv, VotesInv, CampInv, RolesInv, AcksInv, KeptInv, VotedInv, CompletenessInv, SendsInv, CommitInv, ConfInv, FixedInv;
    assert LeaderOk(s, t);
  }

  /** One vote for a node means it campaigned, and so voted for itself. */
  lemma VotedForItself(s: C.State, t: nat, k: Id, a: Id)
    requires Good(s) && (t, k, a) in s.votes
    ensures (t, a, a) in s.votes
  {
    hide NodesInv, LeadersInv, RolesInv, AcksInv, KeptInv, VotedInv, CompletenessInv, SendsInv, CommitInv, ConfInv, FixedInv;
    assert VoteOk(s, t, k, a);
    assert CampOk(s, t, a);
  }

  lemma OneVote(s: C.State, t: nat, k: Id, a: Id, b: Id)
    requires Good(s) && (t, k, a) in s.votes && (t, k, b) in s.votes
    ensures a == b
  {
    hide NodesInv, CampInv, LeadersInv, RolesInv, AcksInv, KeptInv, VotedInv, CompletenessInv, SendsInv, CommitInv, ConfInv, FixedInv;
  }

  /** A majority of more than one server has a member besides a. */
  lemma Another(servers: set<Id>, q: set<Id>, a: Id) returns (y: Id)
    requires IsQuorum(servers, q) && |servers| >= 2
    ensures y in q && y != a
  {
    if q - {a} == {} {
      CardSubset(q, {a});
      assert false;
    }
    y :| y in q - {a};
  }

  /** Votes of two elections of one term meet in one node. */
  lemma QuorumsElectOne(s: C.State, t: nat, a: Id, b: Id, p: set<Id>, q: set<Id>)
    requires Good(s) && IsQuorum(s.servers, p) && IsQuorum(s.servers, q) && a in s.servers && b in s.servers
    requires (forall k :: k in p && k != a ==> (t, k, a) in s.votes) && (forall k :: k in q && k != b ==> (t, k, b) in s.votes)
    ensures a == b
  {
    hide Good;
    if a != b {
      CardSubset({a, b}, s.servers);
      var y := Another(s.servers, p, a);
      VotedForItself(s, t, y, a);
      var z := Another(s.servers, q, b);
      VotedForItself(s, t, z, b);
      var x := QuorumsMeet(s.servers, p, q);
      OneVote(s, t, x, a, b);
    }
  }

  /** Election safety of the ready loop: no two nodes ever lead the same term, not even in memory or before a crash. */
  lemma ElectionSafety(cfg: Config, servers: set<Id>, bs: seq<BWorld>, i: nat, j: nat, a: Id, b: Id)
    requires ValidConfig(cfg, servers) && BRun(cfg, servers, bs) && i <= j < |bs| && a in bs[i].nodes && b in bs[j].nodes
    requires bs[i].nodes[a].mem.state == StateLeader && bs[j].nodes[b].mem.state == StateLeader
    requires bs[i].nodes[a].mem.term == bs[j].nodes[b].mem.term
    ensures a == b
  {
    hide BRun, Init, Next, Good, NodeSim, NodeLink;
    var wss, ess := BRunLinked(cfg, servers, bs);
    assert Link(cfg, servers, bs[i], wss[i], ess[i]) && Link(cfg, servers, bs[j], wss[j], ess[j]) && wss[i] <= wss[j];
    var ss := RaftSafety.RunLinked(cfg, servers, wss[j]);
    var m, n := |wss[i]| - 1, |wss[j]| - 1;
    assert wss[j][m] == wss[i][m] && Grows(ss[m], ss[n]);
    assert RaftSafety.Linked(cfg, servers, wss[j][m], ss[m]) && RaftSafety.Linked(cfg, servers, wss[j][n], ss[n]);
    var p := LeaderElected(cfg, servers, bs[i], wss[j][m], ss[m], ess[i][a], a);
    var q := LeaderElected(cfg, servers, bs[j], wss[j][n], ss[n], ess[j][b], b);
    QuorumsElectOne(ss[n], bs[i].nodes[a].mem.term, a, b, p, q);
  }

  /** A cluster run that ends with the memory of a, and with that of b. */
  lemma InMemoryRun(cfg: Config, servers: set<Id>, bs: seq<BWorld>, i: nat, a: Id, b: Id) returns (ws: seq<World>)
    requires ValidConfig(cfg, servers) && BRun(cfg, servers, bs) && i < |bs| && a in bs[i].nodes && b in bs[i].nodes
    ensures Run(cfg, servers, ws) && var w := ws[|ws| - 1];
      a in w.nodes && b in w.nodes && w.nodes[a] == bs[i].nodes[a].mem && w.nodes[b] == bs[i].nodes[b].mem
  {
    hide BRun, Init, Next, Replay;
    var wss, ess := BRunLinked(cfg, servers, bs);
    assert Link(cfg, servers, bs[i], wss[i], ess[i]);
    var w := wss[i][|wss[i]| - 1];
    assert NodeLink(cfg, servers, a, bs[i].net, bs[i].nodes[a], w.nodes[a], ess[i][a]);
    assert NodeLink(cfg, servers, b, bs[i].net, bs[i].nodes[b], w.nodes[b], ess[i][b]);
    ws := RunReplay(cfg, servers, wss[i], a, ess[i][a]);
    if a != b {
      InputsLater(servers, b, bs[i].net, ws[|ws| - 1].net, ess[i][b]);
      ws := RunReplay(cfg, servers, ws, b, ess[i][b]);
    }
  }

  /** In memory too: no panic, one leader per term, agreeing committed prefixes, at most one pending configuration entry. */
  lemma MemorySafety(cfg: Config, servers: set<Id>, bs: seq<BWorld>, i: nat, a: Id, b: Id)
    requires ValidConfig(cfg, servers) && BRun(cfg, servers, bs) && i < |bs| && a in bs[i].nodes && b in bs[i].nodes
    ensures var x, y := bs[i].nodes[a].mem, bs[i].nodes[b].mem;
      && !x.fault && x.applied <= x.committed <= |x.log| && C.ConfsAbove(x.log, x.committed) <= 1
      && (x.state == StateLeader && y.state == StateLeader && x.term == y.term ==> a == b)
      && (forall k: nat :: k <= x.committed && k <= y.committed ==> k <= |y.log| && x.log[..k] == y.log[..k])
  {
    hide BRun, Init, Next;
    var ws := InMemoryRun(cfg, servers, bs, i, a, b);
    var n := |ws| - 1;
    RaftSafety.NoPanic(cfg, servers, ws, n, a);
    RaftSafety.NoPanic(cfg, servers, ws, n, b);
    RaftSafety.OneConfPending(cfg, servers, ws, n, a);
    var x, y := bs[i].nodes[a].mem, bs[i].nodes[b].mem;
    if x.state == StateLeader && y.state == StateLeader && x.term == y.term {
      RaftSafety.ElectionSafety(cfg, servers, ws, n, n, a, b);
    }
    forall k: nat | k <= x.committed && k <= y.committed ensures x.log[..k] == y.log[..k] {
      RaftSafety.StateMachineSafety(cfg, servers, ws, n, n, a, b, k);
    }
  }
}
