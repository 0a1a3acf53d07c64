/**
 A cluster of nodes and the messages ever sent. A step of a node handles one input and persists and
 sends at once; the network may lose, repeat and reorder messages, and nodes may crash and restart.
 */
module Cluster {
  import opened RaftTypes
  import opened FsmSpec

  datatype Event =
    | Recv(m: Message)
    | HupTick(force: bool)
    | LeaseTick
    | ResumeTick
    | Submit(payloads: seq<Payload>)
    | ReadyTurn
    | Restart(peers: map<Id, Peer>, applied: nat)

  /** Inputs that only touch memory. */
  predicate InMemory(e: Event) { !e.ReadyTurn? && !e.Restart? }

  datatype World = World(nodes: map<Id, Fsm>, net: set<Message>)

  /** Heartbeats are made by the transport, carry no term and may arrive at any time. */
  predicate IsHeartbeat(m: Message) {
    m.term == 0 && (m.body.ReqHeartBeat? || m.body.RespHeartBeat?)
  }

  /** A configuration change that leaves the set of members as it is. */
  predicate KeepsMembers(servers: set<Id>, p: Payload) {
    p.Conf? ==> p.peer.id == NO_LEADER || p.kind == UpdateNode || (p.kind == AddNode && p.peer.id in servers)
  }

  ghost function Handle(cfg: Config, r: Fsm, e: Event): Res {
    match e
    case Recv(m) => Receive(cfg, r, m)
    case HupTick(force) => Hup(cfg, r, force)
    case LeaseTick => Res(LeaseExpire(cfg, r), {})
    case ResumeTick => Res(Resume(r), {})
    case Submit(ps) => Propose(cfg, r, ps)
    case ReadyTurn => Ready(cfg, r)
    case Restart(peers, applied) =>
      Res(Start(cfg, r.id, peers, HardState(r.term, r.vote, r.committed), r.log, applied), {})
  }

  predicate Deliverable(v: Id, net: set<Message>, m: Message) {
    m.to == v && (m in net || IsHeartbeat(m))
  }

  predicate Allowed(servers: set<Id>, v: Id, committed: nat, net: set<Message>, e: Event) {
    match e
    case Recv(m) => Deliverable(v, net, m)
    case Submit(ps) => forall i :: 0 <= i < |ps| ==> KeepsMembers(servers, ps[i])
    case Restart(peers, applied) => peers.Keys == servers && applied <= committed
    case _ => true
  }

  ghost predicate NextBy(cfg: Config, servers: set<Id>, w: World, w': World, v: Id, e: Event) {
    && v in w.nodes && Allowed(servers, v, w.nodes[v].committed, w.net, e)
    && var res := Handle(cfg, w.nodes[v], e);
    w' == World(w.nodes[v := res.r], w.net + res.out)
  }

  ghost predicate Next(cfg: Config, servers: set<Id>, w: World, w': World) {
    exists v, e :: NextBy(cfg, servers, w, w', v, e)
  }

  /** A node that starts with empty storage. */
  ghost predicate StartsEmpty(cfg: Config, servers: set<Id>, v: Id, r: Fsm) {
    exists peers: map<Id, Peer> ::
      peers.Keys == servers && r == Start(cfg, v, peers, HardState(0, NO_LEADER, 0), [], 0)
  }

  ghost predicate Init(cfg: Config, servers: set<Id>, w: World) {
    && w.net == {} && w.nodes.Keys == servers
    && forall v {:trigger StartsEmpty(cfg, servers, v, w.nodes[v])} :: v in servers ==> StartsEmpty(cfg, servers, v, w.nodes[v])
  }

  /** A run of the cluster: a first world, and a step between each two. */
  ghost predicate Run(cfg: Config, servers: set<Id>, ws: seq<World>) {
    && ws != [] && Init(cfg, servers, ws[0])
    && forall i :: 0 <= i < |ws| - 1 ==> Next(cfg, servers, ws[i], ws[i + 1])
  }

  ghost predicate ValidConfig(cfg: Config, servers: set<Id>) {
    cfg.maxInflight > 0 && NO_LEADER !in servers && servers != {}
  }
}
