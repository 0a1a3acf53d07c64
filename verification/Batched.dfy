/**
 The ready loop as it is: a node handles many inputs in memory, queueing messages, and only a ready turn
 persists, applies and then sends. A crash loses everything since the last turn, queue included.
 */
module Batched {
  import opened RaftTypes
  import opened LogSpec
  import opened FsmSpec
  import opened Cluster

  /** `given` is what the node's state machine has been given, as far as it has kept it. */
  datatype BNode = BNode(mem: Fsm, queue: set<Message>, hs: HardState, stored: seq<Entry>, given: seq<Entry>)

  datatype BWorld = BWorld(nodes: map<Id, BNode>, net: set<Message>)

  datatype BEvent = Work(e: Event) | Turn | Crash(peers: map<Id, Peer>, applied: nat)

  /** One more input in memory. */
  ghost function DoWork(cfg: Config, n: BNode, e: Event): BNode {
    var res := Handle(cfg, n.mem, e);
    n.(mem := res.r, queue := n.queue + res.out)
  }

  /** Persist, apply, advance; then the queue may be sent. */
  ghost function DoTurn(cfg: Config, n: BNode): BNode {
    var res := Ready(cfg, n.mem);
    BNode(res.r, {}, HardState(n.mem.term, n.mem.vote, n.mem.committed), n.mem.log, n.given + Handout(n.mem))
  }

  /** What a state machine that comes back at a position still has. */
  function Surviving(given: seq<Entry>, applied: nat): seq<Entry> {
    if given == [] then []
    else
      var n := |given| - 1;
      Surviving(given[..n], applied) + (if given[n].index <= applied then [given[n]] else [])
  }

  /**
   A crash and a restart from storage: the state machine comes back at some earlier position, and recovery
   hands it the rest. A crash in mid turn is a turn whose messages are lost, then this.
   */
  ghost function DoCrash(cfg: Config, n: BNode, v: Id, peers: map<Id, Peer>, applied: nat): BNode {
    BNode(Start(cfg, v, peers, n.hs, n.stored, applied), {}, n.hs, n.stored,
          Surviving(n.given, applied) + Handout(Loaded(v, peers, n.hs, n.stored, applied)))
  }

  ghost predicate BNextBy(cfg: Config, servers: set<Id>, b: BWorld, b': BWorld, v: Id, e: BEvent) {
    v in b.nodes && var n := b.nodes[v];
    match e
    case Work(ev) => InMemory(ev) && Allowed(servers, v, n.mem.committed, b.net, ev) && b' == b.(nodes := b.nodes[v := DoWork(cfg, n, ev)])
    case Turn => b' == BWorld(b.nodes[v := DoTurn(cfg, n)], b.net + (n.queue + Ready(cfg, n.mem).out))
    case Crash(peers, applied) =>
      peers.Keys == servers && applied <= n.hs.commit && b' == b.(nodes := b.nodes[v := DoCrash(cfg, n, v, peers, applied)])
  }

  ghost predicate BNext(cfg: Config, servers: set<Id>, b: BWorld, b': BWorld) {
    exists v, e :: BNextBy(cfg, servers, b, b', v, e)
  }

  ghost predicate BStarts(cfg: Config, servers: set<Id>, v: Id, n: BNode) {
    StartsEmpty(cfg, servers, v, n.mem) && n == BNode(n.mem, {}, HardState(0, NO_LEADER, 0), [], [])
  }

  ghost predicate BInit(cfg: Config, servers: set<Id>, b: BWorld) {
    && b.net == {} && b.nodes.Keys == servers
    && forall v {:trigger BStarts(cfg, servers, v, b.nodes[v])} :: v in servers ==> BStarts(cfg, servers, v, b.nodes[v])
  }

  ghost predicate BRun(cfg: Config, servers: set<Id>, bs: seq<BWorld>) {
    && bs != [] && BInit(cfg, servers, bs[0])
    && forall i :: 0 <= i < |bs| - 1 ==> BNext(cfg, servers, bs[i], bs[i + 1])
  }
}
