/** A cluster of one server, which commits without asking anybody. */
module OneServer {
  import opened RaftTypes
  import opened LogSpec
  import opened QuorumIndex
  import opened FsmSpec
  import opened FsmParts
  import opened Cluster
  import opened Batched
  import opened ApplyOnce
  import opened Witness
  import opened MemoryCommits
  import C = CoreRaft

  lemma OneQuorum(id: Id, i: nat)
    ensures var m := map[id := i]; m != map[] && Agreed(m) == i
  {
    var m := map[id := i];
    assert |m.Keys| == |m| == 1;
    AgreedBy(m, i, {id}, {});
  }

  lemma OneRaised(id: Id, log: seq<Entry>, c: nat)
    requires log != [] && log[|log| - 1].term == 1 && c < |log|
    ensures Raised(log, 1, c, map[id := |log|]) == |log|
  {
    OneQuorum(id, |log|);
    hide Agreed;
  }

  /** A server on its own votes for itself and leads at once, with or without the lease check. */
  lemma OneElected(cfg: Config, id: Id)
    ensures var peers := map[id := Peer(id, 0)];
      Leading(Handle(cfg, Fresh(id, peers, []), HupTick(false)).r, id, [FirstEntry()], 1, map[id := 1])
  {
    hide BecomeLeader, Leading;
    var peers := map[id := Peer(id, 0)];
    var r := Fresh(id, peers, []);
    assert r.replicas.Keys == {id} && |r.replicas.Keys| == |r.replicas| == 1;
    assert r.log[0..0] == [] && C.ConfsAbove([], 0) == 0;
    var c := Poll(BecomeCandidate(cfg, r), id, true);
    assert c.replicas.Keys == {id} && |c.replicas.Keys| == |c.replicas| && Granted(c.votes) == {id};
    assert Campaigning(c, id, {id}, {id}) && Campaigning(c.(acks := {id}), id, {id}, {id});
    assert Handle(cfg, r, HupTick(false)).r == BecomeLeader(cfg, if cfg.leaseCheck then c.(acks := {id}) else c);
    OneTakesOffice(cfg, c, id);
    OneTakesOffice(cfg, c.(acks := {id}), id);
  }

  lemma OneTakesOffice(cfg: Config, r: Fsm, id: Id)
    requires Campaigning(r, id, {id}, {id})
    ensures Leading(BecomeLeader(cfg, r), id, [FirstEntry()], 1, map[id := 1])
  {
    hide Leading, Campaigning, BecomeLeader, AppendEntry, Opened, InOffice, Raised, Matches;
    OfficeTaken(cfg, r, id, {id}, {id});
    OfficeLeads(cfg, r, id, {id}, {id});
    OfficeShape(cfg, InOffice(cfg, r), id, Zeros({id}));
    OfficeOpens(cfg, InOffice(cfg, r), id);
    Appends(cfg, InOffice(cfg, r), id, [], 0, Zeros({id}), FirstEntry());
    assert [] + [FirstEntry()] == [FirstEntry()] && Zeros({id})[id := 1] == map[id := 1];
    OneRaised(id, [FirstEntry()], 0);
  }

  lemma OneSubmits(cfg: Config, r: Fsm, id: Id, p: Payload)
    requires Leading(r, id, [FirstEntry()], 1, map[id := 1]) && p.Normal?
    ensures var a := Handle(cfg, r, Submit([p])).r; a.committed == 2 && a.log == [FirstEntry(), Entry(1, 2, p)]
  {
    hide Handle, Raised, Matches;
    var log := [FirstEntry(), Entry(1, 2, p)];
    assert [FirstEntry()] + [Entry(1, 2, p)] == log && map[id := 1][id := 2] == map[id := 2];
    Submits(cfg, r, id, [FirstEntry()], 1, map[id := 1], p);
    OneRaised(id, log, 1);
  }

  ghost function OneWorld(id: Id, r: Fsm, queue: set<Message>): BWorld {
    BWorld(map[id := BNode(r, queue, HardState(0, NO_LEADER, 0), [], [])], {})
  }

  /** A server on its own commits at once, and forgets it in a crash before the next turn. */
  lemma OneForgets(cfg: Config, id: Id, p: Payload, q: Payload) returns (bs: seq<BWorld>)
    requires ValidConfig(cfg, {id}) && p.Normal? && q.Normal? && p != q
    ensures BRun(cfg, {id}, bs) && |bs| == 6 && id in bs[2].nodes && id in bs[5].nodes
    ensures !SameCommits(bs[2].nodes[id].mem, bs[5].nodes[id].mem)
  {
    hide Handle, Start, Fresh, Leading, StartsEmpty, Surviving, Loaded, Handout;
    var peers := map[id := Peer(id, 0)];
    var r := Fresh(id, peers, []);
    var a := Handle(cfg, r, HupTick(false));
    var x, y := Handle(cfg, a.r, Submit([p])), Handle(cfg, a.r, Submit([q]));
    OneElected(cfg, id);
    OneSubmits(cfg, a.r, id, p);
    OneSubmits(cfg, a.r, id, q);
    assert x.r.log[..2][1] != y.r.log[..2][1];
    var b0, b1 := OneWorld(id, r, {}), OneWorld(id, a.r, a.out);
    var b2, b5 := OneWorld(id, x.r, a.out + x.out), OneWorld(id, y.r, a.out + y.out);
    bs := [b0, b1, b2, b0, b1, b5];
    OneStarts(cfg, id);
    OneWorks(cfg, id, r, {}, HupTick(false));
    OneWorks(cfg, id, a.r, a.out, Submit([p]));
    OneWorks(cfg, id, a.r, a.out, Submit([q]));
    OneCrashes(cfg, id, x.r, a.out + x.out);
    hide BNext, BInit;
    assert {} + a.out == a.out;
    assert forall i :: 0 <= i < 5 ==> BNext(cfg, {id}, bs[i], bs[i + 1]);
  }

  lemma OneStarts(cfg: Config, id: Id)
    ensures BInit(cfg, {id}, OneWorld(id, Fresh(id, map[id := Peer(id, 0)], []), {}))
  {
    hide Start, Fresh;
    var peers := map[id := Peer(id, 0)];
    StartFresh(cfg, id, peers);
    assert peers.Keys == {id};
    assert StartsEmpty(cfg, {id}, id, Fresh(id, peers, []));
  }

  lemma OneWorks(cfg: Config, id: Id, r: Fsm, queue: set<Message>, e: Event)
    requires e == HupTick(false) || (e.Submit? && |e.payloads| == 1 && e.payloads[0].Normal?)
    ensures var a := Handle(cfg, r, e); BNext(cfg, {id}, OneWorld(id, r, queue), OneWorld(id, a.r, queue + a.out))
  {
    hide Handle;
    var a, b := Handle(cfg, r, e), OneWorld(id, r, queue);
    var b' := OneWorld(id, a.r, queue + a.out);
    assert b' == b.(nodes := b.nodes[id := DoWork(cfg, b.nodes[id], e)]);
    assert BNextBy(cfg, {id}, b, b', id, Work(e));
  }

  lemma OneCrashes(cfg: Config, id: Id, r: Fsm, queue: set<Message>)
    ensures BNext(cfg, {id}, OneWorld(id, r, queue), OneWorld(id, Fresh(id, map[id := Peer(id, 0)], []), {}))
  {
    var peers := map[id := Peer(id, 0)];
    var b, b' := OneWorld(id, r, queue), OneWorld(id, Fresh(id, peers, []), {});
    StartFresh(cfg, id, peers);
    assert Handout(Loaded(id, peers, HardState(0, NO_LEADER, 0), [], 0)) == [] && Surviving([], 0) == [];
    hide Start, Handout, Loaded, Surviving, Fresh;
    var none: seq<Entry> := [];
    assert none + none == none;
    assert DoCrash(cfg, b.nodes[id], id, peers, 0) == b'.nodes[id];
    assert peers.Keys == {id};
    assert b' == b.(nodes := b.nodes[id := DoCrash(cfg, b.nodes[id], id, peers, 0)]);
    assert BNextBy(cfg, {id}, b, b', id, Crash(peers, 0));
  }

  ghost predicate AlwaysAgree(bs: seq<BWorld>) {
    forall i, j, a, b :: 0 <= i <= j < |bs| && a in bs[i].nodes && b in bs[j].nodes ==>
      SameCommits(bs[i].nodes[a].mem, bs[j].nodes[b].mem)
  }

  /** Commits in memory agree over all times of all runs exactly when there is more than one server. */
  lemma MemoryCommitsExactly(cfg: Config, servers: set<Id>)
    requires ValidConfig(cfg, servers)
    ensures (forall bs: seq<BWorld> :: BRun(cfg, servers, bs) ==> AlwaysAgree(bs)) <==> |servers| >= 2
  {
    hide BRun, SameCommits;
    if |servers| >= 2 {
      forall bs: seq<BWorld> | BRun(cfg, servers, bs) ensures AlwaysAgree(bs) {
        forall i, j, a, b | 0 <= i <= j < |bs| && a in bs[i].nodes && b in bs[j].nodes
          ensures SameCommits(bs[i].nodes[a].mem, bs[j].nodes[b].mem)
        {
          MemoryCommitsAgree(cfg, servers, bs, i, j, a, b);
        }
      }
    } else {
      var id :| id in servers;
      assert servers == {id} by { CardSubset({id}, servers); OnlyOne(servers, id); }
      var bs := OneForgets(cfg, id, Normal([1]), Normal([2]));
      assert !AlwaysAgree(bs);
    }
  }

  lemma OnlyOne(servers: set<Id>, id: Id)
    requires id in servers && |servers| < 2
    ensures servers == {id}
  {
    if k :| k in servers && k != id {
      CardSubset({id, k}, servers);
      assert false;
    }
  }
}
