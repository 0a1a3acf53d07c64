/** Three servers elect a leader and commit its first entry by majority, message by message. */
module ThreeServers {
  import opened RaftTypes
  import opened LogSpec
  import opened ProgressSpec
  import opened QuorumIndex
  import opened FsmSpec
  import opened FsmParts
  import opened Cluster
  import opened BatchedSafety
  import opened ApplyOnce
  import opened Witness

  function Peers(): map<Id, Peer> { map[1 := Peer(1, 0), 2 := Peer(2, 0), 3 := Peer(3, 0)] }

  const SERVERS: set<Id> := {1, 2, 3}

  lemma ThreePeers()
    ensures Peers().Keys == SERVERS && |Peers()| == 3 && |SERVERS| == 3
  {
    assert |Peers()| == |Peers().Keys|;
  }

  // ---- the follower ----

  /** A follower of term 1 with an empty log. */
  ghost predicate Following(r: Fsm, id: Id) {
    && r.id == id && r.state == StateFollower && r.term == 1 && r.log == [] && r.committed == 0 && 1 in r.replicas && !r.fault
  }

  function RequestVote(): Message { Message(1, 2, 1, ReqVote(false, 0, 0)) }

  function RequestAppend(): Message { Message(1, 2, 1, ReqAppend(0, 0, 0, [FirstEntry()])) }

  lemma FollowerGrants(cfg: Config)
    ensures var a := Handle(cfg, Fresh(2, Peers(), []), Recv(RequestVote())); Following(a.r, 2) && VoteFrom(2, 1) in a.out
  {
    var r := Fresh(2, Peers(), []);
    var r1 := BecomeFollower(cfg, r, 1, NO_LEADER);
    assert r1.replicas.Keys == Peers().Keys;
    assert Grants(cfg, r1, 1, 0, 0);
    assert Handle(cfg, r, Recv(RequestVote())) == FollowerVote(cfg, r1, 1, 0, 0);
  }

  lemma FollowerAppends(cfg: Config, r: Fsm)
    requires Following(r, 2)
    ensures AckFrom(2, 1, 1) in Handle(cfg, r, Recv(RequestAppend())).out
  {
    var r1, e := r.(leader := 1), FirstEntry();
    assert FindConflict(0, 0, [], [e]) == 1;
    assert AppendEnts(0, [], [e]) == [e];
    assert HandleAppend(cfg, r1, 1, 0, 0, 0, [e]).out == {AckFrom(2, 1, 1)} by { assert [e][0..] == [e]; }
    hide HandleAppend;
    assert Handle(cfg, r, Recv(RequestAppend())) == HandleAppend(cfg, r1, 1, 0, 0, 0, [e]);
  }

  // ---- the leader's first request ----

  lemma CommitOthers(r: Fsm, k: Id)
    requires k in r.replicas && k != r.id
    ensures k in MaybeCommit(r).replicas && MaybeCommit(r).replicas[k] == r.replicas[k]
  {
    hide Commits, Matches, Agreed;
  }

  lemma AppendOthers(cfg: Config, r: Fsm, e: Entry, k: Id)
    requires k in r.replicas && k != r.id
    ensures k in AppendEntry(cfg, r, [e]).replicas && AppendEntry(cfg, r, [e]).replicas[k] == r.replicas[k]
  {
    hide MaybeCommit, AppendEnts;
    if r.id in r.replicas && r.committed < e.index <= |r.log| + 1 {
      var r1 := r.(log := AppendEnts(0, r.log, [e]));
      CommitOthers(r1.(replicas := r1.replicas[r.id := r1.replicas[r.id].MaybeUpdate(|r1.log|, r1.committed)]), k);
    }
  }

  /** A new leader's view of another member. */
  lemma OfficeOthers(cfg: Config, r: Fsm, id: Id, members: set<Id>, g: set<Id>, k: Id)
    requires Campaigning(r, id, members, g) && k in members && k != id
    ensures var a := BecomeLeader(cfg, r); k in a.replicas && a.replicas[k].next == 1 && !a.replicas[k].IsPaused()
  {
    OfficeLeads(cfg, r, id, members, g);
    LeaderOpens(cfg, r);
    var r1 := InOffice(cfg, r);
    assert k in r1.replicas && r1.replicas[k].next == 1 && !r1.replicas[k].IsPaused();
    assert BecomeLeader(cfg, r) == Opened(cfg, r1) by { hide BecomeLeader, Opened, Reset; }
    hide BecomeLeader, AppendEntry, Opened, InOffice;
    OfficeOpens(cfg, r1, id);
    AppendOthers(cfg, r1, FirstEntry(), k);
  }

  lemma FirstRequest(cfg: Config, r: Fsm, m: map<Id, nat>)
    requires Leading(r, 1, [FirstEntry()], 0, m) && 2 in r.replicas && r.replicas[2].next == 1 && !r.replicas[2].IsPaused()
    ensures RequestAppend() in BcastAppend(cfg, r).out
  {
    var e := FirstEntry();
    assert Batch(cfg, [e], 1) == [e] by { assert [e][0..] == [e]; }
    hide Batch;
    assert AppendBody(cfg, r, r.replicas[2]) == ReqAppend(0, 0, 0, [e]);
    assert Msg(r, 2, AppendBody(cfg, r, r.replicas[2])) in BcastAppend(cfg, r).out;
  }

  function MatchesOf(a: nat, b: nat): map<Id, nat> { map[1 := a, 2 := b, 3 := 0] }

  /** The second vote of three makes the leader, which sends its first entry. */
  lemma SecondVote(cfg: Config, r: Fsm)
    requires !cfg.leaseCheck && Campaigning(r, 1, SERVERS, {1})
    ensures var a := Handle(cfg, r, Recv(VoteFrom(2, 1))); Leading(a.r, 1, [FirstEntry()], 0, MatchesOf(1, 0)) && RequestAppend() in a.out
  {
    hide Handle, Campaigning, Leading, BecomeLeader, BcastAppend, Poll;
    ThreePeers();
    Voted(cfg, r, 1, SERVERS, {1}, 2);
    var p := Poll(r, 2, true);
    assert {1} + {2} == {1, 2};
    TakesOffice(cfg, p, 1, SERVERS, {1, 2});
    OfficeOthers(cfg, p, 1, SERVERS, {1, 2}, 2);
    assert Zeros(SERVERS)[1 := 1] == MatchesOf(1, 0);
    FirstRequest(cfg, BecomeLeader(cfg, p), MatchesOf(1, 0));
    Broadcasts(cfg, BecomeLeader(cfg, p), 1, [FirstEntry()], 0, MatchesOf(1, 0));
  }

  /** Two of three have the entry: it is committed. */
  lemma MajorityCommits(cfg: Config, r: Fsm)
    requires Leading(r, 1, [FirstEntry()], 0, MatchesOf(1, 0))
    ensures Leading(Handle(cfg, r, Recv(AckFrom(2, 1, 1))).r, 1, [FirstEntry()], 1, MatchesOf(1, 1))
  {
    hide Handle, Leading;
    var m := MatchesOf(1, 1);
    assert MatchesOf(1, 0)[2 := 1] == m && m.Keys == SERVERS && |m| == |m.Keys| == 3;
    Acknowledges(cfg, r, 1, [FirstEntry()], 0, MatchesOf(1, 0), 2, 1);
    AgreedBy(m, 1, {1, 2}, {});
    hide Agreed;
  }

  function First(): World { World(map[1 := Fresh(1, Peers(), []), 2 := Fresh(2, Peers(), []), 3 := Fresh(3, Peers(), [])], {}) }

  lemma FirstStarts(cfg: Config, v: Id)
    ensures StartsEmpty(cfg, SERVERS, v, Fresh(v, Peers(), []))
  {
    hide Start, Fresh;
    ThreePeers();
    StartFresh(cfg, v, Peers());
  }

  lemma FirstRuns(cfg: Config)
    ensures Run(cfg, SERVERS, [First()])
  {
    hide StartsEmpty, Fresh, Next;
    assert First().nodes.Keys == SERVERS;
    forall v | v in SERVERS ensures StartsEmpty(cfg, SERVERS, v, First().nodes[v]) { FirstStarts(cfg, v); }
  }

  /** The election. */
  lemma ElectionReachable(cfg: Config) returns (ws: seq<World>)
    requires !cfg.leaseCheck
    ensures Run(cfg, SERVERS, ws) && ws != [] && ws[|ws| - 1].nodes.Keys == SERVERS
    ensures var w := ws[|ws| - 1];
      && Leading(w.nodes[1], 1, [FirstEntry()], 0, MatchesOf(1, 0)) && Following(w.nodes[2], 2)
      && {RequestVote(), VoteFrom(2, 1), RequestAppend()} <= w.net
  {
    hide Handle, Run, Leading, Campaigning, Following, Fresh, MatchesOf, Peers;
    ThreePeers();
    FirstRuns(cfg);
    Campaigns(cfg, 1, Peers());
    var ws1 := RunMore(cfg, SERVERS, [First()], 1, HupTick(false));
    assert RequestVote() in ws1[|ws1| - 1].net;
    FollowerGrants(cfg);
    var ws2 := RunMore(cfg, SERVERS, ws1, 2, Recv(RequestVote()));
    SecondVote(cfg, ws2[|ws2| - 1].nodes[1]);
    ws := RunMore(cfg, SERVERS, ws2, 1, Recv(VoteFrom(2, 1)));
  }

  /** A run of three servers with an election and a commit by majority. */
  lemma MajorityReachable(cfg: Config) returns (ws: seq<World>)
    requires !cfg.leaseCheck
    ensures Run(cfg, SERVERS, ws) && ws != [] && ws[|ws| - 1].nodes.Keys == SERVERS
    ensures var w := ws[|ws| - 1];
      && Leading(w.nodes[1], 1, [FirstEntry()], 1, MatchesOf(1, 1))
      && {RequestVote(), VoteFrom(2, 1), RequestAppend(), AckFrom(2, 1, 1)} <= w.net
  {
    hide Handle, Run, Leading, Following, MatchesOf;
    var ws1 := ElectionReachable(cfg);
    FollowerAppends(cfg, ws1[|ws1| - 1].nodes[2]);
    var ws2 := RunMore(cfg, SERVERS, ws1, 2, Recv(RequestAppend()));
    MajorityCommits(cfg, ws2[|ws2| - 1].nodes[1]);
    ws := RunMore(cfg, SERVERS, ws2, 1, Recv(AckFrom(2, 1, 1)));
  }
}
