/** A leader of four, elected and driven by the answers of its followers, passes over an entry when it applies a removal. */
module RemovalRun {
  import opened RaftTypes
  import opened LogSpec
  import opened ProgressSpec
  import opened QuorumIndex
  import opened FsmSpec
  import opened FsmParts
  import opened Cluster
  import opened ApplyOnce
  import opened Witness

  // ---- runs of one node ----

  /** The state after a sequence of inputs. */
  ghost function Last(cfg: Config, r: Fsm, es: seq<Event>): Fsm {
    if es == [] then r else Handle(cfg, Last(cfg, r, es[..|es| - 1]), es[|es| - 1]).r
  }

  ghost function Trace(cfg: Config, r: Fsm, es: seq<Event>): seq<Fsm> {
    seq(|es| + 1, i requires 0 <= i <= |es| => Last(cfg, r, es[..i]))
  }

  lemma TraceRuns(cfg: Config, r: Fsm, es: seq<Event>)
    requires InRange(r) && forall i :: 0 <= i < |es| ==> !es[i].Restart?
    ensures NodeRun(cfg, Trace(cfg, r, es), es) && Trace(cfg, r, es)[0] == r && Trace(cfg, r, es)[|es|] == Last(cfg, r, es)
  {
    hide Handle;
    var rs := Trace(cfg, r, es);
    forall i | 0 <= i < |es| ensures rs[i + 1] == Handle(cfg, rs[i], es[i]).r {
      assert es[..i + 1][..i] == es[..i] && es[..i + 1][i] == es[i];
    }
    assert es[..0] == [] && es[..|es|] == es;
  }

  lemma LastSnoc(cfg: Config, r: Fsm, es: seq<Event>, e: Event)
    ensures Last(cfg, r, es + [e]) == Handle(cfg, Last(cfg, r, es), e).r
  {
    hide Handle;
    assert (es + [e])[..|es + [e]| - 1] == es;
  }

  // ---- four members ----

  function Four(a: nat, b: nat, c: nat, d: nat): map<Id, nat> { map[1 := a, 2 := b, 3 := c, 4 := d] }

  /** The commit index of four members that have reached m, three of them index i and at most two more than i. */
  lemma FourRaised(log: seq<Entry>, c: nat, m: map<Id, nat>, i: nat, up: set<Id>, above: set<Id>)
    requires c <= |log| && m.Keys == {1, 2, 3, 4} && |up| >= 3 && |above| <= 2
    requires (forall k :: k in up ==> k in m && m[k] >= i) && (forall k :: k in m && m[k] > i ==> k in above)
    ensures Raised(log, 1, c, m) == if c < i <= |log| && log[i - 1].term == 1 then i else c
  {
    assert |m| == |m.Keys| == 4;
    AgreedBy(m, i, up, above);
    hide Agreed;
  }

  function Peers(): map<Id, Peer> { map[1 := Peer(1, 0), 2 := Peer(2, 0), 3 := Peer(3, 0), 4 := Peer(4, 0)] }

  const REMOVAL: Payload := Conf(RemoveNode, Peer(4, 0), [])
  const DATA: Payload := Normal([7])

  function FourLog(): seq<Entry> { [FirstEntry(), Entry(1, 2, REMOVAL), Entry(1, 3, DATA)] }

  /** The vote requests go out with the first turn, and the new leader's first entry with the second. */
  function Election(): seq<Event> { [HupTick(false), ReadyTurn, Recv(VoteFrom(2, 1)), Recv(VoteFrom(3, 1)), ReadyTurn] }

  lemma LastOfTwo(cfg: Config, r: Fsm, a: Event, b: Event)
    ensures Last(cfg, r, [a, b]) == Handle(cfg, Handle(cfg, r, a).r, b).r
  {
    hide Handle;
    LastSnoc(cfg, r, [], a);
    LastSnoc(cfg, r, [a], b);
    assert [] + [a] == [a] && [a] + [b] == [a, b];
  }

  lemma LastOfFive(cfg: Config, r: Fsm, a: Event, b: Event, c: Event, d: Event, e: Event)
    ensures Last(cfg, r, [a, b, c, d, e]) ==
      Handle(cfg, Handle(cfg, Handle(cfg, Handle(cfg, Handle(cfg, r, a).r, b).r, c).r, d).r, e).r
  {
    hide Handle;
    LastOfTwo(cfg, r, a, b);
    LastSnoc(cfg, r, [a, b], c);
    LastSnoc(cfg, r, [a, b, c], d);
    LastSnoc(cfg, r, [a, b, c, d], e);
    assert [a, b] + [c] == [a, b, c] && [a, b, c] + [d] == [a, b, c, d] && [a, b, c, d] + [e] == [a, b, c, d, e];
  }

  /** Two followers' votes make the first node leader. */
  lemma Elected(cfg: Config)
    requires !cfg.leaseCheck
    ensures var a := Last(cfg, Fresh(1, Peers(), []), Election()); Leading(a, 1, [FirstEntry()], 0, Four(1, 0, 0, 0)) && !a.pendingConf
  {
    hide Handle, Campaigning, Leading, Fresh, BecomeLeader, BcastAppend, Last, Four, Zeros, Peers, Poll;
    var r0 := Fresh(1, Peers(), []);
    LastOfFive(cfg, r0, HupTick(false), ReadyTurn, Recv(VoteFrom(2, 1)), Recv(VoteFrom(3, 1)), ReadyTurn);
    FourPeers();
    Campaigns(cfg, 1, Peers());
    var r1 := Handle(cfg, r0, HupTick(false)).r;
    CampaignTurn(cfg, r1);
    TwoVotes(cfg, r1);
    var r2 := Handle(cfg, Handle(cfg, r1, Recv(VoteFrom(2, 1))).r, Recv(VoteFrom(3, 1))).r;
    LeaderTurn(cfg, r2, [FirstEntry()], Four(1, 0, 0, 0));
  }

  lemma CampaignTurn(cfg: Config, r: Fsm)
    requires Campaigning(r, 1, {1, 2, 3, 4}, {1})
    ensures Handle(cfg, r, ReadyTurn).r == r
  {
    IdleTurn(cfg, r);
  }

  lemma LeaderTurn(cfg: Config, r: Fsm, log: seq<Entry>, m: map<Id, nat>)
    requires Leading(r, 1, log, 0, m)
    ensures Handle(cfg, r, ReadyTurn).r == r
  {
    IdleTurn(cfg, r);
  }

  lemma FourPeers()
    ensures Peers().Keys == {1, 2, 3, 4} && |Peers()| == 4 && Zeros({1, 2, 3, 4})[1 := 1] == Four(1, 0, 0, 0)
  {
    assert |Peers()| == |Peers().Keys|;
  }

  lemma TwoVotes(cfg: Config, r: Fsm)
    requires !cfg.leaseCheck && Campaigning(r, 1, {1, 2, 3, 4}, {1})
    ensures var a := Handle(cfg, Handle(cfg, r, Recv(VoteFrom(2, 1))).r, Recv(VoteFrom(3, 1))).r;
      Leading(a, 1, [FirstEntry()], 0, Four(1, 0, 0, 0)) && !a.pendingConf
  {
    hide Handle, Campaigning, Leading, BecomeLeader, BcastAppend, Four, Zeros, Peers, Poll;
    var all := {1, 2, 3, 4};
    Voted(cfg, r, 1, all, {1}, 2);
    assert {1} + {2} == {1, 2} && {1, 2} + {3} == {1, 2, 3};
    var r2 := Poll(r, 2, true);
    Voted(cfg, r2, 1, all, {1, 2}, 3);
    var r3 := Poll(r2, 3, true);
    TakesOffice(cfg, r3, 1, all, {1, 2, 3});
    FourPeers();
    Broadcasts(cfg, BecomeLeader(cfg, r3), 1, [FirstEntry()], 0, Four(1, 0, 0, 0));
  }

  /** A removal and some data are proposed. The second member's first request was lost; it is sent all of the log again. */
  function Proposals(): seq<Event> { [Submit([REMOVAL]), Recv(AckFrom(3, 1, 1)), ResumeTick, Submit([DATA]), ReadyTurn] }

  /** One follower acknowledges everything, another all but the data. */
  function Acknowledgements(): seq<Event> { [Recv(AckFrom(2, 1, 3)), Recv(AckFrom(3, 1, 2))] }

  lemma Proposed(cfg: Config, r: Fsm)
    requires Leading(r, 1, [FirstEntry()], 0, Four(1, 0, 0, 0)) && !r.pendingConf
    ensures var r1 := Handle(cfg, r, Submit([REMOVAL])).r; var r2 := Handle(cfg, r1, Recv(AckFrom(3, 1, 1))).r;
      var r3 := Handle(cfg, r2, ResumeTick).r; var r4 := Handle(cfg, r3, Submit([DATA])).r;
      Leading(Handle(cfg, r4, ReadyTurn).r, 1, FourLog(), 0, Four(3, 0, 1, 0))
  {
    hide Handle, Leading, Raised, Four;
    var l1, l2 := [FirstEntry()], [FirstEntry(), Entry(1, 2, REMOVAL)];
    assert l1 + [Entry(1, 2, REMOVAL)] == l2 && l2 + [Entry(1, 3, DATA)] == FourLog();
    FourAt(1, 0, 0, 0);
    Submits(cfg, r, 1, l1, 0, Four(1, 0, 0, 0), REMOVAL);
    FourNone(l2, 2, 0);
    var r1 := Handle(cfg, r, Submit([REMOVAL])).r;
    FourAt(2, 0, 0, 0);
    Acknowledges(cfg, r1, 1, l2, 0, Four(2, 0, 0, 0), 3, 1);
    FourNone(l2, 2, 1);
    var r2 := Handle(cfg, r1, Recv(AckFrom(3, 1, 1))).r;
    Resumes(cfg, r2, 1, l2, 0, Four(2, 0, 1, 0));
    var r3 := Handle(cfg, r2, ResumeTick).r;
    FourAt(2, 0, 1, 0);
    Submits(cfg, r3, 1, l2, 0, Four(2, 0, 1, 0), DATA);
    FourNone(FourLog(), 3, 1);
    LeaderTurn(cfg, Handle(cfg, r3, Submit([DATA])).r, FourLog(), Four(3, 0, 1, 0));
  }

  /** Entries and updates of the four match indexes. */
  lemma FourAt(a: nat, b: nat, c: nat, d: nat)
    ensures var m := Four(a, b, c, d);
      && m.Keys == {1, 2, 3, 4} && m[1] == a && m[2] == b && m[3] == c && m[4] == d
      && forall x: nat :: m[1 := x] == Four(x, b, c, d) && m[2 := x] == Four(a, x, c, d) && m[3 := x] == Four(a, b, x, d)
  {}

  /** Two of four do not commit. */
  lemma FourNone(log: seq<Entry>, a: nat, c: nat)
    ensures Raised(log, 1, 0, Four(a, 0, c, 0)) == 0
  {
    FourRaised(log, 0, Four(a, 0, c, 0), 0, {1, 2, 3}, {1, 3});
  }

  lemma Committed(cfg: Config, r: Fsm)
    requires Leading(r, 1, FourLog(), 0, Four(3, 0, 1, 0))
    ensures var r1 := Handle(cfg, r, Recv(AckFrom(2, 1, 3))).r;
      Leading(Handle(cfg, r1, Recv(AckFrom(3, 1, 2))).r, 1, FourLog(), 2, Four(3, 3, 2, 0))
  {
    hide Handle, Leading, Raised, Four;
    var l := FourLog();
    FourAt(3, 0, 1, 0);
    Acknowledges(cfg, r, 1, l, 0, Four(3, 0, 1, 0), 2, 3);
    FourAt(3, 3, 1, 0);
    FourRaised(l, 0, Four(3, 3, 1, 0), 1, {1, 2, 3}, {1, 2});
    var r1 := Handle(cfg, r, Recv(AckFrom(2, 1, 3))).r;
    Acknowledges(cfg, r1, 1, l, 1, Four(3, 3, 1, 0), 3, 2);
    FourAt(3, 3, 2, 0);
    FourRaised(l, 1, Four(3, 3, 2, 0), 2, {1, 2, 3}, {1, 2});
  }

  /** The match indexes of the remaining three. */
  lemma ThreeLeft(e1: Entry, e2: Entry)
    requires e1.payload == Normal([]) && e2.payload == REMOVAL
    ensures MatchesAfter(Four(3, 3, 2, 0), [e1, e2]) == map[1 := 3, 2 := 3, 3 := 2]
  {
    var m := Four(3, 3, 2, 0);
    assert [e1, e2][..1] == [e1] && [e1][..0] == [];
    assert MatchesAfter(m, []) == m;
    assert MatchesAfter(m, [e1]) == m;
    assert m - {4} == map[1 := 3, 2 := 3, 3 := 2];
  }

  lemma CommitsBeyond(r: Fsm, e1: Entry, e2: Entry)
    requires r.id == 1 && r.state == StateLeader && r.term == 1 && r.log == FourLog() && r.committed == 2
    requires Matches(r.replicas) == Four(3, 3, 2, 0) && e1.payload == Normal([]) && e2.payload == REMOVAL
    ensures CommitAfter(r, [e1, e2]) == 3
  {
    hide Matches, MatchesAfter, Agreed;
    ThreeLeft(e1, e2);
    ThreeAgree(map[1 := 3, 2 := 3, 3 := 2]);
    assert [e1, e2][..1] == [e1] && [e1][..0] == [];
    assert CommitAfter(r, []) == 2;
    assert CommitAfter(r, [e1]) == 2;
    assert Stays([e1], 1) && Removes(e2, 1);
  }

  /** Applying the removal lets the remaining three agree on the data, which is not in the batch. */
  lemma Overtakes(r: Fsm)
    requires Leading(r, 1, FourLog(), 2, Four(3, 3, 2, 0))
    ensures InRange(r) && Handed(Due(r)) == [Entry(1, 2, REMOVAL)] && CommitAfter(r, Due(r)) == 3 && Handed(Skipped(r)) == [Entry(1, 3, DATA)]
  {
    hide Matches, CommitAfter, Handed, Four;
    var e1, e2, e3 := FirstEntry(), Entry(1, 2, REMOVAL), Entry(1, 3, DATA);
    assert Due(r) == [e1, e2] && r.log[2..3] == [e3];
    TwoHanded(e1, e2);
    OneHanded(e3);
    CommitsBeyond(r, e1, e2);
  }

  lemma OneHanded(e: Entry)
    requires e.payload != Normal([])
    ensures Handed([e]) == [e]
  {
    assert [e][..0] == [];
  }

  lemma TwoHanded(a: Entry, b: Entry)
    requires a.payload == Normal([]) && b.payload != Normal([])
    ensures Handed([a, b]) == [b]
  {
    assert [a, b][..1] == [a] && [a][..0] == [] && Handed([]) == [];
    assert Handed([a]) == [];
  }

  lemma ThreeAgree(m: map<Id, nat>)
    requires m == map[1 := 3, 2 := 3, 3 := 2]
    ensures m != map[] && Agreed(m) == 3
  {
    assert m.Keys == {1, 2, 3} && |m| == |m.Keys|;
    AgreedBy(m, 3, {1, 2}, {});
  }

  lemma LastJoin(cfg: Config, r: Fsm, a: seq<Event>, b: seq<Event>)
    ensures Last(cfg, r, a + b) == Last(cfg, Last(cfg, r, a), b)
  {
    hide Handle;
    if b == [] {
      assert a + b == a;
    } else {
      var n := |b| - 1;
      assert (a + b)[..|a + b| - 1] == a + b[..n];
      LastJoin(cfg, r, a, b[..n]);
    }
  }

  function Prelude(): seq<Event> { Election() + (Proposals() + Acknowledgements()) }

  function Inputs(): seq<Event> { Prelude() + [ReadyTurn] }

  /** The leader just before the ready turn. */
  lemma BeforeTurn(cfg: Config)
    requires !cfg.leaseCheck
    ensures Leading(Last(cfg, Fresh(1, Peers(), []), Prelude()), 1, FourLog(), 2, Four(3, 3, 2, 0))
  {
    hide Handle, Leading, Last, Fresh, Four, Peers, FourLog;
    var r := Fresh(1, Peers(), []);
    Elected(cfg);
    var r1 := Last(cfg, r, Election());
    LastJoin(cfg, r, Election(), Proposals() + Acknowledgements());
    LastJoin(cfg, r1, Proposals(), Acknowledgements());
    LastOfFive(cfg, r1, Submit([REMOVAL]), Recv(AckFrom(3, 1, 1)), ResumeTick, Submit([DATA]), ReadyTurn);
    Proposed(cfg, r1);
    var r2 := Last(cfg, r1, Proposals());
    LastOfTwo(cfg, r2, Recv(AckFrom(2, 1, 3)), Recv(AckFrom(3, 1, 2)));
    Committed(cfg, r2);
  }

  /** As long as nothing counts as applied, nothing has been handed over. */
  lemma NothingGiven(cfg: Config, rs: seq<Fsm>, es: seq<Event>, n: nat)
    requires NodeRun(cfg, rs, es) && n <= |es| && rs[n].applied == 0
    ensures Given(rs, es, n) == []
  {
    hide Handle;
    RunBalanced(cfg, rs, es, n);
    assert Span(rs, n) == [] && Handed([]) == [];
  }

  lemma AllHanded()
    ensures Handed(FourLog()[..3]) == [Entry(1, 2, REMOVAL), Entry(1, 3, DATA)]
  {
    var e1, e2, e3 := FirstEntry(), Entry(1, 2, REMOVAL), Entry(1, 3, DATA);
    TwoHanded(e1, e2);
    OneHanded(e3);
    HandedJoin([e1, e2], [e3]);
    assert FourLog()[..3] == [e1, e2] + [e3];
  }

  /**
   From its start, through an election, two proposals and the acknowledgements, with a ready turn before each answer
   to what it sends, a node comes to a ready turn after which an entry counts as applied that the state machine was
   never given.
   */
  lemma RemovalPassesOver() returns (cfg: Config, rs: seq<Fsm>)
    ensures NodeRun(cfg, rs, Inputs()) && rs[0] == Start(cfg, 1, Peers(), HardState(0, NO_LEADER, 0), [], 0)
    ensures var n := |Inputs()|;
      && !rs[n - 1].fault && rs[n].log == FourLog() && rs[n].applied == 3
      && Given(rs, Inputs(), n) == [Entry(1, 2, REMOVAL)]
      && Handed(rs[n].log[..rs[n].applied]) == [Entry(1, 2, REMOVAL), Entry(1, 3, DATA)]
  {
    hide Handle, Last, Fresh, Start, Four, Peers, Ready, CommitAfter, Handed;
    cfg := Config(false, 8, 1024);
    StartFresh(cfg, 1, Peers());
    BeforeTurn(cfg);
    FreshInRange();
    var r, es, n := Fresh(1, Peers(), []), Inputs(), |Prelude()|;
    rs := Trace(cfg, r, es);
    TraceRuns(cfg, r, es);
    assert es[..n] == Prelude() && es[n] == ReadyTurn;
    Overtakes(rs[n]);
    TurnIsReady(cfg, rs[n], es[n]);
    TurnExact(cfg, rs[n]);
    assert rs[n + 1] == Ready(cfg, rs[n]).r;
    NothingGiven(cfg, rs, es, n);
    AllHanded();
  }

  lemma FreshInRange()
    ensures InRange(Fresh(1, Peers(), []))
  {}
}
