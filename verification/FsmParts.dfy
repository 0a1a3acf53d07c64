/** Steps of the state machine part by part, as the loops and methods of the object take them. */
module FsmParts {
  import opened RaftTypes
  import opened LogSpec
  import opened ProgressSpec
  import opened FsmSpec
  import CoreRaft

  /** The messages queued since the queue was `before`. */
  function Added(before: seq<Message>, after: seq<Message>): set<Message>
    requires before <= after
  {
    set m | m in after[|before|..]
  }

  lemma AddedOne(before: seq<Message>, mid: seq<Message>, m: Message)
    requires before <= mid
    ensures before <= mid + [m] && Added(before, mid + [m]) == Added(before, mid) + {m}
  {
    assert (mid + [m])[|before|..] == mid[|before|..] + [m];
  }

  lemma AddedNone(before: seq<Message>)
    ensures Added(before, before) == {}
  {}

  lemma AddedSome(before: seq<Message>, after: seq<Message>)
    requires before <= after
    ensures Added(before, after) == {} <==> after == before
  {
    if |before| < |after| {
      assert after[|before|..][0] in Added(before, after);
    }
  }

  lemma AddedMore(before: seq<Message>, mid: seq<Message>, after: seq<Message>)
    requires before <= mid <= after
    ensures before <= after && Added(before, after) == Added(before, mid) + Added(mid, after)
  {
    assert after[|before|..] == mid[|before|..] + after[|mid|..];
  }

  /** What `reset` makes of one replica. */
  function Renewed(cfg: Config, self: bool, committed: nat, p: Progress, lasti: nat, isLeader: bool): Progress {
    if isLeader then
      var q := NewProgress(p.peer, cfg.maxInflight).(next := lasti + 1);
      if self then q.(matched := lasti, committed := committed) else q
    else NewProgress(p.peer, 0)
  }

  /** What the heartbeat tick makes of one replica. */
  function Unpaused(self: bool, p: Progress): Progress { if self || p.state == Snapshot then p else p.(paused := false) }

  /** `numOfPendingConf`. */
  method NumOfPendingConf(ents: seq<Entry>) returns (n: nat)
    ensures n == CoreRaft.ConfsAbove(ents, 0)
  {
    n := 0;
    for i := 0 to |ents|
      invariant n == CoreRaft.ConfsAbove(ents[..i], 0)
    {
      assert ents[..i + 1][..i] == ents[..i];
      if ents[i].payload.Conf? {
        n := n + 1;
      }
    }
    assert ents[..|ents|] == ents;
  }

  /** A new leader's state once it has opened its term. */
  ghost function Opened(cfg: Config, r: Fsm): Fsm
    requires r.committed <= |r.log|
  {
    var nconf := CoreRaft.ConfsAbove(r.log[r.committed..], 0);
    if nconf > 1 then r.(fault := true)
    else FsmSpec.AppendEntry(cfg, r.(pendingConf := nconf == 1), [Entry(r.term, |r.log| + 1, Normal([]))])
  }

  lemma LeaderOpens(cfg: Config, r: Fsm)
    requires r.committed <= |r.log|
    ensures FsmSpec.BecomeLeader(cfg, r) ==
      if r.state == StateFollower then r.(fault := true)
      else Opened(cfg, FsmSpec.Reset(cfg, r, r.term, |r.log|, true).(leader := r.id, state := StateLeader, acks := {}))
  {}

  /** `bcastAppend` after the replicas in `done` have had their turn. */
  ghost function BcastPart(cfg: Config, r: Fsm, done: set<Id>): Res {
    Res(r.(replicas := map k | k in r.replicas ::
             if k in done then SendProgress(cfg, r, r.replicas[k]) else r.replicas[k],
           fault := r.fault || exists k :: k in done && k in r.replicas && SendFaults(r.replicas[k])),
        set k | k in done && k in r.replicas && !r.replicas[k].IsPaused() && r.replicas[k].next >= 1
          :: Msg(r, k, AppendBody(cfg, r, r.replicas[k])))
  }

  lemma BcastNone(cfg: Config, r: Fsm, others: set<Id>)
    ensures BcastPart(cfg, r, others - others) == Res(r, {})
  {
    assert others - others == {};
    assert BcastPart(cfg, r, {}).r.replicas == r.replicas;
  }

  /** One more replica's turn, `left` being those still to come. */
  lemma BcastMore(cfg: Config, r: Fsm, others: set<Id>, left: set<Id>, k: Id)
    requires left <= others <= r.replicas.Keys && k in left
    ensures var p := BcastPart(cfg, r, others - left); var q := SendAppend(cfg, p.r, k);
      BcastPart(cfg, r, others - (left - {k})) == Res(q.r, p.out + q.out)
  {
    hide Batch;
    var p, all := BcastPart(cfg, r, others - left), BcastPart(cfg, r, others - (left - {k}));
    var q := SendAppend(cfg, p.r, k);
    assert others - (left - {k}) == (others - left) + {k};
    assert AppendBody(cfg, p.r, r.replicas[k]) == AppendBody(cfg, r, r.replicas[k]);
    assert all.r.replicas == q.r.replicas;
    assert all.r.fault == q.r.fault;
    assert all.out == p.out + q.out;
  }

  lemma BcastAll(cfg: Config, r: Fsm)
    ensures BcastPart(cfg, r, r.replicas.Keys - {r.id} - {}) == FsmSpec.BcastAppend(cfg, r)
  {
    hide SendProgress, AppendBody;
    assert r.replicas.Keys - {r.id} - {} == r.replicas.Keys - {r.id};
    var p, q := BcastPart(cfg, r, r.replicas.Keys - {r.id}), FsmSpec.BcastAppend(cfg, r);
    assert p.r.replicas == q.r.replicas;
    assert p.r.fault == q.r.fault;
    assert p.out == q.out;
  }

  /** One message to each of the given replicas. */
  ghost function ToEach(r: Fsm, body: Body, done: set<Id>): set<Message> { set k | k in done :: Msg(r, k, body) }

  lemma EachMore(r: Fsm, body: Body, others: set<Id>, left: set<Id>, k: Id)
    requires left <= others && k in left
    ensures ToEach(r, body, others - (left - {k})) == ToEach(r, body, others - left) + {Msg(r, k, body)}
  {
    assert others - (left - {k}) == (others - left) + {k};
  }

  lemma EachOther(r: Fsm, body: Body)
    ensures ToEach(r, body, r.replicas.Keys - {r.id} - {}) == ToOthers(r, body)
    ensures var others := r.replicas.Keys - {r.id}; ToEach(r, body, others - others) == {}
  {
    assert r.replicas.Keys - {r.id} - {} == r.replicas.Keys - {r.id};
  }

  lemma ScreenOne(ents: seq<Entry>, i: nat, pending: bool)
    requires i < |ents|
    ensures var e := ents[i]; var conf := e.payload.Conf?;
      && AnyConf(ents[..i + 1]) == (AnyConf(ents[..i]) || conf)
      && Screen(ents[i..], pending)
      == [if conf && pending then Entry(e.term, e.index, Normal([])) else e] + Screen(ents[i + 1..], pending || conf)
  {
    assert ents[i..][1..] == ents[i + 1..] && ents[..i + 1] == ents[..i] + [ents[i]];
    assert ents[..i + 1][i] == ents[i];
    assert forall k :: 0 <= k < i ==> ents[..i + 1][k] == ents[..i][k];
  }

  lemma ScreenEnds(ents: seq<Entry>)
    ensures ents[..0] == [] && !AnyConf([]) && ents[0..] == ents && ents[..|ents|] == ents && ents[|ents|..] == []
    ensures Screen([], true) == [] && Screen([], false) == []
  {}

  lemma ScreenPlace(ents: seq<Entry>, pending: bool)
    ensures |Screen(ents, pending)| == |ents|
    ensures forall i :: 0 <= i < |ents| ==> Screen(ents, pending)[i].index == ents[i].index
  {}

  /** Entries of a proposal are numbered without a gap. */
  predicate Numbered(ents: seq<Entry>) {
    ents != [] ==> ents[0].index >= 1 && Consecutive(ents, ents[0].index - 1)
  }

  /** What the node does once replica k is off the list. */
  ghost function Without(cfg: Config, r: Fsm, k: Id): Res {
    if k == r.id then Res(FsmSpec.BecomeFollower(cfg, r, r.term, NO_LEADER), {})
    else if r.state == StateLeader && r.replicas != map[] then
      if Commits(r) then FsmSpec.BcastAppend(cfg, FsmSpec.MaybeCommit(r)) else Res(FsmSpec.MaybeCommit(r), {})
    else Res(r, {})
  }

  lemma RemoveDrops(cfg: Config, r: Fsm, peer: Peer)
    requires peer.id != NO_LEADER
    ensures ApplyConf(cfg, r, RemoveNode, peer) == Without(cfg, r.(pendingConf := false, replicas := r.replicas - {peer.id}), peer.id)
  {
    hide Commits, FsmSpec.BcastAppend, FsmSpec.MaybeCommit, FsmSpec.BecomeFollower;
  }

  /** Applying one more entry. */
  ghost function ApplyOne(cfg: Config, r: Fsm, e: Entry): Res {
    match e.payload
    case Normal(_) => Res(r, {})
    case Conf(kind, peer, _) => ApplyConf(cfg, r, kind, peer)
  }

  lemma {:induction false} ApplySnoc(cfg: Config, r: Fsm, ents: seq<Entry>, e: Entry)
    ensures var a := ApplyEnts(cfg, r, ents); var b := ApplyOne(cfg, a.r, e);
      ApplyEnts(cfg, r, ents + [e]) == Res(b.r, a.out + b.out)
    decreases |ents|
  {
    hide ApplyConf;
    if ents == [] {
      assert ([] + [e])[1..] == [];
      assert ApplyEnts(cfg, ApplyOne(cfg, r, e).r, []) == Res(ApplyOne(cfg, r, e).r, {});
    } else {
      ApplySnoc(cfg, ApplyOne(cfg, r, ents[0]).r, ents[1..], e);
      assert (ents + [e])[1..] == ents[1..] + [e] && (ents + [e])[0] == ents[0];
    }
  }

  /** A follower applies without sending, without committing, and whatever it has applied before. */
  lemma FollowerApplies(cfg: Config, r: Fsm, e: Entry, applied: nat)
    requires r.state == StateFollower
    ensures var a := ApplyOne(cfg, r, e);
      && ApplyOne(cfg, r.(applied := applied), e) == Res(a.r.(applied := applied), {})
      && a.out == {} && a.r.state == StateFollower && a.r.applied == r.applied && a.r.committed == r.committed && a.r.log == r.log
  {
    hide Commits, FsmSpec.BcastAppend, FsmSpec.MaybeCommit, FsmSpec.BecomeFollower, NewProgress;
    match e.payload
    case Normal(_) =>
    case Conf(kind, peer, _) =>
      FollowerAgain(cfg, r.(pendingConf := false, replicas := r.replicas - {peer.id}), applied);
  }

  lemma FollowerAgain(cfg: Config, r: Fsm, applied: nat)
    ensures var a := FsmSpec.BecomeFollower(cfg, r, r.term, NO_LEADER);
      && FsmSpec.BecomeFollower(cfg, r.(applied := applied), r.term, NO_LEADER) == a.(applied := applied)
      && a.state == StateFollower && a.applied == r.applied && a.committed == r.committed && a.log == r.log
      && a.id == r.id && a.term == r.term
  {
    assert FsmSpec.BecomeFollower(cfg, r.(applied := applied), r.term, NO_LEADER).replicas
        == FsmSpec.BecomeFollower(cfg, r, r.term, NO_LEADER).replicas;
  }

  lemma {:induction false} FollowerApplyEnts(cfg: Config, r: Fsm, ents: seq<Entry>)
    requires r.state == StateFollower
    ensures var a := ApplyEnts(cfg, r, ents);
      a.out == {} && a.r.state == StateFollower && a.r.applied == r.applied && a.r.committed == r.committed && a.r.log == r.log
    decreases |ents|
  {
    if ents != [] {
      hide ApplyOne;
      FollowerApplies(cfg, r, ents[0], 0);
      FollowerApplyEnts(cfg, ApplyOne(cfg, r, ents[0]).r, ents[1..]);
      ApplyHead(cfg, r, ents);
    }
  }

  lemma ApplyHead(cfg: Config, r: Fsm, ents: seq<Entry>)
    requires ents != []
    ensures var a := ApplyOne(cfg, r, ents[0]); var b := ApplyEnts(cfg, a.r, ents[1..]);
      ApplyEnts(cfg, r, ents) == Res(b.r, a.out + b.out)
  {
    hide ApplyConf;
  }

  /** A recovering node after its first k entries: as after applying them in one go, but for the applied index. */
  ghost function Recovered(cfg: Config, r: Fsm, full: seq<Entry>, k: nat): Fsm
    requires k <= |full|
  {
    ApplyEnts(cfg, r, full[..k]).r.(applied := r.applied + k)
  }

  lemma RecoverOne(cfg: Config, r: Fsm, full: seq<Entry>, k: nat)
    requires r.state == StateFollower && k < |full|
    ensures var r1 := Recovered(cfg, r, full, k); var a := ApplyOne(cfg, r1.(applied := r.applied + k + 1), full[k]);
      && r1.state == StateFollower && r1.committed == r.committed && r1.log == r.log && r1.applied == r.applied + k
      && a == Res(Recovered(cfg, r, full, k + 1), {})
  {
    hide ApplyOne, ApplyEnts;
    assert full[..k] + [full[k]] == full[..k + 1];
    ApplySnoc(cfg, r, full[..k], full[k]);
    FollowerApplyEnts(cfg, r, full[..k]);
    FollowerApplies(cfg, ApplyEnts(cfg, r, full[..k]).r, full[k], r.applied + k + 1);
  }

  lemma RecoverState(cfg: Config, r: Fsm, full: seq<Entry>, k: nat)
    requires r.state == StateFollower && k <= |full|
    ensures var r1 := Recovered(cfg, r, full, k);
      r1.state == StateFollower && r1.committed == r.committed && r1.log == r.log && r1.applied == r.applied + k
  {
    FollowerApplyEnts(cfg, r, full[..k]);
  }

  /** Recovery ends where one ready turn over everything committed would. */
  lemma RecoverAll(cfg: Config, r: Fsm)
    requires r.state == StateFollower && r.applied <= r.committed <= |r.log|
    ensures var full := r.log[r.applied..r.committed];
      Recovered(cfg, r, full, 0) == r && Recovered(cfg, r, full, |full|) == Ready(cfg, r).r
  {
    hide ApplyEnts;
    var full := r.log[r.applied..r.committed];
    assert full[..|full|] == full && full[..0] == [];
    ApplyNothing(cfg, r);
    FollowerApplyEnts(cfg, r, full);
  }

  lemma ApplyNothing(cfg: Config, r: Fsm)
    ensures ApplyEnts(cfg, r, []) == Res(r, {}) && Handed([]) == []
  {}

  lemma HandedSnoc(ents: seq<Entry>, k: nat)
    requires k < |ents|
    ensures Handed(ents[..k + 1]) == Handed(ents[..k]) + (if ents[k].payload == Normal([]) then [] else [ents[k]])
  {
    assert ents[..k + 1][..k] == ents[..k];
  }
}
