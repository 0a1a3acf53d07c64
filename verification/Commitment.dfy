/** What an acknowledgement brings about: the majority's index is committed, and everybody is told. */
module Commitment {
  import opened RaftTypes
  import opened LogSpec
  import opened ProgressSpec
  import opened QuorumIndex
  import opened FsmSpec
  import opened Cluster
  import opened Heartbeats
  import opened CatchUp
  import Submissions

  /** The match indexes once k has acknowledged up to an index. */
  function MatchedWith(r: Fsm, k: Id, index: nat): map<Id, nat>
    requires k in r.replicas
  {
    map x | x in r.replicas :: if x == k then index else r.replicas[x].matched
  }

  /** The commit index that a majority at `top` allows: only an entry of the leader's own term is committed. */
  function Allowed(r: Fsm, top: nat): nat {
    if r.committed < top <= |r.log| && r.log[top - 1].term == r.term then top else r.committed
  }

  /** The replicas once the acknowledgement is on record. */
  function Told(r: Fsm, k: Id, index: nat, commit: nat): map<Id, Progress>
    requires k in r.replicas
  {
    r.replicas[k := Acknowledged(r.replicas[k].(active := true), index, commit)]
  }

  /** Whether a member can be sent to, and what it is sent. */
  predicate Reachable(p: Progress) { !p.IsPaused() && p.next >= 1 }

  function Update(cfg: Config, r: Fsm, x: Id, p: Progress, commit: nat): Message
    requires p.next >= 1
  {
    Message(r.id, x, r.term, ReqAppend(p.next - 1, TermAt(r.log, p.next - 1), commit, Batch(cfg, r.log, p.next)))
  }

  lemma Recorded(r: Fsm, k: Id, index: nat, commit: nat)
    requires k in r.replicas && index > r.replicas[k].matched
    ensures var r1 := WithProgress(Noted(r, k), k, Acknowledged(Noted(r, k).replicas[k], index, commit));
      r1 == r.(replicas := Told(r, k, index, commit)) && Matches(r1.replicas) == MatchedWith(r, k, index)
  {
    var p := Acknowledged(Noted(r, k).replicas[k], index, commit);
    assert Noted(r, k).replicas[k := p] == r.replicas[k := p];
  }

  lemma Committed(r: Fsm, m: map<Id, nat>, top: nat)
    requires r.term >= 1 && r.replicas != map[] && Matches(r.replicas) == m && Greatest(m, |m| / 2 + 1, top)
    ensures (Commits(r) <==> Allowed(r, top) > r.committed) && MaybeCommit(r).committed == Allowed(r, top)
    ensures MaybeCommit(r).log == r.log && MaybeCommit(r).id == r.id && MaybeCommit(r).term == r.term
    ensures MaybeCommit(r).replicas.Keys == r.replicas.Keys
    ensures forall x :: x in r.replicas && x != r.id ==> MaybeCommit(r).replicas[x] == r.replicas[x]
  {
    assert m.Keys == r.replicas.Keys && m.Keys != {};
    CommitOthers(r);
    CommitShape(r);
    GreatestUnique(m, |m| / 2 + 1, top, Agreed(m));
    hide Agreed, Matches;
  }

  /** An acknowledgement of nothing new changes no commit index and is not answered. */
  lemma OldAck(cfg: Config, r: Fsm, k: Id, index: nat, commit: nat)
    requires Leads(r, k) && r.term >= 1 && index <= r.replicas[k].matched
    ensures var a := Handle(cfg, r, Recv(AckFrom(r, k, index, commit)));
      && a.out == {} && a.r == r.(replicas := a.r.replicas) && a.r.replicas.Keys == r.replicas.Keys
      && a.r.replicas[k].matched == r.replicas[k].matched
  {
    ReplyHandled(cfg, r, k, index, commit, 0);
    hide Handle;
  }

  /**
   A new acknowledgement: the leader commits the greatest index that a majority has reached if the entry there is of its
   own term. If that is new, every other member that can be sent to is sent it; otherwise only the sender, if it had
   been paused.
   */
  lemma NewAck(cfg: Config, r: Fsm, k: Id, index: nat, commit: nat, top: nat)
    requires Leads(r, k) && r.term >= 1 && index > r.replicas[k].matched
    requires var m := MatchedWith(r, k, index); Greatest(m, |m| / 2 + 1, top)
    ensures var a, now, c := Handle(cfg, r, Recv(AckFrom(r, k, index, commit))), Told(r, k, index, commit), Allowed(r, top);
      && a.r.committed == c && a.r.log == r.log && a.r.term == r.term
      && a.out == (if c > r.committed
                   then set x | x in now && x != r.id && Reachable(now[x]) :: Update(cfg, r, x, now[x], c)
                   else if r.replicas[k].IsPaused() && Reachable(now[k]) then {Update(cfg, r, k, now[k], c)}
                   else {})
  {
    hide Handle, Batch, TermIn, Acknowledged, MatchedWith, Matches, MaybeCommit, Commits, Progress.IsPaused, SendProgress, SendFaults;
    ReplyHandled(cfg, r, k, index, commit, 0);
    Recorded(r, k, index, commit);
    var now, m := Told(r, k, index, commit), MatchedWith(r, k, index);
    var r1 := r.(replicas := now);
    assert Noted(r, k).replicas[k].IsPaused() == r.replicas[k].IsPaused() by { NotedPaused(r.replicas[k]); }
    Committed(r1, m, top);
    var r2 := MaybeCommit(r1);
    assert r2.replicas[k] == now[k];
    if Commits(r1) { Broadcast(cfg, r, r2, now); }
  }

  lemma NotedPaused(p: Progress)
    ensures p.(active := true).IsPaused() == p.IsPaused()
  {}

  lemma Broadcast(cfg: Config, r: Fsm, r2: Fsm, now: map<Id, Progress>)
    requires r2.id == r.id && r2.term == r.term && r2.log == r.log && r2.replicas.Keys == now.Keys
    requires forall x :: x in now && x != r.id ==> r2.replicas[x] == now[x]
    ensures BcastAppend(cfg, r2).out == set x | x in now && x != r.id && Reachable(now[x]) :: Update(cfg, r, x, now[x], r2.committed)
  {
    hide Batch, TermIn, Progress.IsPaused, SendProgress, SendFaults;
    forall x | x in now && x != r.id && Reachable(now[x])
      ensures Msg(r2, x, AppendBody(cfg, r2, r2.replicas[x])) == Update(cfg, r, x, now[x], r2.committed)
    {
    }
    assert BcastAppend(cfg, r2).out
        == set x | x in r2.replicas && x != r2.id && !r2.replicas[x].IsPaused() && r2.replicas[x].next >= 1 :: Msg(r2, x, AppendBody(cfg, r2, r2.replicas[x]));
  }

  /** A batch taken in goes out at once to every other member that can be sent to, from its `next` on. */
  lemma SubmitSent(cfg: Config, r: Fsm, payloads: seq<Payload>)
    requires r.state == StateLeader && r.leader == r.id && r.id in r.replicas && r.committed <= |r.log| && payloads != []
    ensures var a := Handle(cfg, r, Submit(payloads));
      a.out == set x | x in r.replicas && x != r.id && Reachable(r.replicas[x])
                 :: Update(cfg, r.(log := a.r.log), x, r.replicas[x], a.r.committed)
  {
    hide Handle, Screen, AppendEntry;
    var ents := Proposal(r, payloads);
    var s := Screen(ents, r.pendingConf);
    Submissions.SubmitHandled(cfg, r, payloads);
    Submissions.ProposalScreened(r, payloads, 0);
    var r1 := r.(pendingConf := r.pendingConf || AnyConf(ents));
    AppendOthers(cfg, r1, s);
    var r2 := AppendEntry(cfg, r1, s);
    Broadcast(cfg, r.(log := r2.log), r2, r.replicas);
  }

  lemma AppendOthers(cfg: Config, r: Fsm, ents: seq<Entry>)
    requires r.id in r.replicas
    ensures var a := AppendEntry(cfg, r, ents);
      && a.id == r.id && a.term == r.term && a.replicas.Keys == r.replicas.Keys
      && (forall x :: x in r.replicas && x != r.id ==> a.replicas[x] == r.replicas[x])
  {
    hide AppendEnts, MaybeCommit, Progress.MaybeUpdate;
    if ents == [] || r.committed < ents[0].index <= |r.log| + 1 {
      var r1 := r.(log := AppendEnts(0, r.log, ents));
      var own := r1.replicas[r.id].MaybeUpdate(|r1.log|, r1.committed);
      assert r.id in r1.replicas[r.id := own];
      CommitOthers(r1.(replicas := r1.replicas[r.id := own]));
    }
  }

  lemma CommitOthers(r: Fsm)
    requires r.replicas != map[]
    ensures var a := MaybeCommit(r);
      && a.id == r.id && a.term == r.term && a.replicas.Keys == r.replicas.Keys
      && (forall x :: x in r.replicas && x != r.id ==> a.replicas[x] == r.replicas[x])
  {
    CommitShape(r);
    forall x | x in r.replicas && x != r.id ensures MaybeCommit(r).replicas[x] == r.replicas[x] { CommitOther(r, x); }
  }

  lemma CommitShape(r: Fsm)
    requires r.replicas != map[]
    ensures var a := MaybeCommit(r); a.id == r.id && a.term == r.term && a.log == r.log && a.replicas.Keys == r.replicas.Keys
  {
    hide Commits, Agreed, Matches;
  }

  lemma CommitOther(r: Fsm, x: Id)
    requires x in r.replicas && x != r.id
    ensures x in MaybeCommit(r).replicas && MaybeCommit(r).replicas[x] == r.replicas[x]
  {
    hide Commits, Agreed, Matches;
  }

  /** What sending leaves of a replica: a mark, and a pause while probing or a longer window while replicating. */
  ghost predicate Marked(p: Progress, q: Progress, log: seq<Entry>) {
    && q.pending && q.state == p.state && q.matched == p.matched && q.committed == p.committed
    && (p.next > |log| ==> q == p.(pending := true))
    && (p.next <= |log| && p.state == Probe ==> q == p.(pending := true, paused := true))
    && (p.next <= |log| && p.state == Replicate ==>
          p.next < q.next <= |log| + 1 && q == p.(pending := true, next := q.next, window := p.window + [q.next - 1]))
  }

  lemma SentMarked(cfg: Config, log: seq<Entry>, p: Progress)
    requires Consecutive(log, 0) && 1 <= p.next <= |log| + 1 && Reachable(p)
    ensures Marked(p, Sent(p, Batch(cfg, log, p.next)), log)
  {
    if p.next <= |log| { LimitLongest(log[p.next - 1..], cfg.maxSizePerMsg); }
  }

  /** A batch taken in leaves its mark on every member it was sent to, and on no other. */
  lemma SubmitMarked(cfg: Config, r: Fsm, payloads: seq<Payload>, x: Id)
    requires r.state == StateLeader && r.leader == r.id && r.id in r.replicas && r.committed <= |r.log| && payloads != []
    requires Consecutive(r.log, 0) && x in r.replicas && x != r.id && 1 <= r.replicas[x].next <= |r.log| + 1
    ensures var a := Handle(cfg, r, Submit(payloads)).r;
      && x in a.replicas
      && (if Reachable(r.replicas[x]) then Marked(r.replicas[x], a.replicas[x], a.log) else a.replicas[x] == r.replicas[x])
  {
    hide Handle, Screen, AppendEntry, Sent, Batch, Progress.IsPaused;
    var ents := Proposal(r, payloads);
    var s := Screen(ents, r.pendingConf);
    Submissions.SubmitHandled(cfg, r, payloads);
    Submissions.SubmitLogged(cfg, r, payloads);
    Submissions.ProposalScreened(r, payloads, 0);
    var r1 := r.(pendingConf := r.pendingConf || AnyConf(ents));
    AppendOthers(cfg, r1, s);
    var r2 := AppendEntry(cfg, r1, s);
    var a := Handle(cfg, r, Submit(payloads)).r;
    assert a.log == r2.log && a.replicas[x] == SendProgress(cfg, r2, r.replicas[x]);
    forall k | 0 <= k < |a.log| ensures a.log[k].index == k + 1 {
      if k < |r.log| {
        assert a.log[k] == r.log[k];
      } else {
        var i := k - |r.log|;
        assert a.log[|r.log| + i] == Entry(r.term, |r.log| + 1 + i, Submissions.Logged(payloads, r.pendingConf, i));
      }
    }
    if Reachable(r.replicas[x]) { SentMarked(cfg, a.log, r.replicas[x]); }
  }
}
