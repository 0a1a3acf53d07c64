/** Probing: a leader that resends from further back until its follower agrees comes to an end. */
module ProbeConverges {
  import opened RaftTypes
  import opened LogSpec
  import opened ProgressSpec
  import opened FsmSpec

  ghost predicate WellFormed(log: seq<Entry>) {
    Consecutive(log, 0) && forall i :: 0 <= i < |log| ==> log[i].term >= 1
  }

  /** Leader r probes follower f in their common term. */
  ghost predicate Probing(r: Fsm, f: Fsm) {
    && r.state == StateLeader && f.state == StateFollower && f.leader == r.id && f.term == r.term && f.id != r.id
    && WellFormed(r.log) && f.committed <= |f.log|
    && f.id in r.replicas && r.replicas[f.id].state == Probe && 1 <= r.replicas[f.id].next <= |r.log| + 1
  }

  function Next(r: Fsm, f: Fsm): nat
    requires f.id in r.replicas
  {
    r.replicas[f.id].next
  }

  /** The append request on its way. */
  function InFlight(cfg: Config, r: Fsm, f: Fsm): Message
    requires f.id in r.replicas
  {
    Msg(r, f.id, AppendBody(cfg, r, r.replicas[f.id]))
  }

  /** The follower has another entry, or none, where the request attaches. */
  predicate Disagrees(r: Fsm, f: Fsm)
    requires f.id in r.replicas && Next(r, f) >= 1
  {
    Next(r, f) - 1 >= f.committed && TermAt(f.log, Next(r, f) - 1) != TermAt(r.log, Next(r, f) - 1)
  }

  function Rejection(r: Fsm, f: Fsm): Message
    requires f.id in r.replicas && Next(r, f) >= 1
  {
    Msg(f, r.id, RespAppend(true, Next(r, f) - 1, f.committed, |f.log|))
  }

  lemma BatchShape(cfg: Config, log: seq<Entry>, next: nat)
    requires WellFormed(log) && 1 <= next <= |log| + 1
    ensures var ents := Batch(cfg, log, next);
      Consecutive(ents, next - 1) && (forall i :: 0 <= i < |ents| ==> ents[i].term >= 1)
  {}

  /** Entries of positive terms conflict with a log at its end at the latest. */
  lemma ConflictNear(log: seq<Entry>, index: nat, ents: seq<Entry>)
    requires index <= |log| && Consecutive(ents, index) && forall i :: 0 <= i < |ents| ==> ents[i].term >= 1
    ensures var ci := FindConflict(0, 0, log, ents);
      && (ci != 0 ==> index < ci <= index + |ents|) && ci <= |log| + 1 && (ci == 0 ==> index + |ents| <= |log|)
  {
    hide FindConflict;
    ConflictPlace(0, 0, log, ents, index);
    var k := |log| - index;
    if k < |ents| {
      assert TermIn(0, 0, log, index + 1 + k) != ents[k].term;
    }
  }

  lemma AttachFits(log: seq<Entry>, committed: nat, index: nat, commit: nat, ents: seq<Entry>)
    requires committed <= index <= |log| && Consecutive(ents, index) && forall i :: 0 <= i < |ents| ==> ents[i].term >= 1
    ensures var a := LogSpec.MaybeAppend(0, 0, log, committed, index, TermAt(log, index), commit, ents); a.ok && !a.panic
  {
    hide FindConflict;
    ConflictNear(log, index, ents);
  }

  /** The follower answers a probe with a rejection exactly when it disagrees, and keeps its log then. */
  lemma ProbeAnswered(cfg: Config, r: Fsm, f: Fsm)
    requires Probing(r, f)
    ensures var a := Step(cfg, f, InFlight(cfg, r, f));
      && (Disagrees(r, f) ==> a == Res(f, {Rejection(r, f)}))
      && (!Disagrees(r, f) ==> a.r.fault == f.fault && exists i: nat, c: nat :: a.out == {Msg(f, r.id, RespAppend(false, i, c, 0))})
  {
    var next := Next(r, f);
    BatchShape(cfg, r.log, next);
    var ents := Batch(cfg, r.log, next);
    hide Batch;
    FollowerHandles(cfg, f, InFlight(cfg, r, f));
    hide Step, LogSpec.MaybeAppend;
    if next - 1 >= f.committed && !Disagrees(r, f) {
      assert next - 1 <= |f.log|;
      AttachFits(f.log, f.committed, next - 1, r.committed, ents);
    } else if Disagrees(r, f) {
      Refuses(f.log, f.committed, next - 1, TermAt(r.log, next - 1), r.committed, ents);
    }
  }

  lemma Refuses(log: seq<Entry>, committed: nat, index: nat, logTerm: nat, commit: nat, ents: seq<Entry>)
    requires Consecutive(ents, index) && TermAt(log, index) != logTerm
    ensures LogSpec.MaybeAppend(0, 0, log, committed, index, logTerm, commit, ents) == AppendResult(false, false, log, committed, 0)
  {}

  lemma FollowerHandles(cfg: Config, f: Fsm, m: Message)
    requires f.state == StateFollower && f.leader == m.from && m.term == f.term && m.body.ReqAppend?
    ensures Step(cfg, f, m) == HandleAppend(cfg, f, m.from, m.body.index, m.body.logTerm, m.body.commit, m.body.ents)
  {
    hide HandleAppend;
    assert f.(leader := m.from) == f;
  }

  lemma LeaderTakesReject(cfg: Config, r: Fsm, m: Message)
    requires r.state == StateLeader && m.term == r.term && m.from in r.replicas && m.body.RespAppend? && m.body.reject
    ensures Step(cfg, r, m) == LeaderReject(cfg, WithProgress(r, m.from, r.replicas[m.from].(active := true)),
                                            m.from, m.body.index, m.body.rejectIndex, m.body.commit)
  {
    hide LeaderReject;
  }

  /** A taken rejection lowers `next`, to no further than one past the follower's end, and resends from there. */
  lemma ProbeRetried(cfg: Config, r: Fsm, f: Fsm)
    requires Probing(r, f) && Disagrees(r, f)
    ensures var s := Step(cfg, r, Rejection(r, f));
      && Probing(s.r, f) && s.out == {InFlight(cfg, s.r, f)} && s.r.log == r.log
      && Next(s.r, f) < Next(r, f) && Next(s.r, f) <= |f.log| + 1
  {
    var next, to := Next(r, f), Max(1, Min(Next(r, f) - 1, |f.log| + 1));
    assert next > 1;
    LeaderTakesReject(cfg, r, Rejection(r, f));
    var r1 := WithProgress(r, f.id, r.replicas[f.id].(active := true));
    var r2 := WithProgress(r1, f.id, r1.replicas[f.id].(next := to, committed := f.committed, paused := false));
    assert LeaderReject(cfg, r1, f.id, next - 1, |f.log|, f.committed) == SendAppend(cfg, r2, f.id) by {
      hide SendAppend;
    }
    hide Step, LeaderReject, SendAppend, AppendBody, WellFormed;
    ProbeSends(cfg, r2, f.id);
  }

  lemma ProbeSends(cfg: Config, r: Fsm, k: Id)
    requires k in r.replicas && r.replicas[k].state == Probe && !r.replicas[k].paused && r.replicas[k].next >= 1
    ensures var s := SendAppend(cfg, r, k);
      && s.r == r.(replicas := s.r.replicas) && k in s.r.replicas
      && s.r.replicas[k].state == Probe && s.r.replicas[k].next == r.replicas[k].next
      && s.out == {Msg(s.r, k, AppendBody(cfg, s.r, s.r.replicas[k]))}
  {
    hide Batch, TermIn;
  }

  /** How often the follower rejects, and the leader's state when it no longer does. */
  ghost function Exchange(cfg: Config, r: Fsm, f: Fsm): (res: (nat, Fsm))
    requires Probing(r, f)
    decreases Next(r, f)
  {
    if !Disagrees(r, f) then (0, r)
    else
      ProbeRetried(cfg, r, f);
      var rest := Exchange(cfg, Step(cfg, r, Rejection(r, f)).r, f);
      (rest.0 + 1, rest.1)
  }

  /** Over unchanged logs the exchange ends in an acceptance after fewer than `next` rejections, one per log place at most. */
  lemma {:induction false} ProbeEnds(cfg: Config, r: Fsm, f: Fsm)
    requires Probing(r, f)
    ensures var (n, r') := Exchange(cfg, r, f);
      && n <= Next(r, f) - 1 && n <= |f.log| + 1
      && Probing(r', f) && !Disagrees(r', f) && r'.log == r.log
    decreases Next(r, f)
  {
    if Disagrees(r, f) {
      ProbeRetried(cfg, r, f);
      hide Step;
      ProbeEnds(cfg, Step(cfg, r, Rejection(r, f)).r, f);
    }
  }
}
