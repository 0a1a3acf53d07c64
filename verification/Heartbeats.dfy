/** What a heartbeat answer sets off: the request that a follower lacks is sent again, whatever was lost before. */
module Heartbeats {
  import opened RaftTypes
  import opened LogSpec
  import opened ProgressSpec
  import opened FsmSpec
  import opened Cluster

  function HeartbeatFrom(k: Id, id: Id): Message { Message(k, id, 0, RespHeartBeat) }

  predicate Leads(r: Fsm, k: Id) { r.state == StateLeader && r.leader == r.id && k in r.replicas && k != r.id }

  /** The follower lacks entries or the commit index, as far as the leader knows. */
  predicate Lags(r: Fsm, k: Id)
    requires k in r.replicas
  {
    r.replicas[k].matched < |r.log| || r.replicas[k].committed < r.committed
  }

  /** Not paused, once a full window has given up an entry. */
  predicate CanSend(p: Progress) {
    match p.state
    case Probe => !p.paused
    case Snapshot => false
    case Replicate => |p.window| != p.cap || p.window != []
  }

  /** The append request from `next` on. */
  function Request(cfg: Config, r: Fsm, k: Id): Message
    requires k in r.replicas && r.replicas[k].next >= 1
  {
    var prev := r.replicas[k].next - 1;
    Message(r.id, k, r.term, ReqAppend(prev, TermAt(r.log, prev), r.committed, Batch(cfg, r.log, prev + 1)))
  }

  /** It carries the longest stretch from there that fits, and something if there is anything. */
  lemma RequestCarries(cfg: Config, r: Fsm, k: Id)
    requires k in r.replicas && 1 <= r.replicas[k].next <= |r.log| + 1
    ensures var next, ents := r.replicas[k].next, Request(cfg, r, k).body.ents;
      && next - 1 + |ents| <= |r.log| && ents == r.log[next - 1..next - 1 + |ents|]
      && (next <= |r.log| ==> ents != [])
      && (|ents| > 1 ==> Total(ents, |ents|) <= cfg.maxSizePerMsg)
      && var rest := r.log[next - 1..]; forall n :: |ents| < n <= |rest| ==> Total(rest, n) > cfg.maxSizePerMsg
  {
    var next := r.replicas[k].next;
    if next <= |r.log| {
      LimitLongest(r.log[next - 1..], cfg.maxSizePerMsg);
      var ents := LimitSize(r.log[next - 1..], Bytes(cfg.maxSizePerMsg));
      assert ents == r.log[next - 1..][..|ents|] == r.log[next - 1..next - 1 + |ents|];
      TotalPrefix(ents, r.log[next - 1..][|ents|..], |ents|);
      assert ents + r.log[next - 1..][|ents|..] == r.log[next - 1..];
    }
  }

  // ---- one answer ----

  function Freed(p: Progress): Progress {
    if p.state == Replicate && p.Full() && p.window != [] then p.FreeTo(p.window[0]) else p
  }

  lemma DropShortens(w: seq<nat>, index: nat)
    ensures |DropUpTo(w, index)| <= |w|
  {}

  lemma FreedOpens(p: Progress)
    ensures CanSend(p) <==> !Freed(p).IsPaused()
  {
    if p.state == Replicate && p.Full() && p.window != [] { DropShortens(p.window[1..], p.window[0]); }
  }

  /** The replica's progress after a heartbeat answer. */
  function AfterAnswer(cfg: Config, r: Fsm, k: Id): Progress
    requires k in r.replicas && r.replicas[k].next >= 1
  {
    var p := r.replicas[k];
    var q := if !p.pending && Lags(r, k) && CanSend(p) then Sent(Freed(p), Batch(cfg, r.log, p.next)) else Freed(p);
    q.(active := true, pending := q.pending && p.state == Snapshot)
  }

  lemma AnswerHandled(cfg: Config, r: Fsm, k: Id)
    requires Leads(r, k)
    ensures Handle(cfg, r, Recv(HeartbeatFrom(k, r.id))) == LeaderHeartbeat(cfg, r, k)
  {
    hide LeaderHeartbeat;
  }

  /**
   A heartbeat answer makes the leader send the request from `next` on if and only if the replica lags, no request is
   pending and, after a full window has given up one entry, it is not paused. The mark of a pending request goes.
   */
  lemma AnswerExactly(cfg: Config, r: Fsm, k: Id)
    requires Leads(r, k) && r.replicas[k].next >= 1
    ensures var a, p := Handle(cfg, r, Recv(HeartbeatFrom(k, r.id))), r.replicas[k];
      && a.out == (if !p.pending && Lags(r, k) && CanSend(p) then {Request(cfg, r, k)} else {})
      && a.r == WithProgress(r, k, AfterAnswer(cfg, r, k)).(fault := a.r.fault)
  {
    hide Handle, Freed, Lags, Sent, Batch, TermIn, CanSend, Progress.IsPaused, WithProgress, Marked;
    var p, q := r.replicas[k], Freed(r.replicas[k]);
    var fault := r.fault || (p.state == Replicate && p.Full() && p.window == []);
    FreedKeeps(p);
    FreedOpens(p);
    AnswerHandled(cfg, r, k);
    AnswerParts(cfg, r, k, fault);
    SentKeeps(q, Batch(cfg, r.log, p.next));
    if !p.pending && Lags(r, k) && CanSend(p) {
      Resent(cfg, r, k, q, fault);
      MarkedOnce(r, k, Sent(q, Batch(cfg, r.log, p.next)), fault, {Request(cfg, r, k)});
    } else {
      Unsent(cfg, r, k, q, fault);
      MarkedOnce(r, k, q, fault, {});
    }
  }

  lemma FreedKeeps(p: Progress)
    ensures Freed(p) == p.(window := Freed(p).window)
  {}

  /** The end of an answer: the replica is active, and nothing is pending outside snapshot state. */
  function Marked(s: Res, k: Id): Res
    requires k in s.r.replicas
  {
    var p := s.r.replicas[k].(active := true);
    Res(WithProgress(s.r, k, if p.state != Snapshot then p.(pending := false) else p), s.out)
  }

  lemma MarkedOnce(r: Fsm, k: Id, q: Progress, fault: bool, out: set<Message>)
    requires k in r.replicas
    ensures var r1 := WithProgress(r, k, q).(fault := fault);
      && k in r1.replicas
      && Marked(Res(r1, out), k) == Res(WithProgress(r, k, q.(active := true, pending := q.pending && q.state == Snapshot)).(fault := fault), out)
  {
    var r1, x := WithProgress(r, k, q).(fault := fault), q.(active := true, pending := q.pending && q.state == Snapshot);
    assert r1.replicas[k := x] == r.replicas[k := x];
  }

  lemma AnswerParts(cfg: Config, r: Fsm, k: Id, fault: bool)
    requires k in r.replicas && fault == (r.fault || (r.replicas[k].state == Replicate && r.replicas[k].Full() && r.replicas[k].window == []))
    ensures var r1 := WithProgress(r, k, Freed(r.replicas[k])).(fault := fault);
      var s := if !r.replicas[k].pending && Lags(r, k) then SendAppend(cfg, r1, k) else Res(r1, {});
      k in s.r.replicas && LeaderHeartbeat(cfg, r, k) == Marked(s, k)
  {
    hide SendProgress, SendOut, SendFaults;
    FreedKeeps(r.replicas[k]);
    hide Freed;
  }

  lemma Resent(cfg: Config, r: Fsm, k: Id, q: Progress, fault: bool)
    requires k in r.replicas && r.replicas[k].next == q.next >= 1 && !q.IsPaused()
    ensures SendAppend(cfg, WithProgress(r, k, q).(fault := fault), k)
      == Res(WithProgress(r, k, Sent(q, Batch(cfg, r.log, q.next))).(fault := fault), {Request(cfg, r, k)})
  {
    hide Sent, Batch, TermIn, Progress.IsPaused, SendAppend;
    var r1, x := WithProgress(r, k, q).(fault := fault), Sent(q, Batch(cfg, r.log, q.next));
    SendExactly(cfg, r1, k);
    assert r1.replicas[k := x] == r.replicas[k := x];
  }

  lemma Unsent(cfg: Config, r: Fsm, k: Id, q: Progress, fault: bool)
    requires k in r.replicas && q.next >= 1
    ensures q.IsPaused() ==> SendAppend(cfg, WithProgress(r, k, q).(fault := fault), k) == Res(WithProgress(r, k, q).(fault := fault), {})
  {
    hide Sent, Batch, TermIn, Progress.IsPaused, SendAppend;
    var r1 := WithProgress(r, k, q).(fault := fault);
    SendExactly(cfg, r1, k);
    assert r1.replicas[k := q] == r1.replicas;
  }

  lemma SentKeeps(p: Progress, ents: seq<Entry>)
    ensures Sent(p, ents).state == p.state
  {}

  /** One send: the request, and the progress it leaves, unless the replica is paused. */
  lemma SendExactly(cfg: Config, r: Fsm, k: Id)
    requires k in r.replicas && r.replicas[k].next >= 1
    ensures var p := r.replicas[k];
      SendAppend(cfg, r, k) == Res(WithProgress(r, k, if p.IsPaused() then p else Sent(p, Batch(cfg, r.log, p.next))),
                                   if p.IsPaused() then {} else {Request(cfg, r, k)})
  {
    hide Batch, Sent, TermIn, Progress.IsPaused;
  }

  /** Resuming lets every other replica go on. */
  lemma ResumeExactly(cfg: Config, r: Fsm, k: Id)
    requires Leads(r, k)
    ensures var a, p := Handle(cfg, r, ResumeTick), r.replicas[k];
      && a.out == {} && a.r == r.(replicas := a.r.replicas) && a.r.replicas.Keys == r.replicas.Keys
      && a.r.replicas[k] == (if p.state == Snapshot then p else p.(paused := false))
  {}

  // ---- progress ----

  ghost function Answer(cfg: Config, r: Fsm, k: Id): Res { Handle(cfg, r, Recv(HeartbeatFrom(k, r.id))) }

  /**
   Whatever was lost before, a heartbeat tick and two heartbeat answers of a lagging replica outside snapshot state make
   the leader send it the request from `next` on.
   */
  lemma TwoAnswersSend(cfg: Config, r: Fsm, k: Id)
    requires Leads(r, k) && r.replicas[k].state != Snapshot && r.replicas[k].next >= 1 && r.replicas[k].cap > 0 && Lags(r, k)
    ensures var a := Answer(cfg, Handle(cfg, r, ResumeTick).r, k); var b := Answer(cfg, a.r, k);
      Request(cfg, r, k) in a.out + b.out
  {
    hide Handle, Batch, TermIn, AfterAnswer;
    ResumeExactly(cfg, r, k);
    var r1 := Handle(cfg, r, ResumeTick).r;
    AnswerExactly(cfg, r1, k);
    assert Request(cfg, r1, k) == Request(cfg, r, k);
    if r1.replicas[k].pending {
      AfterWaiting(cfg, r1, k);
      var r2 := Answer(cfg, r1, k).r;
      AnswerExactly(cfg, r2, k);
      assert Request(cfg, r2, k) == Request(cfg, r1, k);
    }
  }

  /** An answer that meets a pending request changes nothing but the mark, and the window if it is full. */
  lemma AfterWaiting(cfg: Config, r: Fsm, k: Id)
    requires k in r.replicas && r.replicas[k].next >= 1 && r.replicas[k].pending && r.replicas[k].state != Snapshot
    requires CanSend(r.replicas[k])
    ensures var p, q := r.replicas[k], AfterAnswer(cfg, r, k);
      && q == p.(active := true, pending := false, window := q.window) && CanSend(q)
      && (q.window != p.window ==> p.state == Replicate && p.window != [] && q.window == DropUpTo(p.window, p.window[0]))
  {
    var p := r.replicas[k];
    if p.state == Replicate && p.Full() && p.window != [] { DropShortens(p.window[1..], p.window[0]); }
  }

  /** While probing, one request with entries is on its way at a time: after it nothing is sent until an answer or a tick. */
  lemma OneProbe(cfg: Config, r: Fsm, k: Id)
    requires Leads(r, k) && r.replicas[k].state == Probe && 1 <= r.replicas[k].next <= |r.log|
    ensures var a := Answer(cfg, r, k);
      a.out != {} ==> a.r.replicas[k].paused && a.r.replicas[k].next == r.replicas[k].next && Answer(cfg, a.r, k).out == {}
  {
    hide Handle;
    AnswerExactly(cfg, r, k);
    RequestCarries(cfg, r, k);
    var r1 := Answer(cfg, r, k).r;
    AnswerExactly(cfg, r1, k);
  }
}
