/**
 A follower that its leader can reach catches up: heartbeat answers draw out requests, requests draw out answers, and
 after finitely many exchanges the follower holds all of the leader's log and its commit index.
 */
module CatchUp {
  import opened RaftTypes
  import opened LogSpec
  import opened ProgressSpec
  import opened FsmSpec
  import opened Cluster
  import opened Heartbeats
  import SimSend
  import opened SimFollower
  import C = CoreRaft
  import opened CoreInvariant
  import opened ClusterSim
  import opened SimLeader
  import RaftSafety

  // ---- the leader and one follower ----

  /** What a leader keeps of a follower that it can send to. */
  ghost predicate Fit(r: Fsm, k: Id) {
    Leads(r, k) && r.committed <= |r.log| && r.term >= 1 && var p := r.replicas[k];
    p.state != Snapshot && p.cap > 0 && p.Ordered() && 1 <= p.next <= |r.log| + 1 && p.matched <= |r.log|
  }

  ghost predicate SamePrefix(a: seq<Entry>, b: seq<Entry>, i: nat) { i <= |a| && i <= |b| && a[..i] == b[..i] }

  /** f follows r in its term; what is committed or matched is the same in both logs, and `ll` accounts for both. */
  ghost predicate Pair(ll: map<nat, seq<Entry>>, r: Fsm, f: Fsm) {
    && Fit(r, f.id) && f.state == StateFollower && f.leader == r.id && f.term == r.term
    && LogOk(ll, r.log) && LogOk(ll, f.log)
    && SamePrefix(f.log, r.log, f.committed) && SamePrefix(f.log, r.log, r.replicas[f.id].matched)
  }

  /** The leader goes on: log and term stay, the commit index does not fall. */
  ghost predicate GoesOn(r: Fsm, r': Fsm) {
    && r'.id == r.id && r'.term == r.term && r'.state == r.state && r'.leader == r.leader && r'.log == r.log
    && r.committed <= r'.committed <= |r.log|
  }

  // ---- the follower's answer ----

  /** The three answers to an append request of the node's own term and leader. */
  lemma FollowerExactly(ll: map<nat, seq<Entry>>, cfg: Config, r: Fsm, f: Fsm)
    requires Pair(ll, r, f)
    ensures var m := Request(cfg, r, f.id); var prev, ents := m.body.index, m.body.ents; var j := prev + |ents|;
      j <= |r.log| && Handle(cfg, f, Recv(m)) ==
        if prev < f.committed then Res(f, {Msg(f, r.id, RespAppend(false, f.committed, f.committed, 0))})
        else if TermAt(f.log, prev) != TermAt(r.log, prev) then Res(f, {Msg(f, r.id, RespAppend(true, prev, f.committed, |f.log|))})
        else var f' := f.(log := C.Adopt(f.log, r.log, j), committed := Max(f.committed, Min(r.committed, j)));
             Res(f', {Msg(f, r.id, RespAppend(false, j, f'.committed, 0))})
  {
    hide LogOk, Batch, TermIn, C.Adopt, LogSpec.MaybeAppend, Progress.Ordered;
    var m := Request(cfg, r, f.id);
    var prev, ents := m.body.index, m.body.ents;
    RequestCarries(cfg, r, f.id);
    RequestHandled(cfg, f, m);
    if prev >= f.committed {
      AppendIsAdopt(ll, f.log, r.log, f.committed, prev, r.committed, ents);
      var a := LogSpec.MaybeAppend(0, 0, f.log, f.committed, prev, TermAt(r.log, prev), r.committed, ents);
      Accepted(f.log, f.committed, prev, TermAt(r.log, prev), r.committed, ents);
      if !a.ok { assert f.(log := f.log, committed := f.committed, fault := f.fault || false) == f; }
    }
  }

  lemma RequestHandled(cfg: Config, f: Fsm, m: Message)
    requires f.state == StateFollower && f.leader == m.from && m.term == f.term && m.body.ReqAppend?
    ensures Handle(cfg, f, Recv(m)) == HandleAppend(cfg, f, m.from, m.body.index, m.body.logTerm, m.body.commit, m.body.ents)
  {
    hide HandleAppend;
    assert f.(leader := m.from) == f;
  }

  lemma Accepted(log: seq<Entry>, committed: nat, index: nat, logTerm: nat, commit: nat, ents: seq<Entry>)
    requires Consecutive(ents, index)
    ensures var a := LogSpec.MaybeAppend(0, 0, log, committed, index, logTerm, commit, ents);
      (TermAt(log, index) != logTerm ==> !a.ok) && (TermAt(log, index) == logTerm && !a.panic ==> a.ok)
  {
    hide FindConflict;
    ConflictPlace(0, 0, log, ents, index);
  }

  /** Adopting a leader's entries keeps what was the same. */
  lemma AdoptKeeps(ll: map<nat, seq<Entry>>, log: seq<Entry>, leaders: seq<Entry>, j: nat, i: nat)
    requires LogOk(ll, log) && LogOk(ll, leaders) && j <= |leaders| && SamePrefix(log, leaders, i)
    ensures var a := C.Adopt(log, leaders, j); LogOk(ll, a) && SamePrefix(a, leaders, i) && SamePrefix(a, leaders, j)
  {
    LogOkPrefix(ll, leaders, j);
    hide LogOk;
    if j <= i { assert log[..j] == log[..i][..j] == leaders[..i][..j] == leaders[..j]; }
    var a := C.Adopt(log, leaders, j);
    if i <= j { assert a[..i] == a[..j][..i] == leaders[..j][..i] == leaders[..i]; }
  }

  // ---- drawing out a request ----

  /** A heartbeat tick, and heartbeat answers until a request goes out: two at most. */
  ghost function Nudge(cfg: Config, r: Fsm, k: Id): Res {
    var a := Answer(cfg, Handle(cfg, r, ResumeTick).r, k);
    if a.out != {} then a else Answer(cfg, a.r, k)
  }

  /** Progress that a heartbeat answer may leave behind. */
  ghost predicate Nudged(log: seq<Entry>, p: Progress, q: Progress) {
    && q.state == p.state && q.cap == p.cap && q.matched == p.matched && q.committed == p.committed && q.Ordered()
    && (p.state == Probe ==> q.next == p.next) && p.next <= q.next <= |log| + 1
  }

  lemma FreedNudged(log: seq<Entry>, p: Progress)
    requires p.Ordered() && p.next <= |log| + 1
    ensures Nudged(log, p, Freed(p))
  {
    if p.state == Replicate && p.Full() && p.window != [] { DropFirst(p.window, p.matched, p.next); }
  }

  lemma SentNudged(ll: map<nat, seq<Entry>>, cfg: Config, log: seq<Entry>, p: Progress)
    requires p.Ordered() && 1 <= p.next <= |log| + 1 && !p.IsPaused() && LogOk(ll, log)
    ensures Nudged(log, p, Sent(p, Batch(cfg, log, p.next)))
  {
    SimSend.BatchEnds(cfg, ll, log, p.next);
    var e := Batch(cfg, log, p.next);
    if e != [] && p.state == Replicate { SendKeeps(p, e[|e| - 1].index); }
  }

  lemma AnswerNudges(ll: map<nat, seq<Entry>>, cfg: Config, r: Fsm, k: Id)
    requires Fit(r, k) && LogOk(ll, r.log)
    ensures var a := Answer(cfg, r, k);
      && GoesOn(r, a.r) && Fit(a.r, k) && Nudged(r.log, r.replicas[k], a.r.replicas[k]) && !a.r.replicas[k].pending
      && a.r.committed == r.committed
  {
    hide Handle, LogOk, Batch, Sent;
    AnswerExactly(cfg, r, k);
    var p := r.replicas[k];
    FreedNudged(r.log, p);
    FreedOpens(p);
    if CanSend(p) { SentNudged(ll, cfg, r.log, Freed(p)); }
  }

  lemma ResumeNudges(cfg: Config, r: Fsm, k: Id)
    requires Fit(r, k)
    ensures var r1 := Handle(cfg, r, ResumeTick).r;
      && GoesOn(r, r1) && Fit(r1, k) && r1.replicas[k] == r.replicas[k].(paused := false) && r1.committed == r.committed
  {
    hide Handle;
    ResumeExactly(cfg, r, k);
  }

  lemma NudgeSends(ll: map<nat, seq<Entry>>, cfg: Config, r: Fsm, k: Id)
    requires Fit(r, k) && LogOk(ll, r.log) && Lags(r, k)
    ensures var n := Nudge(cfg, r, k);
      && n.out == {Request(cfg, r, k)} && GoesOn(r, n.r) && n.r.committed == r.committed && Fit(n.r, k)
      && Nudged(r.log, r.replicas[k], n.r.replicas[k])
  {
    hide Handle, LogOk, Batch, TermIn, AfterAnswer;
    ResumeNudges(cfg, r, k);
    var r1 := Handle(cfg, r, ResumeTick).r;
    AnswerNudges(ll, cfg, r1, k);
    AnswerExactly(cfg, r1, k);
    assert Request(cfg, r1, k) == Request(cfg, r, k);
    if r1.replicas[k].pending {
      AfterWaiting(cfg, r1, k);
      var r2 := Answer(cfg, r1, k).r;
      AnswerNudges(ll, cfg, r2, k);
      AnswerExactly(cfg, r2, k);
      assert Request(cfg, r2, k) == Request(cfg, r1, k);
    }
  }

  // ---- the leader takes the answer ----

  lemma SendFits(ll: map<nat, seq<Entry>>, cfg: Config, r: Fsm, k: Id)
    requires Fit(r, k) && LogOk(ll, r.log)
    ensures var a := SendAppend(cfg, r, k).r;
      GoesOn(r, a) && Fit(a, k) && Nudged(r.log, r.replicas[k], a.replicas[k]) && a.committed == r.committed
  {
    hide LogOk, Batch, Sent, Progress.IsPaused, SendAppend;
    SendExactly(cfg, r, k);
    if !r.replicas[k].IsPaused() { SentNudged(ll, cfg, r.log, r.replicas[k]); }
  }

  lemma BcastFits(ll: map<nat, seq<Entry>>, cfg: Config, r: Fsm, k: Id)
    requires Fit(r, k) && LogOk(ll, r.log)
    ensures var a := BcastAppend(cfg, r).r;
      GoesOn(r, a) && Fit(a, k) && Nudged(r.log, r.replicas[k], a.replicas[k]) && a.committed == r.committed
  {
    hide LogOk, Batch, Sent, Progress.IsPaused;
    if !r.replicas[k].IsPaused() { SentNudged(ll, cfg, r.log, r.replicas[k]); }
  }

  lemma CommitFits(r: Fsm, k: Id)
    requires Fit(r, k)
    ensures var a := MaybeCommit(r); GoesOn(r, a) && Fit(a, k) && a.replicas[k] == r.replicas[k]
  {
    hide Matches, QuorumIndex.Agreed, TermIn;
  }

  function AckFrom(r: Fsm, k: Id, index: nat, commit: nat): Message { Message(k, r.id, r.term, RespAppend(false, index, commit, 0)) }

  function RejectFrom(r: Fsm, k: Id, index: nat, commit: nat, last: nat): Message {
    Message(k, r.id, r.term, RespAppend(true, index, commit, last))
  }

  /** The leader's note that the follower is there. */
  function Noted(r: Fsm, k: Id): Fsm
    requires k in r.replicas
  {
    WithProgress(r, k, r.replicas[k].(active := true))
  }

  lemma ReplyHandled(cfg: Config, r: Fsm, k: Id, index: nat, commit: nat, last: nat)
    requires Leads(r, k) && r.term >= 1
    ensures Handle(cfg, r, Recv(AckFrom(r, k, index, commit))) == LeaderAck(cfg, Noted(r, k), k, index, commit)
    ensures Handle(cfg, r, Recv(RejectFrom(r, k, index, commit, last))) == LeaderReject(cfg, Noted(r, k), k, index, last, commit)
  {
    hide LeaderAck, LeaderReject;
  }

  lemma AcknowledgedFits(p: Progress, log: seq<Entry>, index: nat, commit: nat)
    requires p.Ordered() && p.state != Snapshot && 1 <= p.next <= |log| + 1 && index <= |log|
    ensures index > p.matched ==> var q := Acknowledged(p, index, commit);
      && q.state == Replicate && q.cap == p.cap && q.matched == index && q.committed == Max(p.committed, commit)
      && q.Ordered() && 1 <= q.next <= |log| + 1
    ensures index <= p.matched ==> var q := p.MaybeUpdate(index, commit);
      && q.state == p.state && q.cap == p.cap && q.matched == p.matched && q.committed == Max(p.committed, commit)
      && q.Ordered() && q.next == Max(p.next, index + 1) <= |log| + 1
  {
    if index > p.matched && p.state == Replicate { UpdateKeeps(p, index, commit); }
  }

  lemma AckTaken(ll: map<nat, seq<Entry>>, cfg: Config, r: Fsm, k: Id, index: nat, commit: nat)
    requires Fit(r, k) && LogOk(ll, r.log) && index <= |r.log|
    ensures var a, p := Handle(cfg, r, Recv(AckFrom(r, k, index, commit))).r, r.replicas[k];
      && GoesOn(r, a) && Fit(a, k) && a.replicas[k].matched == Max(p.matched, index)
      && a.replicas[k].committed == Max(p.committed, commit)
      && (index <= p.matched ==>
            a.replicas[k].state == p.state && a.replicas[k].next == Max(p.next, index + 1) && a.committed == r.committed)
  {
    hide Handle, LogOk, Acknowledged, MaybeCommit, Commits, BcastAppend, SendAppend, Progress.Ordered, Progress.MaybeUpdate;
    ReplyHandled(cfg, r, k, index, commit, 0);
    var r0 := Noted(r, k);
    NotedFits(r, k);
    var p := r0.replicas[k];
    AcknowledgedFits(p, r.log, index, commit);
    if index > p.matched {
      var r1 := WithProgress(r0, k, Acknowledged(p, index, commit));
      CommitFits(r1, k);
      BcastFits(ll, cfg, MaybeCommit(r1), k);
      SendFits(ll, cfg, MaybeCommit(r1), k);
    }
  }

  lemma NotedFits(r: Fsm, k: Id)
    requires Fit(r, k)
    ensures Fit(Noted(r, k), k) && Noted(r, k).replicas[k] == r.replicas[k].(active := true)
  {}

  lemma RejectTaken(ll: map<nat, seq<Entry>>, cfg: Config, r: Fsm, k: Id, index: nat, commit: nat, last: nat)
    requires Fit(r, k) && LogOk(ll, r.log) && r.replicas[k].TakesReject(index)
    ensures var a, p := Handle(cfg, r, Recv(RejectFrom(r, k, index, commit, last))).r, r.replicas[k];
      && GoesOn(r, a) && Fit(a, k) && a.committed == r.committed && a.replicas[k].matched == p.matched && a.replicas[k].state == Probe
      && a.replicas[k].next == (if p.state == Replicate then p.matched + 1 else Max(1, Min(index, last + 1)))
      && a.replicas[k].committed == (if p.state == Replicate then Max(p.committed, commit) else commit)
    ensures var a := Handle(cfg, r, Recv(RejectFrom(r, k, index, commit, last))); a.out == {Request(cfg, a.r, k)}
  {
    hide Handle, LogOk, SendAppend, Batch, TermIn;
    ReplyHandled(cfg, r, k, index, commit, last);
    NotedFits(r, k);
    var p := Noted(r, k).replicas[k];
    DecrKeeps(p, index, last, commit);
    var q := p.MaybeDecrTo(index, last, commit);
    var r1 := WithProgress(Noted(r, k), k, if q.state == Replicate then q.BecomeProbe() else q);
    SendFits(ll, cfg, r1, k);
    SendExactly(cfg, r1, k);
  }

  /** A rejection that is not taken only tells the leader that the follower is there. */
  lemma RejectStale(cfg: Config, r: Fsm, k: Id, index: nat, commit: nat, last: nat)
    requires Leads(r, k) && r.term >= 1 && !r.replicas[k].TakesReject(index)
    ensures var a, p := Handle(cfg, r, Recv(RejectFrom(r, k, index, commit, last))), r.replicas[k];
      && a.out == {} && a.r == r.(replicas := a.r.replicas) && a.r.replicas.Keys == r.replicas.Keys
      && a.r.replicas[k] == p.(active := true, committed := a.r.replicas[k].committed)
  {
    hide Handle;
    ReplyHandled(cfg, r, k, index, commit, last);
  }

  // ---- one exchange ----

  /** A request is drawn out, reaches the follower, and its answer reaches the leader. Anything else may be lost. */
  ghost function Exchange(cfg: Config, r: Fsm, f: Fsm): (Fsm, Fsm)
    requires f.id in r.replicas && r.replicas[f.id].next >= 1
  {
    var n := Nudge(cfg, r, f.id);
    var a := Handle(cfg, f, Recv(Request(cfg, r, f.id)));
    if exists m :: a.out == {m} then var m :| a.out == {m}; (Handle(cfg, n.r, Recv(m)).r, a.r) else (n.r, a.r)
  }

  /** How far the leader is from having found where the logs part: further while replicating, then step by step. */
  function Distance(r: Fsm, k: Id): nat
    requires k in r.replicas
  {
    var p := r.replicas[k];
    if p.state == Replicate then 3 * |r.log| + 4
    else if p.next > p.matched then p.next
    else |r.log| + 2 + (p.matched - p.next)
  }

  ghost predicate Closer(r: Fsm, r': Fsm, k: Id)
    requires k in r.replicas && k in r'.replicas
  {
    r'.replicas[k].matched > r.replicas[k].matched
    || (r'.replicas[k].matched == r.replicas[k].matched && Distance(r', k) < Distance(r, k))
  }

  /** What one exchange achieves. */
  ghost predicate Achieves(ll: map<nat, seq<Entry>>, r: Fsm, f: Fsm, r': Fsm, f': Fsm) {
    && Pair(ll, r, f) && Pair(ll, r', f') && f'.id == f.id && GoesOn(r, r') && f.committed <= f'.committed
    && (r.replicas[f.id].committed <= f.committed ==> r'.replicas[f.id].committed <= f'.committed)
    && (Lags(r', f.id) ==> Closer(r, r', f.id))
  }

  /** The follower already has more committed than the request attaches to. */
  lemma ExchangeBelow(ll: map<nat, seq<Entry>>, cfg: Config, r: Fsm, f: Fsm)
    requires Pair(ll, r, f) && Lags(r, f.id) && r.replicas[f.id].next - 1 < f.committed
    ensures var (r', f') := Exchange(cfg, r, f); Achieves(ll, r, f, r', f')
  {
    hide Handle, LogOk, Batch, TermIn, C.Adopt;
    var k := f.id;
    FollowerExactly(ll, cfg, r, f);
    NudgeSends(ll, cfg, r, k);
    var n, m := Nudge(cfg, r, k).r, AckFrom(r, k, f.committed, f.committed);
    AckTaken(ll, cfg, n, k, f.committed, f.committed);
    Delivered(cfg, r, f, f, m);
    hide Exchange, Nudge;
  }

  lemma Delivered(cfg: Config, r: Fsm, f: Fsm, f': Fsm, m: Message)
    requires f.id in r.replicas && r.replicas[f.id].next >= 1 && Handle(cfg, f, Recv(Request(cfg, r, f.id))) == Res(f', {m})
    ensures Exchange(cfg, r, f) == (Handle(cfg, Nudge(cfg, r, f.id).r, Recv(m)).r, f')
  {
    hide Handle, Nudge;
    assert m in {m};
  }

  /** The follower disagrees where the request attaches. */
  lemma ExchangeRejected(ll: map<nat, seq<Entry>>, cfg: Config, r: Fsm, f: Fsm)
    requires Pair(ll, r, f) && Lags(r, f.id) && r.replicas[f.id].next - 1 >= f.committed
    requires var prev := r.replicas[f.id].next - 1; TermAt(f.log, prev) != TermAt(r.log, prev)
    ensures var (r', f') := Exchange(cfg, r, f); Achieves(ll, r, f, r', f')
  {
    hide Handle, LogOk, Batch, C.Adopt;
    var k, p := f.id, r.replicas[f.id];
    SameTerm(f.log, r.log, p.matched, p.next - 1);
    hide TermIn;
    FollowerExactly(ll, cfg, r, f);
    NudgeSends(ll, cfg, r, k);
    var n := Nudge(cfg, r, k).r;
    RejectTaken(ll, cfg, n, k, p.next - 1, f.committed, |f.log|);
    Delivered(cfg, r, f, f, RejectFrom(r, k, p.next - 1, f.committed, |f.log|));
    hide Exchange, Nudge;
  }

  lemma SameTerm(a: seq<Entry>, b: seq<Entry>, i: nat, j: nat)
    requires SamePrefix(a, b, i)
    ensures j <= i ==> TermAt(a, j) == TermAt(b, j)
  {
    if 0 < j <= i { assert a[j - 1] == a[..i][j - 1] == b[..i][j - 1]; }
  }

  /** The follower takes the entries. */
  lemma ExchangeAccepted(ll: map<nat, seq<Entry>>, cfg: Config, r: Fsm, f: Fsm)
    requires Pair(ll, r, f) && Lags(r, f.id) && r.replicas[f.id].next - 1 >= f.committed
    requires var prev := r.replicas[f.id].next - 1; TermAt(f.log, prev) == TermAt(r.log, prev)
    ensures var (r', f') := Exchange(cfg, r, f); Achieves(ll, r, f, r', f')
  {
    hide Handle, LogOk, Batch, TermIn, C.Adopt;
    var k, p := f.id, r.replicas[f.id];
    FollowerExactly(ll, cfg, r, f);
    RequestCarries(cfg, r, k);
    var j := p.next - 1 + |Request(cfg, r, k).body.ents|;
    var f' := f.(log := C.Adopt(f.log, r.log, j), committed := Max(f.committed, Min(r.committed, j)));
    AdoptKeeps(ll, f.log, r.log, j, f.committed);
    AdoptKeeps(ll, f.log, r.log, j, p.matched);
    NudgeSends(ll, cfg, r, k);
    var n := Nudge(cfg, r, k).r;
    AckTaken(ll, cfg, n, k, j, f'.committed);
    Delivered(cfg, r, f, f', AckFrom(r, k, j, f'.committed));
    hide Exchange, Nudge;
  }

  lemma ExchangeAchieves(ll: map<nat, seq<Entry>>, cfg: Config, r: Fsm, f: Fsm)
    requires Pair(ll, r, f) && Lags(r, f.id)
    ensures var (r', f') := Exchange(cfg, r, f); Achieves(ll, r, f, r', f')
  {
    hide Exchange, Achieves, TermIn;
    var prev := r.replicas[f.id].next - 1;
    if prev < f.committed {
      ExchangeBelow(ll, cfg, r, f);
    } else if TermAt(f.log, prev) != TermAt(r.log, prev) {
      ExchangeRejected(ll, cfg, r, f);
    } else {
      ExchangeAccepted(ll, cfg, r, f);
    }
  }

  // ---- as many exchanges as it takes ----

  ghost function Exchanges(cfg: Config, r: Fsm, f: Fsm, n: nat): (Fsm, Fsm)
    decreases n
  {
    if n == 0 || f.id !in r.replicas || r.replicas[f.id].next < 1 then (r, f)
    else var (r', f') := Exchange(cfg, r, f); Exchanges(cfg, r', f', n - 1)
  }

  /** A bound on the exchanges still needed. */
  function Rank(r: Fsm, k: Id): nat
    requires k in r.replicas && r.replicas[k].matched <= |r.log|
  {
    (|r.log| - r.replicas[k].matched) * (3 * |r.log| + 5) + Distance(r, k)
  }

  lemma RankFalls(r: Fsm, r': Fsm, k: Id)
    requires Fit(r, k) && Fit(r', k) && r'.log == r.log && Closer(r, r', k)
    ensures Rank(r', k) < Rank(r, k)
  {
    var l, m, m' := |r.log|, r.replicas[k].matched, r'.replicas[k].matched;
    assert Distance(r', k) < 3 * l + 5;
    if m' > m { Products(l - m', l - m, 3 * l + 5); }
  }

  lemma Products(a: nat, b: nat, c: nat)
    requires a < b
    ensures a * c + c <= b * c
  {
    assert (a + 1) * c <= b * c;
  }

  /** The follower has caught up with the leader. */
  ghost predicate CaughtUp(r: Fsm, f: Fsm, r': Fsm, f': Fsm) {
    && f.id in r.replicas && f'.id == f.id && f.id in r'.replicas && GoesOn(r, r')
    && r'.replicas[f.id].matched == |r.log| && r.log <= f'.log && r'.replicas[f.id].committed >= r'.committed
    && (r.replicas[f.id].committed <= f.committed ==> f'.committed >= r'.committed)
  }

  /** Over an unchanged log the follower catches up, within the bound. */
  lemma {:induction false} CatchesUp(ll: map<nat, seq<Entry>>, cfg: Config, r: Fsm, f: Fsm) returns (n: nat)
    requires Pair(ll, r, f)
    ensures f.id in r.replicas && r.replicas[f.id].matched <= |r.log| && n <= Rank(r, f.id) + 1
    ensures var (r', f') := Exchanges(cfg, r, f, n); CaughtUp(r, f, r', f')
    decreases if f.id in r.replicas && r.replicas[f.id].matched <= |r.log| then Rank(r, f.id) else 0
  {
    hide Pair, Rank, Exchange, Exchanges, Achieves, CaughtUp;
    PairFits(ll, r, f);
    if Lags(r, f.id) {
      ExchangeAchieves(ll, cfg, r, f);
      var (r1, f1) := Exchange(cfg, r, f);
      AchievesPair(ll, r, f, r1, f1);
      var m := 0;
      if Lags(r1, f.id) {
        m := CatchesUp(ll, cfg, r1, f1);
      } else {
        UpToDate(ll, r1, f1);
        NoExchange(cfg, r1, f1);
      }
      n := m + 1;
      OneMore(cfg, r, f, m);
      var (r2, f2) := Exchanges(cfg, r1, f1, m);
      Onwards(ll, r, f, r1, f1, r2, f2);
    } else {
      n := 0;
      UpToDate(ll, r, f);
      NoExchange(cfg, r, f);
    }
  }

  lemma PairFits(ll: map<nat, seq<Entry>>, r: Fsm, f: Fsm)
    requires Pair(ll, r, f)
    ensures f.id in r.replicas && r.replicas[f.id].next >= 1 && r.replicas[f.id].matched <= |r.log|
  {}

  lemma NoExchange(cfg: Config, r: Fsm, f: Fsm)
    ensures Exchanges(cfg, r, f, 0) == (r, f)
  {
    hide Exchange;
  }

  lemma OneMore(cfg: Config, r: Fsm, f: Fsm, n: nat)
    requires f.id in r.replicas && r.replicas[f.id].next >= 1
    ensures var (r1, f1) := Exchange(cfg, r, f); Exchanges(cfg, r, f, n + 1) == Exchanges(cfg, r1, f1, n)
  {
    hide Exchange;
  }

  lemma UpToDate(ll: map<nat, seq<Entry>>, r: Fsm, f: Fsm)
    requires Pair(ll, r, f) && !Lags(r, f.id)
    ensures CaughtUp(r, f, r, f)
  {
    assert r.log == r.log[..|r.log|];
  }

  lemma AchievesPair(ll: map<nat, seq<Entry>>, r: Fsm, f: Fsm, r': Fsm, f': Fsm)
    requires Achieves(ll, r, f, r', f')
    ensures Pair(ll, r', f') && f'.id == f.id && f.id in r'.replicas && f.id in r.replicas
    ensures r.replicas[f.id].matched <= |r.log| && r'.replicas[f.id].matched <= |r'.log|
    ensures Lags(r', f.id) ==> Rank(r', f.id) < Rank(r, f.id)
  {
    hide LogOk, Progress.Ordered, Rank;
    if Lags(r', f.id) { RankFalls(r, r', f.id); }
  }

  lemma Onwards(ll: map<nat, seq<Entry>>, r: Fsm, f: Fsm, r1: Fsm, f1: Fsm, r2: Fsm, f2: Fsm)
    requires Achieves(ll, r, f, r1, f1) && CaughtUp(r1, f1, r2, f2)
    ensures CaughtUp(r, f, r2, f2)
  {
    hide LogOk, Progress.Ordered, Closer;
  }

  // ---- in every run ----

  lemma LeaderFits(cfg: Config, s: C.State, r: Fsm, k: Id)
    requires cfg.maxInflight > 0 && Good(s) && NodeSim(cfg, s, r.id, r) && r.state == StateLeader && k in r.replicas && k != r.id
    ensures Fit(r, k) && LogOk(s.ll, r.log)
  {
    hide Good, LogOk, VotesOk, Elected, Progress.Ordered;
    NodeFacts(s, r.id);
    assert ProgressOk(cfg, s, r, k, r.replicas[k]);
  }

  lemma ReachablePair(cfg: Config, servers: set<Id>, ws: seq<World>, i: nat, a: Id, k: Id) returns (ll: map<nat, seq<Entry>>)
    requires ValidConfig(cfg, servers) && Run(cfg, servers, ws) && i < |ws| && a in ws[i].nodes && k in ws[i].nodes && k != a
    requires var r, f := ws[i].nodes[a], ws[i].nodes[k];
      r.state == StateLeader && f.state == StateFollower && f.leader == a && f.term == r.term
    ensures ws[i].nodes[a].id == a && ws[i].nodes[k].id == k && Pair(ll, ws[i].nodes[a], ws[i].nodes[k])
  {
    hide Run, RaftSafety.Linked, RaftSafety.Follows, Grows, LogOk, Fit;
    var ss := RaftSafety.RunLinked(cfg, servers, ws);
    assert RaftSafety.Linked(cfg, servers, ws[i], ss[i]);
    ll := ss[i].ll;
    LinkedPair(cfg, servers, ws[i], ss[i], a, k);
    RaftSafety.MatchSound(cfg, servers, ws, i, a, k);
    RaftSafety.LeaderCompleteness(cfg, servers, ws, i, i, k, a);
  }

  lemma LinkedPair(cfg: Config, servers: set<Id>, w: World, s: C.State, a: Id, k: Id)
    requires ValidConfig(cfg, servers) && RaftSafety.Linked(cfg, servers, w, s) && a in w.nodes && k in w.nodes && k != a
    requires w.nodes[a].state == StateLeader
    ensures var r, f := w.nodes[a], w.nodes[k]; r.id == a && f.id == k && Fit(r, k) && LogOk(s.ll, r.log) && LogOk(s.ll, f.log)
  {
    hide Good, LogOk, Fit, OutOk, VotesOk, Elected, ProgressInv;
    assert NodeSim(cfg, s, a, w.nodes[a]) && NodeSim(cfg, s, k, w.nodes[k]);
    LeaderFits(cfg, s, w.nodes[a], k);
    NodeFacts(s, k);
  }

  /**
   In every reachable state, whatever was lost before, a follower that knows its leader catches up with it in finitely
   many exchanges: it then holds all of the leader's log, and the leader knows.
   */
  lemma FollowersCatchUp(cfg: Config, servers: set<Id>, ws: seq<World>, i: nat, a: Id, k: Id) returns (n: nat)
    requires ValidConfig(cfg, servers) && Run(cfg, servers, ws) && i < |ws| && a in ws[i].nodes && k in ws[i].nodes && k != a
    requires var r, f := ws[i].nodes[a], ws[i].nodes[k];
      r.state == StateLeader && f.state == StateFollower && f.leader == a && f.term == r.term
    ensures var r, f := ws[i].nodes[a], ws[i].nodes[k]; var (r', f') := Exchanges(cfg, r, f, n);
      k in r.replicas && r.replicas[k].matched <= |r.log| && n <= Rank(r, k) + 1 && CaughtUp(r, f, r', f')
  {
    hide Run, Pair, Exchanges, CaughtUp, Rank;
    var ll := ReachablePair(cfg, servers, ws, i, a, k);
    n := CatchesUp(ll, cfg, ws[i].nodes[a], ws[i].nodes[k]);
  }
}
