/** Safety of the core protocol over all runs. */
module CoreSafety {
  import opened RaftTypes
  import opened CoreRaft
  import opened CoreInvariant
  import opened CoreElection
  import opened CoreReplication

  lemma InitInv(servers: set<Id>)
    requires NO_LEADER !in servers
    ensures Inv(Init(servers)) && ConfInv(Init(servers))
  {}

  /** Every action keeps the invariant and only adds to the history. */
  lemma StepInv(s: State, a: Action)
    requires Inv(s) && Enabled(s, a)
    ensures Grows(s, Step(s, a)) && Inv(Step(s, a))
  {
    hide Inv, Grows;
    match a
    case UpdateTerm(v, t) => UpdateTermKeeps(s, v, t);
    case StepDown(v) => StepDownKeeps(s, v);
    case Campaign(v) => CampaignKeeps(s, v);
    case GrantVote(v, c) => GrantKeeps(s, v, c);
    case BecomeLeader(v, q) => LeadKeeps(s, v, q);
    case LeaderAppend(v, ents) => AppendKeeps(s, v, ents);
    case LeaderCommit(v, k, q) => CommitKeeps(s, v, k, q);
    case Send(v) => SendKeeps(s, v);
    case Accept(v, j, k) => AcceptSent(s, v, j, k);
    case AckCommit(v) => AckCommitKeeps(s, v);
    case ApplyAll(v) => ApplyKeeps(s, v);
  }

  lemma AcceptSent(s: State, v: Id, j: nat, k: nat)
    requires Inv(s) && CanAccept(s, v, j, k)
    ensures Grows(s, DoAccept(s, v, j, k)) && Inv(DoAccept(s, v, j, k))
  {
    AcceptKeeps(s, v, j, k);
  }

  /** Prefixes of agreeing logs agree. */
  lemma PrefixesAgree<T>(a: seq<T>, b: seq<T>, l: seq<T>, m: seq<T>, ca: nat, cb: nat, j: nat, i: nat)
    requires i <= ca <= j && i <= cb && ca <= |a| && cb <= |b| && j <= |l| && j <= |m| && cb <= |m|
    requires a[..ca] == l[..ca] && b[..cb] == m[..cb] && l[..j] == m[..j]
    ensures a[..i] == b[..i]
  {
    assert a[..i] == a[..ca][..i] && b[..i] == b[..cb][..i];
    assert l[..ca][..i] == l[..j][..i] && m[..cb][..i] == m[..j][..i];
  }

  // ---- configuration entries ----

  lemma ConfsFewer(log: seq<Entry>, a: nat, b: nat)
    requires a <= b
    ensures ConfsAbove(log, b) <= ConfsAbove(log, a)
    decreases |log|
  {
    if |log| > a { ConfsFewer(log[..|log| - 1], a, b); }
  }

  lemma ConfsJoin(x: seq<Entry>, y: seq<Entry>, a: nat)
    requires a <= |x|
    ensures ConfsAbove(x + y, a) == ConfsAbove(x, a) + ConfsAbove(y, 0)
    decreases |y|
  {
    if y == [] {
      assert x + y == x;
    } else {
      var y' := y[..|y| - 1];
      ConfsJoin(x, y', a);
      assert (x + y)[..|x + y| - 1] == x + y';
    }
  }

  lemma ConfsSplit(log: seq<Entry>, a: nat, b: nat)
    requires a <= b <= |log|
    ensures ConfsAbove(log, a) == ConfsAbove(log[..b], a) + ConfsAbove(log, b)
  {
    assert log == log[..b] + log[b..];
    ConfsJoin(log[..b], log[b..], a);
    ConfsJoin(log[..b], log[b..], b);
    assert ConfsAbove(log[..b], b) == 0;
  }

  /** What keeps two configuration changes from being outstanding at once. */
  ghost predicate ConfOk(n: Node) {
    && n.applied <= n.commit <= |n.log| && ConfsAbove(n.log, n.commit) <= 1
    && (n.role == Leader ==> ConfsAbove(n.log, n.applied) <= (if n.pending then 1 else 0))
    && (n.role == Candidate ==> ConfsAbove(n.log[..n.commit], n.applied) == 0)
  }

  ghost predicate ConfSendOk(s: State, t: nat, j: nat, k: nat) {
    t in s.ll && j <= |s.ll[t]| && ConfsAbove(s.ll[t][..j], k) <= 1
  }

  ghost predicate ConfInv(s: State) {
    && (forall v :: v in s.nodes ==> ConfOk(s.nodes[v]))
    && (forall t, j, k :: (t, j, k) in s.sends ==> ConfSendOk(s, t, j, k))
  }

  lemma ConfLead(n: Node)
    requires ConfOk(n) && n.role == Candidate
    ensures ConfOk(n.(role := Leader, log := FirstLog(n), pending := ConfsAbove(n.log, n.commit) > 0))
  {
    var noop := [Entry(n.term, |n.log| + 1, Normal([]))];
    ConfsJoin(n.log, noop, n.commit);
    ConfsJoin(n.log, noop, n.applied);
    ConfsSplit(n.log, n.applied, n.commit);
    assert ConfsAbove(noop, 0) == 0 by { assert noop[..0] == []; }
  }

  lemma ConfAppend(n: Node, ents: seq<Entry>)
    requires ConfOk(n) && n.role == Leader && ConfsAbove(ents, 0) <= (if n.pending then 0 else 1)
    ensures ConfOk(n.(log := n.log + ents, pending := n.pending || ConfsAbove(ents, 0) > 0))
  {
    ConfsJoin(n.log, ents, n.applied);
    ConfsFewer(n.log + ents, n.applied, n.commit);
  }

  lemma ConfApply(n: Node)
    requires ConfOk(n)
    ensures ConfOk(n.(applied := Max(n.applied, n.commit), pending := n.pending && ConfsAbove(n.log[..n.commit], n.applied) == 0))
  {
    ConfsSplit(n.log, n.applied, n.commit);
  }

  lemma ConfAccept(n: Node, leaders: seq<Entry>, j: nat, k: nat)
    requires ConfOk(n) && j <= |leaders| && ConfsAbove(leaders[..j], k) <= 1
    requires Max(n.commit, Min(k, j)) <= |Adopt(n.log, leaders, j)|
    ensures ConfOk(n.(role := Follower, log := Adopt(n.log, leaders, j), commit := Max(n.commit, Min(k, j))))
  {
    var c := Max(n.commit, Min(k, j));
    ConfsFewer(n.log, n.commit, c);
    ConfsFewer(leaders[..j], Min(k, j), c);
  }

  lemma StepConf(s: State, a: Action)
    requires Inv(s) && ConfInv(s) && Enabled(s, a)
    ensures ConfInv(Step(s, a))
  {
    hide Inv, Grows;
    var s' := Step(s, a);
    StepInv(s, a);
    OldConfSends(s, s');
    match a
    case UpdateTerm(v, t) =>
    case StepDown(v) =>
    case Campaign(v) =>
    case GrantVote(v, c) =>
    case BecomeLeader(v, q) => ConfLead(s.nodes[v]);
    case LeaderAppend(v, ents) => ConfAppend(s.nodes[v], ents);
    case LeaderCommit(v, k, q) => ConfsFewer(s.nodes[v].log, s.nodes[v].commit, k);
    case Send(v) => ConfSend(s, v);
    case Accept(v, j, k) => ConfAcceptAt(s, v, j, k);
    case AckCommit(v) =>
    case ApplyAll(v) => ConfApply(s.nodes[v]);
  }

  lemma OldConfSends(s: State, s': State)
    requires ConfInv(s) && Grows(s, s')
    ensures forall t, j, k :: (t, j, k) in s.sends ==> ConfSendOk(s', t, j, k)
  {
    forall t, j, k | (t, j, k) in s.sends ensures ConfSendOk(s', t, j, k) {
      assert ConfSendOk(s, t, j, k) && s.ll[t] <= s'.ll[t];
      assert s'.ll[t][..j] == s.ll[t][..j];
    }
  }

  lemma ConfSend(s: State, v: Id)
    requires Inv(s) && ConfInv(s) && CanSend(s, v)
    ensures ConfInv(DoSend(s, v))
  {
    hide NodesInv, VotesInv, CampInv, LeadersInv, AcksInv, KeptInv, VotedInv, CompletenessInv, SendsInv, CommitInv;
    var s', n := DoSend(s, v), s.nodes[v];
    assert RoleOk(s, v);
    forall t, j, k | (t, j, k) in s'.sends ensures ConfSendOk(s', t, j, k) {
      if (t, j, k) in s.sends {
        assert ConfSendOk(s, t, j, k);
      } else if n.commit <= j {
        ConfsJoin(n.log[..j], n.log[j..], n.commit);
        assert n.log == n.log[..j] + n.log[j..];
      }
    }
  }

  lemma ConfAcceptAt(s: State, v: Id, j: nat, k: nat)
    requires Inv(s) && ConfInv(s) && CanAccept(s, v, j, k)
    ensures ConfOk(DoAccept(s, v, j, k).nodes[v])
  {
    hide NodesInv, VotesInv, CampInv, LeadersInv, RolesInv, AcksInv, KeptInv, VotedInv, CompletenessInv;
    var n := s.nodes[v];
    assert ConfSendOk(s, n.term, j, k);
    CommittedAgrees(s, v);
    AdoptHas(n.log, s.ll[n.term], j, n.commit);
    ConfAccept(n, s.ll[n.term], j, k);
  }
}
