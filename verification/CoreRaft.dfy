/**
 The protocol with its messages abstracted away: nodes act on what has been said so far,
 recorded in history variables that only grow. A log window that a leader offered, a vote
 that was asked for or granted and an index that was acknowledged stay known forever, which
 is what a network that loses, repeats and reorders messages amounts to.
 */
module CoreRaft {
  import opened RaftTypes

  datatype Role = Follower | Candidate | Leader

  datatype Node = Node(term: nat, vote: Id, role: Role, log: seq<Entry>,
                       commit: nat, applied: nat, pending: bool)

  /**
   `ll[t]` is the log of the leader of term t, `who[t]` that leader and `electors[t]` the majority
   that elected it. `camp[(t, c)]` is the log c campaigned with. `votes` holds (term, voter, candidate),
   `ack[(t, v)]` the highest index v acknowledged to the leader of t, and `sends` the
   (term, last index, commit index) triples of the append requests offered so far.
   */
  datatype State = State(
    servers: set<Id>,
    nodes: map<Id, Node>,
    ll: map<nat, seq<Entry>>,
    who: map<nat, Id>,
    electors: map<nat, set<Id>>,
    camp: map<(nat, Id), seq<Entry>>,
    votes: set<(nat, Id, Id)>,
    ack: map<(nat, Id), nat>,
    sends: set<(nat, nat, nat)>)

  datatype Action =
    | UpdateTerm(v: Id, t: nat)
    | StepDown(v: Id)
    | Campaign(v: Id)
    | GrantVote(v: Id, c: Id)
    | BecomeLeader(v: Id, q: set<Id>)
    | LeaderAppend(v: Id, ents: seq<Entry>)
    | LeaderCommit(v: Id, k: nat, q: set<Id>)
    | Send(v: Id)
    | Accept(v: Id, j: nat, k: nat)
    | AckCommit(v: Id)
    | ApplyAll(v: Id)

  function LastTerm(log: seq<Entry>): nat {
    if log == [] then 0 else log[|log| - 1].term
  }

  predicate UpToDate(mine: seq<Entry>, theirs: seq<Entry>) {
    LastTerm(theirs) > LastTerm(mine) || (LastTerm(theirs) == LastTerm(mine) && |theirs| >= |mine|)
  }

  predicate IsConf(e: Entry) { e.payload.Conf? }

  /** Configuration entries of `log` above index a. */
  function ConfsAbove(log: seq<Entry>, a: nat): nat
    decreases |log|
  {
    if |log| <= a then 0
    else ConfsAbove(log[..|log| - 1], a) + (if IsConf(log[|log| - 1]) then 1 else 0)
  }

  ghost predicate Acked(s: State, t: nat, v: Id, i: nat) {
    (t, v) in s.ack && i <= s.ack[(t, v)]
  }

  function RaiseAck(ack: map<(nat, Id), nat>, t: nat, v: Id, i: nat): map<(nat, Id), nat> {
    ack[(t, v) := if (t, v) in ack then Max(ack[(t, v)], i) else i]
  }

  /** The follower's log once it holds the leader's first j entries: cut only at a disagreement. */
  function Adopt(log: seq<Entry>, leaders: seq<Entry>, j: nat): seq<Entry>
    requires j <= |leaders|
  {
    if j <= |log| && log[..j] == leaders[..j] then log else leaders[..j]
  }

  // ---- what each action needs and does ----

  ghost predicate CanCampaign(s: State, v: Id) {
    v in s.nodes && var n := s.nodes[v];
    n.role != Leader && n.commit <= |n.log| && ConfsAbove(n.log[..n.commit], n.applied) == 0
  }

  ghost function DoCampaign(s: State, v: Id): State
    requires v in s.nodes
  {
    var n := s.nodes[v];
    s.(nodes := s.nodes[v := n.(term := n.term + 1, vote := v, role := Candidate)],
       camp := s.camp[(n.term + 1, v) := n.log],
       votes := s.votes + {(n.term + 1, v, v)})
  }

  ghost predicate CanGrant(s: State, v: Id, c: Id) {
    v in s.nodes && var n := s.nodes[v];
    && n.role == Follower && c != NO_LEADER && (n.vote == NO_LEADER || n.vote == c)
    && (n.term, c) in s.camp && UpToDate(n.log, s.camp[(n.term, c)])
  }

  ghost function DoGrant(s: State, v: Id, c: Id): State
    requires v in s.nodes
  {
    var n := s.nodes[v];
    s.(nodes := s.nodes[v := n.(vote := c)], votes := s.votes + {(n.term, v, c)})
  }

  ghost predicate VotedBy(s: State, t: nat, v: Id, q: set<Id>) {
    IsQuorum(s.servers, q) && forall x :: x in q ==> (t, x, v) in s.votes
  }

  ghost predicate CanLead(s: State, v: Id, q: set<Id>) {
    v in s.nodes && var n := s.nodes[v];
    n.role == Candidate && VotedBy(s, n.term, v, q)
  }

  /** The log a new leader starts from: its own, and an empty entry of its term. */
  function FirstLog(n: Node): seq<Entry> {
    n.log + [Entry(n.term, |n.log| + 1, Normal([]))]
  }

  ghost function DoLead(s: State, v: Id, q: set<Id>): State
    requires v in s.nodes
  {
    var n := s.nodes[v];
    s.(nodes := s.nodes[v := n.(role := Leader, log := FirstLog(n), pending := ConfsAbove(n.log, n.commit) > 0)],
       ll := s.ll[n.term := FirstLog(n)], who := s.who[n.term := v], electors := s.electors[n.term := q],
       ack := RaiseAck(s.ack, n.term, v, |n.log| + 1))
  }

  ghost predicate CanAppend(s: State, v: Id, ents: seq<Entry>) {
    v in s.nodes && var n := s.nodes[v];
    && n.role == Leader
    && (forall i :: 0 <= i < |ents| ==> ents[i].term == n.term && ents[i].index == |n.log| + i + 1)
    && ConfsAbove(ents, 0) <= (if n.pending then 0 else 1)
  }

  ghost function DoAppend(s: State, v: Id, ents: seq<Entry>): State
    requires v in s.nodes
  {
    var n := s.nodes[v];
    s.(nodes := s.nodes[v := n.(log := n.log + ents, pending := n.pending || ConfsAbove(ents, 0) > 0)],
       ll := s.ll[n.term := n.log + ents], ack := RaiseAck(s.ack, n.term, v, |n.log + ents|))
  }

  ghost predicate CanCommit(s: State, v: Id, k: nat, q: set<Id>) {
    v in s.nodes && var n := s.nodes[v];
    && n.role == Leader && n.commit < k <= |n.log| && n.log[k - 1].term == n.term
    && IsQuorum(s.servers, q) && (forall x :: x in q ==> Acked(s, n.term, x, k))
  }

  ghost function DoCommit(s: State, v: Id, k: nat): State
    requires v in s.nodes
  {
    s.(nodes := s.nodes[v := s.nodes[v].(commit := k)])
  }

  ghost predicate CanSend(s: State, v: Id) {
    v in s.nodes && s.nodes[v].role == Leader
  }

  /** A leader may offer any prefix of its log, with the commit index it has now. */
  ghost function DoSend(s: State, v: Id): State
    requires v in s.nodes
  {
    var n := s.nodes[v];
    s.(sends := s.sends + set j | 0 <= j <= |n.log| :: (n.term, j, n.commit))
  }

  ghost predicate CanAccept(s: State, v: Id, j: nat, k: nat) {
    v in s.nodes && var n := s.nodes[v];
    n.role != Leader && n.term in s.ll && j <= |s.ll[n.term]| && (n.term, j, k) in s.sends
  }

  ghost function DoAccept(s: State, v: Id, j: nat, k: nat): State
    requires v in s.nodes && s.nodes[v].term in s.ll && j <= |s.ll[s.nodes[v].term]|
  {
    var n := s.nodes[v];
    s.(nodes := s.nodes[v := n.(role := Follower, log := Adopt(n.log, s.ll[n.term], j), commit := Max(n.commit, Min(k, j)))],
       ack := RaiseAck(s.ack, n.term, v, j))
  }

  ghost predicate CanAckCommit(s: State, v: Id) {
    v in s.nodes && s.nodes[v].role != Leader && s.nodes[v].term in s.ll
  }

  ghost function DoAckCommit(s: State, v: Id): State
    requires v in s.nodes
  {
    var n := s.nodes[v];
    s.(nodes := s.nodes[v := n.(role := Follower)], ack := RaiseAck(s.ack, n.term, v, n.commit))
  }

  ghost function DoUpdateTerm(s: State, v: Id, t: nat): State
    requires v in s.nodes
  {
    s.(nodes := s.nodes[v := s.nodes[v].(term := t, vote := NO_LEADER, role := Follower)])
  }

  ghost function DoStepDown(s: State, v: Id): State
    requires v in s.nodes
  {
    s.(nodes := s.nodes[v := s.nodes[v].(role := Follower)])
  }

  /** Hands out everything committed; a leader's pending configuration entry is done once handed out. */
  ghost function DoApply(s: State, v: Id): State
    requires v in s.nodes && s.nodes[v].commit <= |s.nodes[v].log|
  {
    var n := s.nodes[v];
    s.(nodes := s.nodes[v := n.(applied := Max(n.applied, n.commit),
                                pending := n.pending && ConfsAbove(n.log[..n.commit], n.applied) == 0)])
  }

  // ---- the transition relation ----

  ghost predicate Enabled(s: State, a: Action) {
    a.v in s.nodes &&
    match a
    case UpdateTerm(v, t) => s.nodes[v].term < t
    case StepDown(v) => true
    case Campaign(v) => CanCampaign(s, v)
    case GrantVote(v, c) => CanGrant(s, v, c)
    case BecomeLeader(v, q) => CanLead(s, v, q)
    case LeaderAppend(v, ents) => CanAppend(s, v, ents)
    case LeaderCommit(v, k, q) => CanCommit(s, v, k, q)
    case Send(v) => CanSend(s, v)
    case Accept(v, j, k) => CanAccept(s, v, j, k)
    case AckCommit(v) => CanAckCommit(s, v)
    case ApplyAll(v) => s.nodes[v].commit <= |s.nodes[v].log|
  }

  ghost function Step(s: State, a: Action): State
    requires Enabled(s, a)
  {
    match a
    case UpdateTerm(v, t) => DoUpdateTerm(s, v, t)
    case StepDown(v) => DoStepDown(s, v)
    case Campaign(v) => DoCampaign(s, v)
    case GrantVote(v, c) => DoGrant(s, v, c)
    case BecomeLeader(v, q) => DoLead(s, v, q)
    case LeaderAppend(v, ents) => DoAppend(s, v, ents)
    case LeaderCommit(v, k, q) => DoCommit(s, v, k)
    case Send(v) => DoSend(s, v)
    case Accept(v, j, k) => DoAccept(s, v, j, k)
    case AckCommit(v) => DoAckCommit(s, v)
    case ApplyAll(v) => DoApply(s, v)
  }

  function InitNode(): Node { Node(0, NO_LEADER, Follower, [], 0, 0, false) }

  function Init(servers: set<Id>): State {
    State(servers, map v | v in servers :: InitNode(), map[], map[], map[], map[], {}, map[], {})
  }

  /** The actions, all of them v's, are enabled one after the other and lead from s to s'. */
  ghost predicate Path(s: State, s': State, v: Id, acts: seq<Action>)
    decreases |acts|
  {
    if acts == [] then s' == s
    else acts[0].v == v && Enabled(s, acts[0]) && Path(Step(s, acts[0]), s', v, acts[1..])
  }

  /** Some actions of v lead from s to s'. */
  ghost predicate Reaches(s: State, s': State, v: Id) {
    exists acts :: Path(s, s', v, acts)
  }

  lemma ReachesHere(s: State, v: Id)
    ensures Reaches(s, s, v)
  {
    assert Path(s, s, v, []);
  }

  lemma ReachesBy(s: State, a: Action)
    requires Enabled(s, a)
    ensures Reaches(s, Step(s, a), a.v)
  {
    hide Enabled, Step;
    assert [a][1..] == [];
    assert Path(s, Step(s, a), a.v, [a]);
  }

  lemma {:induction false} PathOn(s: State, s1: State, s2: State, v: Id, acts: seq<Action>, more: seq<Action>)
    requires Path(s, s1, v, acts) && Path(s1, s2, v, more)
    ensures Path(s, s2, v, acts + more)
    decreases |acts|
  {
    hide Enabled, Step;
    if acts == [] {
      assert acts + more == more;
    } else {
      assert (acts + more)[1..] == acts[1..] + more;
      PathOn(Step(s, acts[0]), s1, s2, v, acts[1..], more);
    }
  }

  lemma ReachesOn(s: State, s1: State, s2: State, v: Id)
    requires Reaches(s, s1, v) && Reaches(s1, s2, v)
    ensures Reaches(s, s2, v)
  {
    var acts, more :| Path(s, s1, v, acts) && Path(s1, s2, v, more);
    PathOn(s, s1, s2, v, acts, more);
  }
}
