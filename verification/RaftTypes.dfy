/** Values shared by every layer of the Raft model: entries, messages, majorities. */
module RaftTypes {

  /** Node identities; 0 is the `NoLeader` placeholder. */
  type Id = nat
  const NO_LEADER: Id := 0

  type Byte = x: int | 0 <= x < 256

  datatype Peer = Peer(id: Id, priority: nat)
  datatype ConfType = AddNode | RemoveNode | UpdateNode

  /** What an entry carries: application data, or a decoded configuration change. */
  datatype Payload =
    | Normal(data: seq<Byte>)
    | Conf(kind: ConfType, peer: Peer, context: seq<Byte>)

  datatype Entry = Entry(term: nat, index: nat, payload: Payload) {
    /** Encoded size: a 17-byte header, then the data (a configuration change encodes to 12 bytes and its context). */
    function Size(): nat {
      17 + match payload case Normal(d) => |d| case Conf(_, _, c) => 12 + |c|
    }
  }

  datatype Body =
    | ReqAppend(index: nat, logTerm: nat, commit: nat, ents: seq<Entry>)
    | ReqVote(force: bool, index: nat, logTerm: nat)
    | ReqHeartBeat
    | ReqElectAck
    | RespAppend(reject: bool, index: nat, commit: nat, rejectIndex: nat)
    | RespVote(reject: bool)
    | RespHeartBeat
    | RespElectAck
    | Prop(ents: seq<Entry>)
    | LeaseOffline
    | LeaseTimeout

  datatype Message = Message(from: Id, to: Id, term: nat, body: Body) {
    predicate IsResponse() {
      body.RespAppend? || body.RespVote? || body.RespHeartBeat? || body.RespElectAck?
    }
  }

  function Min(a: nat, b: nat): nat { if a < b then a else b }
  function Max(a: nat, b: nat): nat { if a < b then b else a }

  // ---- majorities ----

  /** `quorum()` of a group of n replicas. */
  function QuorumSize(n: nat): nat { n / 2 + 1 }

  ghost predicate IsQuorum(servers: set<Id>, q: set<Id>) {
    q <= servers && |q| >= QuorumSize(|servers|)
  }

  lemma CardSubset<T>(a: set<T>, b: set<T>)
    requires a <= b
    ensures |a| <= |b|
  {
    assert b == a + (b - a);
  }

  /** Two majorities share a member; everything else rests on this. */
  lemma QuorumsMeet(servers: set<Id>, p: set<Id>, q: set<Id>) returns (x: Id)
    requires IsQuorum(servers, p) && IsQuorum(servers, q)
    ensures x in p && x in q
  {
    if p * q == {} {
      assert |p + q| == |p| + |q|;
      CardSubset(p + q, servers);
      assert false;
    }
    x :| x in p * q;
  }

  /** A window inside a prefix is a window of the whole. */
  lemma WindowOfPrefix<T>(s: seq<T>, n: nat, i: nat, j: nat)
    requires i <= j <= n <= |s|
    ensures s[..n][i..j] == s[i..j]
  {}
}
