/**
 The leader's replicas as the objects they are: a map of replicas, each with its own ring buffer, updated one at
 a time in place. The class keeps them apart, so that an update of one leaves the view of the others alone.
 */
module ReplicaTableClass {
  import opened RaftTypes
  import opened ProgressSpec
  import opened FsmSpec
  import opened FsmParts
  import opened ReplicaClass

  class ReplicaTable {
    var at: map<Id, Replica>
    // whose replica, window or buffer an object is
    ghost var owner: map<object, Id>

    /** Replica k, its window and its buffer belong to k. */
    ghost predicate Mine(k: Id, p: Replica)
      reads this`owner, owner.Keys
    {
      && p in owner && p.inflight in owner && p.inflight.buffer in owner && p.Valid()
      && owner[p] == k && owner[p.inflight] == k && owner[p.inflight.buffer] == k
    }

    ghost predicate Valid()
      reads this, owner.Keys
    {
      this !in owner && forall k :: k in at ==> Mine(k, at[k])
    }

    /** The progress of every replica. */
    ghost function View(): map<Id, Progress>
      requires Valid()
      reads this, owner.Keys
    {
      map k | k in at :: at[k].View()
    }

    constructor ()
      ensures Valid() && owner == map[] && View() == map[]
    {
      at, owner := map[], map[];
    }

    /** A replica for each peer. */
    method Fill(peers: map<Id, Peer>)
      requires Valid() && View() == map[]
      modifies this
      ensures Valid() && forall o :: o in owner ==> o in old(owner) || fresh(o)
      ensures View() == map k | k in peers :: NewProgress(peers[k], 0)
    {
      hide Valid, View, NewProgress, NewOnes;
      NewOnesEnd(peers);
      var left := peers.Keys;
      while left != {}
        invariant left <= peers.Keys && Valid() && View() == NewOnes(peers, left)
        invariant forall o :: o in owner ==> o in old(owner) || fresh(o)
        decreases |left|
      {
        var k :| k in left;
        NewOnesMore(peers, left, k);
        Put(k, peers[k], 0);
        left := left - {k};
      }
    }

    /** A new replica for k, in place of an old one if there is one. */
    method Put(k: Id, peer: Peer, cap: nat)
      requires Valid()
      modifies this
      ensures Valid() && forall o :: o in owner ==> o in old(owner) || fresh(o)
      ensures View() == old(View())[k := NewProgress(peer, cap)]
    {
      hide Replica.View, Replica.Valid, View, NewProgress;
      var p := new Replica(peer, cap);
      assert p !in owner && p.inflight !in owner && p.inflight.buffer !in owner;
      Install(k, p);
    }

    /** A new member, to be sent to from `next` on. */
    method Add(k: Id, peer: Peer, cap: nat, next: nat)
      requires Valid()
      modifies this
      ensures Valid() && forall o :: o in owner ==> o in old(owner) || fresh(o)
      ensures View() == old(View())[k := NewProgress(peer, cap).(next := next)]
    {
      hide Replica.View, Replica.Valid, View, Valid, NewProgress;
      var p := NewMember(peer, cap, next);
      assert p !in owner && p.inflight !in owner && p.inflight.buffer !in owner;
      Install(k, p);
    }

    static method NewMember(peer: Peer, cap: nat, next: nat) returns (p: Replica)
      ensures p.Valid() && fresh(p) && fresh(p.inflight) && fresh(p.inflight.buffer)
      ensures p.View() == NewProgress(peer, cap).(next := next)
    {
      p := new Replica(peer, cap);
      p.next := next;
    }

    /** Lists a replica that nobody owns yet. */
    method Install(k: Id, p: Replica)
      requires Valid() && p.Valid() && p !in owner && p.inflight !in owner && p.inflight.buffer !in owner
      modifies this
      ensures Valid() && owner == old(owner)[p := k][p.inflight := k][p.inflight.buffer := k] && at == old(at)[k := p]
      ensures View() == old(View())[k := old(p.View())]
    {
      hide Replica.View, Replica.Valid, View;
      at := at[k := p];
      owner := owner[p := k][p.inflight := k][p.inflight.buffer := k];
      forall l | l in at && l != k ensures Mine(l, at[l]) && at[l].View() == old(at[l].View()) {
        assert old(Mine(l, at[l]));
      }
      assert Mine(k, p);
      hide Mine;
      Installed(k);
    }

    /** There is a new replica k, and the others are as they were. */
    twostate predicate OnlyPut(k: Id)
      reads this, owner.Keys
    {
      && old(Valid()) && Valid() && k in at && at == old(at)[k := at[k]]
      && forall l :: l in at && l != k ==> at[l].View() == old(at[l].View())
    }

    twostate lemma Installed(k: Id)
      requires OnlyPut(k)
      ensures View() == old(View())[k := at[k].View()]
    {}

    // ---- one replica at a time ----

    /** Only replica k has changed. */
    twostate predicate OnlyChanged(k: Id)
      reads this, owner.Keys
    {
      && old(Valid()) && Valid() && at == old(at) && owner == old(owner) && k in at
      && forall l :: l in at && l != k ==> at[l].View() == old(at[l].View())
    }

    twostate lemma Changed(k: Id)
      requires OnlyChanged(k)
      ensures View() == old(View())[k := at[k].View()]
    {}

    method MarkActive(k: Id)
      requires Valid() && k in at
      modifies owner.Keys
      ensures Valid() && at == old(at) && owner == old(owner) && View() == old(View())[k := old(View())[k].(active := true)]
    {
      at[k].active := true;
      Changed(k);
    }

    method SetPeer(k: Id, peer: Peer)
      requires Valid() && k in at
      modifies owner.Keys
      ensures Valid() && at == old(at) && owner == old(owner) && View() == old(View())[k := old(View())[k].(peer := peer)]
    {
      at[k].peer := peer;
      Changed(k);
    }

    method SetCommitted(k: Id, committed: nat)
      requires Valid() && k in at
      modifies owner.Keys
      ensures Valid() && at == old(at) && owner == old(owner) && View() == old(View())[k := old(View())[k].(committed := committed)]
    {
      at[k].committed := committed;
      Changed(k);
    }

    method Resume(k: Id)
      requires Valid() && k in at
      modifies owner.Keys
      ensures Valid() && at == old(at) && owner == old(owner) && View() == old(View())[k := old(View())[k].(paused := false)]
    {
      at[k].paused := false;
      Changed(k);
    }

    /** A heartbeat answer has come: the replica is active and, unless it gets a snapshot, nothing is pending. */
    method Answered(k: Id)
      requires Valid() && k in at
      modifies owner.Keys
      ensures var p := old(View())[k].(active := true);
        Valid() && at == old(at) && owner == old(owner) && View() == old(View())[k := if p.state != Snapshot then p.(pending := false) else p]
    {
      at[k].active := true;
      if at[k].state != Snapshot {
        at[k].pending := false;
      }
      Changed(k);
    }

    method Update(k: Id, index: nat, commit: nat)
      requires Valid() && k in at
      modifies owner.Keys
      ensures Valid() && at == old(at) && owner == old(owner) && View() == old(View())[k := old(View())[k].MaybeUpdate(index, commit)]
    {
      hide Replica.View, Replica.Valid;
      var updated := at[k].MaybeUpdate(index, commit);
      Changed(k);
    }

    method Acknowledge(k: Id, index: nat, commit: nat) returns (updated: bool)
      requires Valid() && k in at
      modifies owner.Keys
      ensures var p := old(View())[k];
        && Valid() && at == old(at) && owner == old(owner) && updated == (p.matched < index)
        && View() == old(View())[k := if updated then Acknowledged(p, index, commit) else p.MaybeUpdate(index, commit)]
    {
      hide Replica.Valid, Acknowledged;
      updated := at[k].Acknowledge(index, commit);
      Changed(k);
    }

    method Reject(k: Id, rejected: nat, last: nat, commit: nat) returns (taken: bool)
      requires Valid() && k in at
      modifies owner.Keys
      ensures var p := old(View())[k]; var q := p.MaybeDecrTo(rejected, last, commit);
        && Valid() && at == old(at) && owner == old(owner) && taken == p.TakesReject(rejected)
        && View() == old(View())[k := if taken && q.state == Replicate then q.BecomeProbe() else q]
    {
      hide Replica.View, Replica.Valid;
      taken := at[k].Reject(rejected, last, commit);
      Changed(k);
    }

    method RecordSent(k: Id, ents: seq<Entry>)
      requires Valid() && k in at && !View()[k].IsPaused()
      modifies owner.Keys
      ensures Valid() && at == old(at) && owner == old(owner) && View() == old(View())[k := Sent(old(View())[k], ents)]
    {
      hide Replica.View, Replica.Valid, Sent;
      at[k].RecordSent(ents);
      Changed(k);
    }

    method MakeRoom(k: Id) returns (ok: bool)
      requires Valid() && k in at
      modifies owner.Keys
      ensures var p := old(View())[k]; var full := p.state == Replicate && p.Full();
        && Valid() && at == old(at) && owner == old(owner) && ok == !(full && p.window == [])
        && View() == old(View())[k := if full && ok then p.FreeTo(p.window[0]) else p]
    {
      hide Replica.View, Replica.Valid;
      ok := at[k].MakeRoom();
      Changed(k);
    }

    // ---- all of them ----

    method Remove(k: Id)
      requires Valid()
      modifies this`at
      ensures Valid() && owner == old(owner) && View() == old(View()) - {k}
    {
      hide Replica.View, Replica.Valid;
      at := at - {k};
      assert forall l :: l in at ==> old(Mine(l, at[l])) && Mine(l, at[l]);
    }

    /** The view has the replicas the map has. */
    lemma Members(k: Id)
      requires Valid()
      ensures View().Keys == at.Keys && |View()| == |at| && (k in at <==> k in View())
    {
      assert |View()| == |View().Keys| && |at| == |at.Keys|;
    }

    /** What is read off an object is what the view says. */
    lemma Facts(k: Id)
      requires Valid() && k in at
      ensures at[k].Valid() && k in View() && View()[k] == at[k].View()
      ensures var p, q := View()[k], at[k]; p.peer == q.peer && p.state == q.state && p.next == q.next
      ensures var p, q := View()[k], at[k]; p.pending == q.pending && p.matched == q.matched && p.committed == q.committed
    {}

    /** The match indexes, replica by replica. */
    method MatchIndexes() returns (m: map<Id, nat>)
      requires Valid()
      ensures m == Matches(View())
    {
      m := map k | k in at :: at[k].matched;
      assert m.Keys == Matches(View()).Keys;
    }

    /** `reset`: every replica starts anew. */
    method Renew(cfg: Config, self: Id, committed: nat, lasti: nat, isLeader: bool)
      requires Valid()
      modifies this
      ensures Valid() && forall o :: o in owner ==> o in old(owner) || fresh(o)
      ensures View() == map k | k in old(View()) :: Renewed(cfg, k == self, committed, old(View())[k], lasti, isLeader)
    {
      hide Valid, View, Renewed, Part;
      ghost var was, renew := View(), (k: Id, p: Progress) => Renewed(cfg, k == self, committed, p, lasti, isLeader);
      Members(self);
      PartEnds(was, renew);
      var left := at.Keys;
      while left != {}
        invariant left <= was.Keys && Valid() && View() == Part(was, left, renew) && at.Keys == was.Keys
        invariant forall o :: o in owner ==> o in old(owner) || fresh(o)
        decreases |left|
      {
        var k :| k in left;
        PartMore(was, left, k, renew);
        RenewOne(cfg, k, k == self, committed, lasti, isLeader);
        left := left - {k};
      }
    }

    method RenewOne(cfg: Config, k: Id, self: bool, committed: nat, lasti: nat, isLeader: bool)
      requires Valid() && k in at
      modifies this
      ensures Valid() && at.Keys == old(at.Keys) && forall o :: o in owner ==> o in old(owner) || fresh(o)
      ensures k in old(View()) && View() == old(View())[k := Renewed(cfg, self, committed, old(View())[k], lasti, isLeader)]
    {
      hide Valid, View, Replica.Valid, Replica.View, Renewed, NewProgress;
      Facts(k);
      var p := NewReplica(cfg, at[k].peer, self, committed, lasti, isLeader);
      assert p !in owner && p.inflight !in owner && p.inflight.buffer !in owner;
      RenewedPeer(cfg, self, committed, View()[k], lasti, isLeader);
      Install(k, p);
    }

    static method NewReplica(cfg: Config, peer: Peer, self: bool, committed: nat, lasti: nat, isLeader: bool) returns (p: Replica)
      ensures p.Valid() && fresh(p) && fresh(p.inflight) && fresh(p.inflight.buffer)
      ensures p.View() == Renewed(cfg, self, committed, NewProgress(peer, 0), lasti, isLeader)
    {
      p := new Replica(peer, if isLeader then cfg.maxInflight else 0);
      if isLeader {
        p.next := lasti + 1;
        if self {
          p.matched := lasti;
          p.committed := committed;
        }
      }
    }

    /** The heartbeat tick lets the others go on. */
    method Unpause(self: Id)
      requires Valid()
      modifies owner.Keys
      ensures Valid() && owner == old(owner) && View() == map k | k in old(View()) :: Unpaused(k == self, old(View())[k])
    {
      hide Valid, View, Part, Unpaused;
      ghost var was, unpause := View(), (k: Id, p: Progress) => Unpaused(k == self, p);
      Members(self);
      PartEnds(was, unpause);
      var left := at.Keys;
      while left != {}
        invariant left <= was.Keys && Valid() && owner == old(owner) && at == old(at) && View() == Part(was, left, unpause)
        decreases |left|
      {
        var k :| k in left;
        PartMore(was, left, k, unpause);
        ResumeOne(self, k);
        left := left - {k};
      }
    }

    method ResumeOne(self: Id, k: Id)
      requires Valid() && k in at
      modifies owner.Keys
      ensures k in old(View()) && Valid() && at == old(at) && owner == old(owner)
      ensures View() == old(View())[k := Unpaused(k == self, old(View())[k])]
    {
      Facts(k);
      if k != self && at[k].state != Snapshot {
        Resume(k);
      } else {
        assert View() == View()[k := View()[k]];
      }
    }
  }

  // ---- loops over the replicas ----

  /** A map half done: f has been applied outside `left`. */
  ghost function Part(was: map<Id, Progress>, left: set<Id>, f: (Id, Progress) -> Progress): map<Id, Progress> {
    map k | k in was :: if k in left then was[k] else f(k, was[k])
  }

  lemma PartMore(was: map<Id, Progress>, left: set<Id>, k: Id, f: (Id, Progress) -> Progress)
    requires k in left && k in was
    ensures var p := Part(was, left, f); k in p && p[k] == was[k] && Part(was, left - {k}, f) == p[k := f(k, was[k])]
  {}

  lemma PartEnds(was: map<Id, Progress>, f: (Id, Progress) -> Progress)
    ensures Part(was, was.Keys, f) == was && Part(was, {}, f) == map k | k in was :: f(k, was[k])
  {}

  /** New replicas for the peers outside `left`. */
  ghost function NewOnes(peers: map<Id, Peer>, left: set<Id>): map<Id, Progress> {
    map k | k in peers && k !in left :: NewProgress(peers[k], 0)
  }

  lemma NewOnesMore(peers: map<Id, Peer>, left: set<Id>, k: Id)
    requires k in left && k in peers
    ensures NewOnes(peers, left - {k}) == NewOnes(peers, left)[k := NewProgress(peers[k], 0)]
  {}

  lemma NewOnesEnd(peers: map<Id, Peer>)
    ensures NewOnes(peers, peers.Keys) == map[] && NewOnes(peers, {}) == map k | k in peers :: NewProgress(peers[k], 0)
  {}

  lemma RenewedPeer(cfg: Config, self: bool, committed: nat, p: Progress, lasti: nat, isLeader: bool)
    ensures Renewed(cfg, self, committed, NewProgress(p.peer, 0), lasti, isLeader) == Renewed(cfg, self, committed, p, lasti, isLeader)
  {}
}
