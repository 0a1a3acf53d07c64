/** The replica object and its circular window buffer. */
module ReplicaClass {
  import opened RaftTypes
  import opened ProgressSpec
  import opened FsmSpec

  function Wrap(i: nat, size: nat): nat { if i >= size then i - size else i }

  /** The `count` entries of a ring from `start` on. */
  function Ring(buf: seq<nat>, start: nat, count: nat): (s: seq<nat>)
    requires count <= |buf| && (if buf == [] then start == 0 else start < |buf|)
    ensures |s| == count && forall i :: 0 <= i < count ==> s[i] == buf[Wrap(start + i, |buf|)]
  {
    seq(count, i requires 0 <= i < count => buf[Wrap(start + i, |buf|)])
  }

  lemma RingAdd(buf: seq<nat>, start: nat, count: nat, x: nat)
    requires count < |buf| && start < |buf|
    ensures Ring(buf[Wrap(start + count, |buf|) := x], start, count + 1) == Ring(buf, start, count) + [x]
  {}

  lemma RingDrop(buf: seq<nat>, start: nat, count: nat, k: nat)
    requires k <= count <= |buf| && start < |buf|
    ensures Ring(buf, Wrap(start + k, |buf|), count - k) == Ring(buf, start, count)[k..]
  {}

  /** A FIFO of indexes in a ring: `count` entries from `start` on, wrapping at the end of the buffer. */
  class Inflight {
    var start: nat
    var count: nat
    const size: nat
    const buffer: array<nat>

    ghost predicate Valid()
      reads this
    {
      buffer.Length == size && count <= size && (if size == 0 then start == 0 else start < size)
    }

    /** The entries in order. */
    ghost function Contents(): (s: seq<nat>)
      requires Valid()
      reads this, buffer
    {
      Ring(buffer[..], start, count)
    }

    constructor (size: nat)
      ensures Valid() && Contents() == [] && this.size == size && fresh(buffer)
    {
      this.size := size;
      buffer := new nat[size];
      start, count := 0, 0;
    }

    predicate Full()
      reads this
    {
      count == size
    }

    /** `add`; false where the code panics because the window is full. */
    method Add(index: nat) returns (ok: bool)
      requires Valid()
      modifies this`count, buffer
      ensures Valid() && ok == (|old(Contents())| < size)
      ensures Contents() == if ok then old(Contents()) + [index] else old(Contents())
    {
      if Full() {
        return false;
      }
      var next := start + count;
      if next >= size {
        next := next - size;
      }
      RingAdd(buffer[..], start, count, index);
      buffer[next] := index;
      count := count + 1;
      return true;
    }

    method FreeTo(index: nat)
      requires Valid()
      modifies this`start, this`count
      ensures Valid() && Contents() == DropUpTo(old(Contents()), index)
    {
      ghost var all := Contents();
      if count == 0 || index < buffer[start] {
        return;
      }
      var i, idx := 0, start;
      while i < count
        invariant 0 <= i <= count && idx == Wrap(start + i, size)
        invariant DropUpTo(all, index) == DropUpTo(all[i..], index)
      {
        if index < buffer[idx] {
          break;
        }
        assert all[i..][1..] == all[i + 1..];
        idx := idx + 1;
        if idx >= size {
          idx := idx - size;
        }
        i := i + 1;
      }
      RingDrop(buffer[..], start, count, i);
      count := count - i;
      start := idx;
    }

    /** `freeFirstOne`; false where the code indexes a buffer of no entries. Nothing happens to an empty window. */
    method FreeFirstOne() returns (ok: bool)
      requires Valid()
      modifies this`start, this`count
      ensures Valid() && ok == (size > 0)
      ensures Contents() == if old(Contents()) == [] then [] else DropUpTo(old(Contents()), old(Contents()[0]))
    {
      if size == 0 {
        return false;
      }
      FreeTo(buffer[start]);
      return true;
    }

    method Reset()
      requires Valid()
      modifies this`start, this`count
      ensures Valid() && Contents() == []
    {
      count := 0;
      start := 0;
    }
  }

  class Replica {
    const inflight: Inflight
    var peer: Peer
    var state: ProgressState
    var paused: bool
    var active: bool
    var pending: bool
    var matched: nat
    var next: nat
    var committed: nat
    var pendingSnap: nat

    ghost predicate Valid()
      reads this, inflight
    {
      inflight.Valid()
    }

    ghost function View(): Progress
      requires Valid()
      reads this, inflight, inflight.buffer
    {
      Progress(peer, state, paused, active, pending, matched, next, committed, pendingSnap, inflight.Contents(), inflight.size)
    }

    constructor (peer: Peer, maxInflight: nat)
      ensures Valid() && View() == NewProgress(peer, maxInflight) && fresh(inflight) && fresh(inflight.buffer)
    {
      inflight := new Inflight(maxInflight);
      this.peer, state := peer, Probe;
      paused, active, pending := false, false, false;
      matched, next, committed, pendingSnap := 0, 0, 0, 0;
    }

    method ResetState(s: ProgressState)
      requires Valid()
      modifies this, inflight
      ensures Valid() && View() == old(View()).ResetState(s)
    {
      paused := false;
      pendingSnap := 0;
      state := s;
      inflight.Reset();
    }

    method BecomeProbe()
      requires Valid()
      modifies this, inflight
      ensures Valid() && View() == old(View()).BecomeProbe()
    {
      if state == Snapshot {
        var snap := pendingSnap;
        ResetState(Probe);
        next := Max(matched + 1, snap + 1);
      } else {
        ResetState(Probe);
        next := matched + 1;
      }
    }

    method BecomeReplicate()
      requires Valid()
      modifies this, inflight
      ensures Valid() && View() == old(View()).BecomeReplicate()
    {
      ResetState(Replicate);
      next := matched + 1;
    }

    method BecomeSnapshot(index: nat)
      requires Valid()
      modifies this, inflight
      ensures Valid() && View() == old(View()).BecomeSnapshot(index)
    {
      ResetState(Snapshot);
      pendingSnap := index;
    }

    /** True exactly when the acknowledged index is new. */
    method MaybeUpdate(index: nat, commit: nat) returns (updated: bool)
      requires Valid()
      modifies this
      ensures Valid() && View() == old(View()).MaybeUpdate(index, commit) && updated == (old(matched) < index)
    {
      updated := false;
      if committed < commit {
        committed := commit;
      }
      if matched < index {
        matched := index;
        updated := true;
        paused := false;
      }
      if next < index + 1 {
        next := index + 1;
      }
    }

    method MaybeDecrTo(rejected: nat, last: nat, commit: nat) returns (taken: bool)
      requires Valid()
      modifies this
      ensures Valid() && View() == old(View()).MaybeDecrTo(rejected, last, commit)
      ensures taken == old(View()).TakesReject(rejected)
    {
      if state == Replicate {
        if committed < commit {
          committed := commit;
        }
        if rejected <= matched {
          return false;
        }
        next := matched + 1;
        return true;
      }
      if next - 1 != rejected {
        return false;
      }
      next := Min(rejected, last + 1);
      if next < 1 {
        next := 1;
      }
      committed := commit;
      paused := false;
      return true;
    }

    predicate IsPaused(): (r: bool)
      requires Valid()
      reads this, inflight, inflight.buffer
      ensures r == View().IsPaused()
    {
      match state
      case Probe => paused
      case Snapshot => true
      case Replicate => inflight.Full()
    }

    // ---- what the leader does with one replica ----

    /** An acknowledgement: progress, then the change of state it brings; true exactly when the index is new. */
    method Acknowledge(index: nat, commit: nat) returns (updated: bool)
      requires Valid()
      modifies this, inflight
      ensures Valid() && updated == (old(matched) < index)
      ensures View() == if updated then Acknowledged(old(View()), index, commit) else old(View()).MaybeUpdate(index, commit)
    {
      updated := MaybeUpdate(index, commit);
      if updated {
        match state {
          case Probe =>
            BecomeReplicate();
          case Snapshot =>
            if matched >= pendingSnap {
              BecomeProbe();
            }
          case Replicate =>
            inflight.FreeTo(index);
        }
      }
    }

    /** A rejection: back to probing if it is taken. */
    method Reject(rejected: nat, last: nat, commit: nat) returns (taken: bool)
      requires Valid()
      modifies this, inflight
      ensures Valid() && taken == old(View()).TakesReject(rejected)
      ensures var p := old(View()).MaybeDecrTo(rejected, last, commit);
        View() == if taken && p.state == Replicate then p.BecomeProbe() else p
    {
      taken := MaybeDecrTo(rejected, last, commit);
      if taken && state == Replicate {
        BecomeProbe();
      }
    }

    /** An append request has been queued. The states and windows it does not handle are skipped before. */
    method RecordSent(ents: seq<Entry>)
      requires Valid() && !View().IsPaused()
      modifies this, inflight, inflight.buffer
      ensures Valid() && View() == Sent(old(View()), ents)
    {
      if |ents| != 0 {
        SendHasRoom(View());
        match state {
          case Replicate =>
            var last := ents[|ents| - 1].index;
            next := last + 1;
            var ok := inflight.Add(last);
            assert ok;
          case Probe =>
            paused := true;
          case Snapshot =>
            assert false;
        }
      }
      pending := true;
    }

    /** Room for one more in a full window; false where the code panics. */
    method MakeRoom() returns (ok: bool)
      requires Valid()
      modifies inflight
      ensures var p := old(View()); var full := p.state == Replicate && p.Full();
        Valid() && ok == !(full && p.window == []) && View() == if full && ok then p.FreeTo(p.window[0]) else p
    {
      ok := true;
      if state == Replicate && inflight.Full() {
        ok := inflight.FreeFirstOne();
      }
    }
  }
}
