/** A follower's progress as the leader sees it, with the sliding window as a plain queue. */
module ProgressSpec {
  import opened RaftTypes

  datatype ProgressState = Probe | Replicate | Snapshot

  datatype Progress = Progress(
    peer: Peer, state: ProgressState, paused: bool, active: bool, pending: bool,
    matched: nat, next: nat, committed: nat, pendingSnap: nat,
    window: seq<nat>, cap: nat)
  {
    predicate Full() { |window| == cap }

    predicate IsPaused() {
      match state
      case Probe => paused
      case Snapshot => true
      case Replicate => Full()
    }

    function ResetState(s: ProgressState): Progress {
      this.(paused := false, pendingSnap := 0, state := s, window := [])
    }

    function BecomeProbe(): Progress {
      if state == Snapshot then ResetState(Probe).(next := Max(matched + 1, pendingSnap + 1))
      else ResetState(Probe).(next := matched + 1)
    }

    function BecomeReplicate(): Progress { ResetState(Replicate).(next := matched + 1) }

    function BecomeSnapshot(index: nat): Progress { ResetState(Snapshot).(pendingSnap := index) }

    function MaybeUpdate(index: nat, commit: nat): Progress {
      this.(committed := Max(committed, commit),
            matched := Max(matched, index),
            paused := paused && index <= matched,
            next := Max(next, index + 1))
    }

    /** Whether a rejection is taken into account: stale ones are not. */
    predicate TakesReject(rejected: nat) {
      if state == Replicate then rejected > matched else next - 1 == rejected
    }

    function MaybeDecrTo(rejected: nat, last: nat, commit: nat): Progress {
      if state == Replicate then
        var p := this.(committed := Max(committed, commit));
        if rejected <= matched then p else p.(next := matched + 1)
      else if next - 1 != rejected then this
      else this.(next := Max(1, Min(rejected, last + 1)), committed := commit, paused := false)
    }

    predicate NeedSnapshotAbort() { state == Snapshot && matched >= pendingSnap }

    /** `freeTo`: forgets the leading window entries up to an index. */
    function FreeTo(index: nat): Progress { this.(window := DropUpTo(window, index)) }

    /** The order the window relies on: entries lie strictly between match and next, and rise. */
    ghost predicate Ordered() {
      && |window| <= cap
      && (state != Replicate ==> window == [])
      && (state == Replicate ==> matched < next && Rising(window, matched, next))
    }
  }

  function NewProgress(peer: Peer, cap: nat): Progress {
    Progress(peer, Probe, false, false, false, 0, 0, 0, 0, [], cap)
  }

  function DropUpTo(w: seq<nat>, index: nat): seq<nat> {
    if w == [] || index < w[0] then w else DropUpTo(w[1..], index)
  }

  /** Strictly rising, above lo and below hi. */
  ghost predicate Rising(w: seq<nat>, lo: nat, hi: nat) {
    && (forall i :: 0 <= i < |w| ==> lo < w[i] < hi)
    && (forall i, j :: 0 <= i < j < |w| ==> w[i] < w[j])
  }

  /** On a rising window `freeTo` drops exactly the entries up to the index. */
  lemma {:induction false} DropExact(w: seq<nat>, lo: nat, hi: nat, index: nat)
    requires Rising(w, lo, hi)
    ensures var r := DropUpTo(w, index);
      && |r| <= |w| && r == w[|w| - |r|..] && Rising(r, Max(lo, index), Max(hi, index + 1))
      && (forall x :: x in r <==> x in w && x > index)
  {
    if w != [] && index >= w[0] {
      DropExact(w[1..], lo, hi, index);
      assert w == [w[0]] + w[1..];
    }
  }

  /** `freeFirstOne` on a rising window drops exactly one entry. */
  lemma DropFirst(w: seq<nat>, lo: nat, hi: nat)
    requires w != [] && Rising(w, lo, hi)
    ensures DropUpTo(w, w[0]) == w[1..]
  {
    assert |w| > 1 ==> w[0] < w[1];
  }

  // ---- every transition keeps the order ----

  lemma DecrKeeps(p: Progress, rejected: nat, last: nat, commit: nat)
    requires p.Ordered() && p.state != Snapshot
    ensures var q := p.MaybeDecrTo(rejected, last, commit);
      var r := if p.TakesReject(rejected) && p.state == Replicate then q.BecomeProbe() else q;
      && r.Ordered() && r.matched == p.matched && (p.next >= 1 ==> r.next >= 1)
      && (p.TakesReject(rejected) && p.state == Probe && p.next > 1 ==> r.next < p.next)
  {}

  /** An acknowledgement in Replicate state: match and next rise, and the window frees what is covered. */
  lemma UpdateKeeps(p: Progress, index: nat, commit: nat)
    requires p.Ordered() && p.state == Replicate && index > p.matched
    ensures p.MaybeUpdate(index, commit).FreeTo(index).Ordered()
  {
    DropExact(p.window, p.matched, p.next, index);
  }

  /** A replica that is not skipped can be sent to: its state is handled, and a window in use has room. */
  lemma SendHasRoom(p: Progress)
    requires !p.IsPaused()
    ensures p.state != Snapshot && (p.state == Replicate ==> !p.Full())
    ensures p.Ordered() && p.state == Replicate ==> |p.window| < p.cap
  {}

  /** Sending up to `last` in Replicate state: the new window entry is above all others. */
  lemma SendKeeps(p: Progress, last: nat)
    requires p.Ordered() && p.state == Replicate && !p.IsPaused() && last >= p.next
    ensures p.(next := last + 1, window := p.window + [last]).Ordered()
  {}
}
