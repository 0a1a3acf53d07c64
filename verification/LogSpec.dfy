/** What the Raft log computes, on plain sequences: entry i of a log that starts after `base` is ents[i - base - 1]. */
module LogSpec {
  import opened RaftTypes

  /** The limit of a read: `noLimit`, or a number of bytes. */
  datatype Limit = NoLimit | Bytes(max: nat)

  /** Term at an index; 0 outside the log, `baseTerm` at the compaction point. */
  function TermIn(base: nat, baseTerm: nat, ents: seq<Entry>, i: nat): nat {
    if i < base || i > base + |ents| then 0
    else if i == base then baseTerm
    else ents[i - base - 1].term
  }

  function TermAt(log: seq<Entry>, i: nat): nat { TermIn(0, 0, log, i) }

  /** Entries carry consecutive indexes, the first being after + 1. */
  predicate Consecutive(ents: seq<Entry>, after: nat) {
    forall k :: 0 <= k < |ents| ==> ents[k].index == after + 1 + k
  }

  /** Index of the first entry whose term the log does not have at that place; 0 if there is none. */
  function FindConflict(base: nat, baseTerm: nat, log: seq<Entry>, ents: seq<Entry>): nat {
    if ents == [] then 0
    else if TermIn(base, baseTerm, log, ents[0].index) != ents[0].term then ents[0].index
    else FindConflict(base, baseTerm, log, ents[1..])
  }

  /** Cuts the log before the first new entry, then appends. */
  function AppendEnts(base: nat, log: seq<Entry>, ents: seq<Entry>): seq<Entry>
    requires ents != [] ==> base < ents[0].index <= base + |log| + 1
  {
    if ents == [] then log else log[..ents[0].index - base - 1] + ents
  }

  predicate UpToDateWith(log: seq<Entry>, lasti: nat, term: nat, fpri: nat, lpri: nat) {
    var li := |log|;
    var lt := TermAt(log, li);
    term > lt || (term == lt && lasti > li) || (term == lt && lasti == li && fpri >= lpri)
  }

  /** Outcome of an append request on a log: accepted or not, and whether the code would have panicked. */
  datatype AppendResult = AppendResult(ok: bool, panic: bool, log: seq<Entry>, committed: nat, last: nat)

  function MaybeAppend(base: nat, baseTerm: nat, log: seq<Entry>, committed: nat,
                       index: nat, logTerm: nat, commit: nat, ents: seq<Entry>): AppendResult
    requires Consecutive(ents, index) && base <= committed
  {
    if TermIn(base, baseTerm, log, index) != logTerm then AppendResult(false, false, log, committed, 0)
    else
      var ci := FindConflict(base, baseTerm, log, ents);
      ConflictPlace(base, baseTerm, log, ents, index);
      TakeFrom(base, log, committed, ci, index, commit, ents)
  }

  /** Takes the entries from the first conflict ci on, then the leader's commit index as far as it covers them. */
  function TakeFrom(base: nat, log: seq<Entry>, committed: nat, ci: nat, index: nat, commit: nat, ents: seq<Entry>): AppendResult
    requires Consecutive(ents, index) && base <= committed && (ci != 0 ==> index < ci <= index + |ents|)
  {
    var last := index + |ents|;
    if ci != 0 && (ci <= committed || ci > base + |log| + 1) then AppendResult(false, true, log, committed, 0)
    else
      var log' := if ci == 0 then log else AppendEnts(base, log, ents[ci - (index + 1)..]);
      var to := Min(commit, last);
      if committed < to && to > base + |log'| then AppendResult(false, true, log', committed, 0)
      else AppendResult(true, false, log', Max(committed, to), last)
  }

  lemma ConflictPlace(base: nat, baseTerm: nat, log: seq<Entry>, ents: seq<Entry>, index: nat)
    requires Consecutive(ents, index)
    ensures var ci := FindConflict(base, baseTerm, log, ents);
      && (ci != 0 ==> index < ci <= index + |ents| && TermIn(base, baseTerm, log, ci) != ents[ci - index - 1].term)
      && (forall k :: 0 <= k < |ents| && (ci == 0 || k < ci - index - 1) ==> TermIn(base, baseTerm, log, index + 1 + k) == ents[k].term)
  {
    if ents != [] && TermIn(base, baseTerm, log, ents[0].index) == ents[0].term {
      ConflictPlace(base, baseTerm, log, ents[1..], index + 1);
      var ci := FindConflict(base, baseTerm, log, ents[1..]);
      forall k | 0 <= k < |ents| && (ci == 0 || k < ci - index - 1)
        ensures TermIn(base, baseTerm, log, index + 1 + k) == ents[k].term
      {
        if k > 0 { assert ents[k] == ents[1..][k - 1]; }
      }
    }
  }

  // ---- compaction ----

  /** From the compaction point on, a compacted log reads like the whole one; below, like nothing. */
  lemma CompactedTerm(log: seq<Entry>, base: nat, i: nat)
    requires base <= |log|
    ensures TermIn(base, TermAt(log, base), log[base..], i) == if i < base then 0 else TermAt(log, i)
  {}

  lemma {:induction false} CompactedConflict(log: seq<Entry>, base: nat, index: nat, ents: seq<Entry>)
    requires base <= |log| && base <= index && Consecutive(ents, index)
    ensures FindConflict(base, TermAt(log, base), log[base..], ents) == FindConflict(0, 0, log, ents)
    decreases |ents|
  {
    if ents != [] {
      CompactedTerm(log, base, index + 1);
      CompactedConflict(log, base, index + 1, ents[1..]);
    }
  }

  /** An append request has the same outcome on a compacted log as on the whole one. */
  lemma CompactedAppend(log: seq<Entry>, base: nat, committed: nat, index: nat, logTerm: nat, commit: nat, ents: seq<Entry>)
    requires base <= committed && base <= |log| && base <= index && Consecutive(ents, index)
    ensures var a, b := MaybeAppend(0, 0, log, committed, index, logTerm, commit, ents),
                        MaybeAppend(base, TermAt(log, base), log[base..], committed, index, logTerm, commit, ents);
      base <= |a.log| && b == a.(log := a.log[base..])
  {
    CompactedTerm(log, base, index);
    CompactedConflict(log, base, index, ents);
    ConflictPlace(0, 0, log, ents, index);
    hide FindConflict, TermIn, TakeFrom;
    CompactedTake(log, base, committed, FindConflict(0, 0, log, ents), index, commit, ents);
  }

  lemma CompactedTake(log: seq<Entry>, base: nat, committed: nat, ci: nat, index: nat, commit: nat, ents: seq<Entry>)
    requires base <= committed && base <= |log| && base <= index && Consecutive(ents, index) && (ci != 0 ==> index < ci <= index + |ents|)
    ensures var a, b := TakeFrom(0, log, committed, ci, index, commit, ents), TakeFrom(base, log[base..], committed, ci, index, commit, ents);
      base <= |a.log| && b == a.(log := a.log[base..])
  {
    if ci != 0 && committed < ci <= |log| + 1 {
      var rest := ents[ci - (index + 1)..];
      assert rest[0].index == ci;
      CompactedCut(log, base, rest);
    }
    hide AppendEnts;
  }

  lemma CompactedCut(log: seq<Entry>, base: nat, ents: seq<Entry>)
    requires base <= |log| && ents != [] && base < ents[0].index <= |log| + 1
    ensures var a := AppendEnts(0, log, ents); base <= |a| && AppendEnts(base, log[base..], ents) == a[base..]
  {}

  // ---- size limits ----

  function Total(ents: seq<Entry>, n: nat): nat
    requires n <= |ents|
  {
    if n == 0 then 0 else Total(ents, n - 1) + ents[n - 1].Size()
  }

  /** How far a limited read goes on from n entries: as long as the total stays within the limit. */
  function LimitFrom(ents: seq<Entry>, max: nat, n: nat): (r: nat)
    requires n <= |ents|
    ensures n <= r <= |ents|
    decreases |ents| - n
  {
    if n < |ents| && Total(ents, n + 1) <= max then LimitFrom(ents, max, n + 1) else n
  }

  function LimitSize(ents: seq<Entry>, limit: Limit): seq<Entry> {
    if ents == [] || limit.NoLimit? then ents else ents[..LimitFrom(ents, limit.max, 1)]
  }

  lemma TotalPrefix(a: seq<Entry>, b: seq<Entry>, n: nat)
    requires n <= |a|
    ensures Total(a + b, n) == Total(a, n)
  {
    if n > 0 { TotalPrefix(a, b, n - 1); }
  }

  lemma TotalRises(ents: seq<Entry>, m: nat, n: nat)
    requires m <= n <= |ents|
    ensures Total(ents, m) <= Total(ents, n)
  {
    if m < n { TotalRises(ents, m, n - 1); }
  }

  /** A limited read is the longest prefix within the limit, and never empty when there is something to read. */
  lemma {:induction false} LimitLongest(ents: seq<Entry>, max: nat)
    requires ents != []
    ensures var r := LimitSize(ents, Bytes(max));
      && r <= ents && 1 <= |r|
      && (|r| > 1 ==> Total(ents, |r|) <= max)
      && (forall n :: |r| < n <= |ents| ==> Total(ents, n) > max)
  {
    LimitFromLongest(ents, max, 1);
  }

  lemma {:induction false} LimitFromLongest(ents: seq<Entry>, max: nat, n: nat)
    requires n <= |ents|
    ensures var r := LimitFrom(ents, max, n);
      && (r > n ==> Total(ents, r) <= max)
      && (forall k :: r < k <= |ents| ==> Total(ents, k) > max)
    decreases |ents| - n
  {
    if n < |ents| && Total(ents, n + 1) <= max {
      LimitFromLongest(ents, max, n + 1);
    } else {
      forall k | n < k <= |ents| ensures Total(ents, k) > max { TotalRises(ents, n + 1, k); }
    }
  }

  /** A limited read of the first part either stops there, as the whole read would, or takes all of it. */
  lemma FirstPart(a: seq<Entry>, b: seq<Entry>, limit: Limit)
    requires a != []
    ensures var r := LimitSize(a, limit); |r| <= |a| && (if |r| < |a| then r == LimitSize(a + b, limit) else r == a)
  {
    if limit.Bytes? {
      LimitParts(a, b, limit.max, 1);
      var n := LimitFrom(a, limit.max, 1);
      assert n < |a| ==> (a + b)[..n] == a[..n];
    }
  }

  /** Limiting the first part of a read already decides the read if it stops there. */
  lemma LimitParts(a: seq<Entry>, b: seq<Entry>, max: nat, n: nat)
    requires 1 <= n <= |a|
    ensures LimitFrom(a, max, n) < |a| ==> LimitFrom(a + b, max, n) == LimitFrom(a, max, n)
    decreases |a| - n
  {
    if n < |a| {
      TotalPrefix(a, b, n + 1);
      LimitParts(a, b, max, n + 1);
    }
  }
}
