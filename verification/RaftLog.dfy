/** The two-part log: entries in storage, and a tail not yet written that may overlap and outdate them. */
module RaftLogClass {
  import opened RaftTypes
  import opened LogSpec

  // ---- sequences behind the class ----

  lemma ConsecutiveDrop(ents: seq<Entry>, after: nat, k: nat)
    requires Consecutive(ents, after) && k <= |ents|
    ensures Consecutive(ents[k..], after + k) && Consecutive(ents[..k], after)
    ensures k < |ents| ==> ents[k..][0].index == after + 1 + k
  {}

  lemma ConsecutiveJoin(a: seq<Entry>, b: seq<Entry>, after: nat)
    requires Consecutive(a, after) && Consecutive(b, after + |a|)
    ensures Consecutive(a + b, after)
  {}

  /** Cutting a joined log inside its second part cuts that part. */
  lemma CutSecond<T>(a: seq<T>, b: seq<T>, c: seq<T>, n: nat)
    requires n <= |b|
    ensures a + (b[..n] + c) == (a + b)[..|a| + n] + c
  {}

  lemma CutFirst<T>(a: seq<T>, b: seq<T>, n: nat, m: nat)
    requires n <= m <= |a|
    ensures (a[..m] + b)[..n] == a[..n]
  {}

  /** A window over a joined log, part by part. */
  lemma Window<T>(a: seq<T>, b: seq<T>, m: nat, lo: nat, hi: nat)
    requires m <= |a| && lo <= hi <= m + |b|
    ensures hi <= m ==> (a[..m] + b)[lo..hi] == a[lo..hi]
    ensures m <= lo ==> (a[..m] + b)[lo..hi] == b[lo - m..hi - m]
    ensures lo <= m <= hi ==> (a[..m] + b)[lo..hi] == a[lo..m] + b[..hi - m]
  {}

  /** Reading a window part by part gives what a limited read of the whole window gives. */
  lemma ReadParts(a: seq<Entry>, b: seq<Entry>, m: nat, lo: nat, hi: nat, limit: Limit)
    requires m <= |a| && lo < hi <= m + |b|
    ensures lo < m < hi ==>
      var r := LimitSize(a[lo..m], limit);
      if |r| < m - lo then r == LimitSize((a[..m] + b)[lo..hi], limit) else r + b[..hi - m] == (a[..m] + b)[lo..hi]
    ensures hi <= m ==>
      var r := LimitSize(a[lo..hi], limit);
      if |r| < hi - lo then r == LimitSize((a[..m] + b)[lo..hi], limit) else r == (a[..m] + b)[lo..hi]
    ensures m <= lo ==> b[lo - m..hi - m] == (a[..m] + b)[lo..hi]
  {
    Window(a, b, m, lo, hi);
    if lo < m < hi {
      FirstPart(a[lo..m], b[..hi - m], limit);
    } else if hi <= m {
      FirstPart(a[lo..hi], [], limit);
      assert a[lo..hi] + [] == a[lo..hi];
    }
  }

  class RaftLog {
    // storage: the entries after the compaction point
    const base: nat
    const baseTerm: nat
    var stored: seq<Entry>
    // the tail, whose first entry has index `offset`
    var offset: nat
    var unstable: seq<Entry>
    var committed: nat
    var applied: nat

    ghost predicate Valid()
      reads this
    {
      && base + 1 <= offset <= base + |stored| + 1
      && (unstable == [] ==> offset == base + |stored| + 1)
      && Consecutive(stored[..offset - base - 1], base)
      && Consecutive(unstable, offset - 1)
      && base <= applied <= committed <= base + |stored[..offset - base - 1] + unstable|
    }

    /** The one log the two parts stand for; stored entries from `offset` on are out of date. */
    ghost function View(): seq<Entry>
      requires Valid()
      reads this
    {
      stored[..offset - base - 1] + unstable
    }

    /** `newRaftLog`, on what storage holds. */
    constructor (base: nat, baseTerm: nat, ents: seq<Entry>)
      requires Consecutive(ents, base)
      ensures Valid() && View() == ents && this.base == base && this.baseTerm == baseTerm
      ensures committed == base && applied == base && unstable == [] && stored == ents
    {
      this.base, this.baseTerm := base, baseTerm;
      stored, offset, unstable := ents, base + |ents| + 1, [];
      committed, applied := base, base;
      new;
      assert stored[..offset - base - 1] == ents;
    }

    function LastIndex(): (i: nat)
      requires Valid()
      reads this
      ensures i == base + |View()|
    {
      if |unstable| != 0 then offset + |unstable| - 1 else base + |stored|
    }

    function Term(i: nat): (t: nat)
      requires Valid()
      reads this
      ensures t == TermIn(base, baseTerm, View(), i)
    {
      if i < base || i > LastIndex() then 0
      else if offset <= i && |unstable| != 0 && i <= offset + |unstable| - 1 then unstable[i - offset].term
      else if i == base then baseTerm
      else stored[i - base - 1].term
    }

    predicate MatchTerm(i: nat, term: nat)
      requires Valid()
      reads this
    {
      Term(i) == term
    }

    method FindConflict(ents: seq<Entry>) returns (ci: nat)
      requires Valid()
      ensures ci == LogSpec.FindConflict(base, baseTerm, View(), ents)
    {
      var k := 0;
      while k < |ents|
        invariant 0 <= k <= |ents|
        invariant LogSpec.FindConflict(base, baseTerm, View(), ents) == LogSpec.FindConflict(base, baseTerm, View(), ents[k..])
      {
        if !MatchTerm(ents[k].index, ents[k].term) {
          return ents[k].index;
        }
        k := k + 1;
      }
      return 0;
    }

    /** `truncateAndAppend` of the tail. */
    method TruncateAndAppend(ents: seq<Entry>)
      requires Valid() && ents != [] && ents[0].index >= 1 && Consecutive(ents, ents[0].index - 1)
      requires committed < ents[0].index <= base + |View()| + 1
      modifies this`offset, this`unstable
      ensures Valid() && View() == AppendEnts(base, old(View()), ents)
    {
      var after := ents[0].index;
      if after == offset + |unstable| {
        CutSecond(stored[..offset - base - 1], unstable, ents, |unstable|);
        assert unstable[..|unstable|] == unstable;
        ConsecutiveJoin(unstable, ents, offset - 1);
        unstable := unstable + ents;
      } else if after <= offset {
        CutFirst(stored, unstable, after - base - 1, offset - base - 1);
        ConsecutiveDrop(stored[..offset - base - 1], base, after - base - 1);
        assert stored[..offset - base - 1][..after - base - 1] == stored[..after - base - 1];
        unstable := ents;
        offset := after;
      } else {
        CutSecond(stored[..offset - base - 1], unstable, ents, after - offset);
        ConsecutiveDrop(unstable, offset - 1, after - offset);
        ConsecutiveJoin(unstable[..after - offset], ents, offset - 1);
        unstable := unstable[..after - offset] + ents;
      }
    }

    /** `append`; false where the code panics, and then nothing has changed. */
    method Append(ents: seq<Entry>) returns (ok: bool)
      requires Valid() && (ents != [] ==> ents[0].index >= 1 && Consecutive(ents, ents[0].index - 1))
      modifies this`offset, this`unstable
      ensures Valid()
      ensures ok == (ents == [] || committed < ents[0].index <= base + |old(View())| + 1)
      ensures View() == if ok then AppendEnts(base, old(View()), ents) else old(View())
    {
      if |ents| == 0 {
        return true;
      }
      var after := ents[0].index - 1;
      if after < committed {
        return false;
      }
      if ents[0].index > offset + |unstable| {
        return false;
      }
      TruncateAndAppend(ents);
      return true;
    }

    /** `commitTo`; false where the code panics. */
    method CommitTo(tocommit: nat) returns (ok: bool)
      requires Valid()
      modifies this`committed
      ensures Valid() && View() == old(View())
      ensures ok == (tocommit <= Max(old(committed), base + |View()|))
      ensures committed == if ok then Max(old(committed), tocommit) else old(committed)
    {
      if committed < tocommit {
        if LastIndex() < tocommit {
          return false;
        }
        committed := tocommit;
      }
      return true;
    }

    method MaybeAppend(index: nat, logTerm: nat, commit: nat, ents: seq<Entry>)
      returns (last: nat, ok: bool, panic: bool)
      requires Valid() && Consecutive(ents, index)
      modifies this`offset, this`unstable, this`committed
      ensures Valid()
      ensures AppendResult(ok, panic, View(), committed, last)
           == LogSpec.MaybeAppend(base, baseTerm, old(View()), old(committed), index, logTerm, commit, ents)
    {
      if !MatchTerm(index, logTerm) {
        return 0, false, false;
      }
      var ci := FindConflict(ents);
      ConflictPlace(base, baseTerm, View(), ents, index);
      last, ok, panic := TakeFrom(ci, index, commit, ents);
    }

    method TakeFrom(ci: nat, index: nat, commit: nat, ents: seq<Entry>) returns (last: nat, ok: bool, panic: bool)
      requires Valid() && Consecutive(ents, index) && (ci != 0 ==> index < ci <= index + |ents|)
      modifies this`offset, this`unstable, this`committed
      ensures Valid()
      ensures AppendResult(ok, panic, View(), committed, last)
           == LogSpec.TakeFrom(base, old(View()), old(committed), ci, index, commit, ents)
    {
      last := index + |ents|;
      if ci != 0 {
        if ci <= committed {
          return 0, false, true;
        }
        ConsecutiveDrop(ents, index, ci - (index + 1));
        var done := Append(ents[ci - (index + 1)..]);
        if !done {
          return 0, false, true;
        }
      }
      var done := CommitTo(Min(commit, last));
      if !done {
        return 0, false, true;
      }
      return last, true, false;
    }

    method MaybeCommit(maxIndex: nat, term: nat) returns (advanced: bool, panic: bool)
      requires Valid()
      modifies this`committed
      ensures Valid() && View() == old(View())
      ensures advanced == (maxIndex > old(committed) && TermIn(base, baseTerm, View(), maxIndex) == term && maxIndex <= base + |View()|)
      ensures panic == (maxIndex > old(committed) && TermIn(base, baseTerm, View(), maxIndex) == term && maxIndex > base + |View()|)
      ensures committed == if advanced then maxIndex else old(committed)
    {
      if maxIndex > committed && Term(maxIndex) == term {
        var done := CommitTo(maxIndex);
        return done, !done;
      }
      return false, false;
    }

    /** `appliedTo`; false where the code panics. */
    method AppliedTo(i: nat) returns (ok: bool)
      requires Valid()
      modifies this`applied
      ensures Valid() && View() == old(View())
      ensures ok == (i == 0 || old(applied) <= i <= committed)
      ensures applied == if ok && i != 0 then i else old(applied)
    {
      if i == 0 {
        return true;
      }
      if committed < i || i < applied {
        return false;
      }
      applied := i;
      return true;
    }

    predicate IsUpToDate(lasti: nat, term: nat, fpri: nat, lpri: nat)
      requires Valid()
      reads this
    {
      var li := LastIndex();
      var lt := Term(li);
      term > lt || (term == lt && lasti > li) || (term == lt && lasti == li && fpri >= lpri)
    }

    // ---- reading ----

    /** What storage promises of a limited read: as many entries as the limit allows, and at least one. */
    function StoredEntries(lo: nat, hi: nat, limit: Limit): seq<Entry>
      requires base < lo <= hi <= base + |stored| + 1
      reads this
    {
      LogSpec.LimitSize(stored[lo - base - 1..hi - base - 1], limit)
    }

    /** Entries lo..hi-1 of the log; `compacted` for ErrCompacted, `panic` where the code panics. */
    method Slice(lo: nat, hi: nat, limit: Limit) returns (ents: seq<Entry>, compacted: bool, panic: bool)
      requires Valid()
      ensures panic == (lo > hi || (lo < hi && lo > base && hi > base + |View()| + 1))
      ensures compacted == (lo < hi && lo <= base)
      ensures !panic && !compacted ==> lo == hi || base < lo < hi <= base + |View()| + 1
      ensures !panic && !compacted && lo < hi ==> ents == LogSpec.LimitSize(View()[lo - base - 1..hi - base - 1], limit)
      ensures panic || compacted || lo == hi ==> ents == []
    {
      if lo == hi {
        return [], false, false;
      }
      if lo > hi {
        return [], false, true;
      }
      if lo < base + 1 {
        return [], true, false;
      }
      if hi > LastIndex() + 1 {
        return [], false, true;
      }
      ents := Read(lo, hi, limit);
      return ents, false, false;
    }

    /** The entries from index i on; nothing beyond the end. */
    method Entries(i: nat, limit: Limit) returns (ents: seq<Entry>, compacted: bool)
      requires Valid()
      ensures compacted == (i <= base && i <= base + |View()|)
      ensures ents == if compacted || i > base + |View()| then [] else LogSpec.LimitSize(View()[i - base - 1..], limit)
    {
      if i > LastIndex() {
        return [], false;
      }
      var panic;
      ents, compacted, panic := Slice(i, LastIndex() + 1, limit);
      assert i > base ==> View()[i - base - 1..] == View()[i - base - 1..base + |View()| - base];
    }

    /** The part of the window in storage, then the part in the tail. */
    method Read(lo: nat, hi: nat, limit: Limit) returns (ents: seq<Entry>)
      requires Valid() && base < lo < hi <= base + |View()| + 1
      ensures ents == LogSpec.LimitSize(View()[lo - base - 1..hi - base - 1], limit)
    {
      ghost var a, b, m, whole := stored, unstable, offset - base - 1, View()[lo - base - 1..hi - base - 1];
      ReadParts(a, b, m, lo - base - 1, hi - base - 1, limit);
      ents := [];
      if lo < offset {
        var storedhi := Min(hi, offset);
        ents := StoredEntries(lo, storedhi, limit);
        if |ents| < storedhi - lo {
          return ents;
        }
        if hi > offset {
          ents := ents + unstable[..hi - offset];
        }
        assert ents == whole;
      } else {
        ents := unstable[lo - offset..hi - offset];
        assert ents == whole;
      }
      if limit.NoLimit? {
        return ents;
      }
      ents := LimitSize(ents, limit);
    }

    /** `limitSize`, entry by entry. */
    method LimitSize(ents: seq<Entry>, limit: Limit) returns (r: seq<Entry>)
      ensures r == LogSpec.LimitSize(ents, limit)
    {
      if |ents| == 0 || limit.NoLimit? {
        return ents;
      }
      var size := ents[0].Size();
      var n := 1;
      assert Total(ents, 0) == 0;
      while n < |ents|
        invariant 1 <= n <= |ents| && size == Total(ents, n)
        invariant LimitFrom(ents, limit.max, 1) == LimitFrom(ents, limit.max, n)
      {
        size := size + ents[n].Size();
        if size > limit.max {
          break;
        }
        n := n + 1;
      }
      return ents[..n];
    }

    /** The committed entries not yet applied. */
    method NextEnts(limit: Limit) returns (ents: seq<Entry>)
      requires Valid()
      ensures ents == LogSpec.LimitSize(View()[applied - base..committed - base], limit)
      ensures applied < committed ==> ents != []
    {
      var off := Max(applied + 1, base + 1);
      var hi := committed + 1;
      if hi > off {
        var compacted, panic;
        ents, compacted, panic := Slice(off, hi, limit);
        return ents;
      }
      return [];
    }

    // ---- the ready turn ----

    /** `persist`: storage drops what the tail outdates, then takes the tail. */
    method Persist()
      requires Valid()
      modifies this`stored
      ensures Valid() && View() == old(View())
      ensures stored == View()
    {
      if |unstable| > 0 {
        stored := stored[..offset - base - 1] + unstable;
        assert stored[..offset - base - 1] == old(stored)[..offset - base - 1];
      }
      assert stored == stored[..offset - base - 1] + unstable;
    }

    method StableTo(i: nat, t: nat)
      requires Valid()
      requires offset <= i < offset + |unstable| ==> stored == View()
      modifies this`offset, this`unstable
      ensures Valid() && View() == old(View())
      ensures old(offset) <= i < old(offset + |unstable|) && old(View())[i - base - 1].term == t ==> offset == i + 1
    {
      if i < offset || |unstable| == 0 || i > offset + |unstable| - 1 {
        return;
      }
      if unstable[i - offset].term == t {
        ghost var v := View();
        unstable := unstable[i + 1 - offset..];
        offset := i + 1;
        assert View() == v;
      }
    }

    /** `advance`, straight after `Persist`: everything committed counts as applied and the tail is empty. */
    method Advance() returns (ok: bool)
      requires Valid() && stored == View()
      modifies this`applied, this`offset, this`unstable
      ensures Valid() && View() == old(View()) && ok
      ensures applied == committed && unstable == [] && offset == base + |View()| + 1
    {
      ok := AppliedTo(committed);
      if |unstable| > 0 {
        StableTo(unstable[|unstable| - 1].index, unstable[|unstable| - 1].term);
      }
    }
  }
}
