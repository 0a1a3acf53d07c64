/** The commit rule's arithmetic: the index that a majority of replicas has reached. */
module QuorumIndex {
  import opened RaftTypes

  /** The replicas that have reached index i. */
  function Reached(m: map<Id, nat>, i: nat): set<Id> {
    set k | k in m && m[k] >= i
  }

  /** i is the greatest index that at least q replicas have reached. */
  ghost predicate Greatest(m: map<Id, nat>, q: nat, i: nat) {
    |Reached(m, i)| >= q && forall j :: j > i ==> |Reached(m, j)| < q
  }

  lemma GreatestUnique(m: map<Id, nat>, q: nat, i: nat, j: nat)
    requires Greatest(m, q, i) && Greatest(m, q, j)
    ensures i == j
  {}

  /** The index that a majority has reached, as a function of the match indexes. */
  ghost function Agreed(m: map<Id, nat>): (i: nat)
    requires m != map[]
    ensures Greatest(m, QuorumSize(|m|), i)
  {
    assert forall j :: j >= Above(m) ==> Reached(m, j) == {};
    assert m.Keys != {};
    Down(m, QuorumSize(|m|), Above(m))
  }

  /** A bound that no match index reaches. */
  ghost function Above(m: map<Id, nat>): (b: nat)
    ensures forall k :: k in m ==> m[k] < b
  {
    if m == map[] then 0 else
      var k :| k in m;
      var rest := m - {k};
      assert forall x :: x in m ==> x == k || (x in rest && rest[x] == m[x]);
      Max(m[k] + 1, Above(rest))
  }

  /** Searches downwards from a bound that too few have reached. */
  ghost function Down(m: map<Id, nat>, q: nat, b: nat): (i: nat)
    requires 1 <= q <= |m| && forall j :: j >= b ==> |Reached(m, j)| < q
    ensures Greatest(m, q, i)
  {
    assert Reached(m, 0) == m.Keys;
    if |Reached(m, b - 1)| >= q then b - 1 else Down(m, q, b - 1)
  }

  // ---- by sorting ----

  /** How many entries of a list have reached i. */
  function CountReached(s: seq<nat>, i: nat): nat {
    if s == [] then 0 else CountReached(s[..|s| - 1], i) + (if s[|s| - 1] >= i then 1 else 0)
  }

  predicate Descending(s: seq<nat>) {
    forall a, b :: 0 <= a < b < |s| ==> s[a] >= s[b]
  }

  lemma CountBound(s: seq<nat>, i: nat)
    ensures CountReached(s, i) <= |s|
  {}

  lemma CountJoin(a: seq<nat>, b: seq<nat>, i: nat)
    ensures CountReached(a + b, i) == CountReached(a, i) + CountReached(b, i)
  {
    if b == [] {
      assert a + b == a;
    } else {
      CountJoin(a, b[..|b| - 1], i);
      assert (a + b)[..|a + b| - 1] == a + b[..|b| - 1];
    }
  }

  /** In a descending list, place q - 1 has reached i exactly when q entries have. */
  lemma {:induction false} DescendingPlace(s: seq<nat>, q: nat, i: nat)
    requires Descending(s) && 1 <= q <= |s|
    ensures s[q - 1] >= i <==> CountReached(s, i) >= q
  {
    var front := s[..|s| - 1];
    CountBound(front, i);
    if s[|s| - 1] >= i {
      AllReached(s, i);
    } else if q < |s| {
      DescendingPlace(front, q, i);
    }
  }

  lemma AllReached(s: seq<nat>, i: nat)
    requires Descending(s) && (s != [] ==> s[|s| - 1] >= i)
    ensures CountReached(s, i) == |s|
  {
    if s != [] { AllReached(s[..|s| - 1], i); }
  }

  /** Puts x where it belongs in a descending list. */
  method Insert(s: seq<nat>, x: nat) returns (r: seq<nat>)
    requires Descending(s)
    ensures Descending(r) && |r| == |s| + 1
    ensures forall i: nat :: CountReached(r, i) == CountReached(s, i) + (if x >= i then 1 else 0)
  {
    var k := |s|;
    while k > 0 && s[k - 1] < x
      invariant 0 <= k <= |s| && forall j :: k <= j < |s| ==> s[j] < x
    {
      k := k - 1;
    }
    r := s[..k] + [x] + s[k..];
    forall i: nat ensures CountReached(r, i) == CountReached(s, i) + (if x >= i then 1 else 0) {
      CountJoin(s[..k] + [x], s[k..], i);
      CountJoin(s[..k], [x], i);
      CountJoin(s[..k], s[k..], i);
      assert s == s[..k] + s[k..];
      assert [x][..0] == [];
    }
  }

  method SortDescending(s: seq<nat>) returns (r: seq<nat>)
    ensures Descending(r) && |r| == |s| && forall i: nat :: CountReached(r, i) == CountReached(s, i)
  {
    r := [];
    for k := 0 to |s|
      invariant Descending(r) && |r| == k && forall i: nat :: CountReached(r, i) == CountReached(s[..k], i)
    {
      assert s[..k + 1][..k] == s[..k];
      r := Insert(r, s[k]);
    }
    assert s[..|s|] == s;
  }

  function ReachedIn(m: map<Id, nat>, done: set<Id>, i: nat): set<Id> {
    set k | k in done && k in m && m[k] >= i
  }

  /** The list holds the match indexes of the replicas in `done`. */
  ghost predicate Lists(m: map<Id, nat>, done: set<Id>, mis: seq<nat>) {
    |mis| == |done| && forall i: nat :: CountReached(mis, i) == |ReachedIn(m, done, i)|
  }

  lemma ListsMore(m: map<Id, nat>, done: set<Id>, mis: seq<nat>, k: Id)
    requires Lists(m, done, mis) && k in m && k !in done
    ensures Lists(m, done + {k}, mis + [m[k]])
  {
    forall i: nat ensures CountReached(mis + [m[k]], i) == |ReachedIn(m, done + {k}, i)| {
      assert (mis + [m[k]])[..|mis|] == mis;
      assert ReachedIn(m, done + {k}, i) == ReachedIn(m, done, i) + (if m[k] >= i then {k} else {});
    }
  }

  lemma PlaceAgreed(m: map<Id, nat>, mis: seq<nat>, sorted: seq<nat>)
    requires m != map[] && Lists(m, m.Keys, mis) && Descending(sorted) && |sorted| == |mis|
    requires forall i: nat :: CountReached(sorted, i) == CountReached(mis, i)
    ensures 0 < QuorumSize(|m|) <= |sorted| && sorted[QuorumSize(|m|) - 1] == Agreed(m)
  {
    assert m.Keys != {};
    var q := QuorumSize(|m|);
    forall i: nat ensures |Reached(m, i)| >= q <==> sorted[q - 1] >= i {
      assert Reached(m, i) == ReachedIn(m, m.Keys, i);
      DescendingPlace(sorted, q, i);
    }
    GreatestUnique(m, q, sorted[q - 1], Agreed(m));
  }

  /** `mis[quorum-1]` after the descending sort is the index that a majority has reached. */
  method PickAgreed(m: map<Id, nat>) returns (mci: nat)
    requires m != map[]
    ensures mci == Agreed(m)
  {
    var mis: seq<nat> := [];
    var left := m.Keys;
    ghost var done: set<Id> := {};
    while left != {}
      invariant left <= m.Keys && done == m.Keys - left && Lists(m, done, mis)
      decreases |left|
    {
      var k :| k in left;
      ListsMore(m, done, mis, k);
      mis := mis + [m[k]];
      left, done := left - {k}, done + {k};
    }
    assert done == m.Keys;
    var sorted := SortDescending(mis);
    PlaceAgreed(m, mis, sorted);
    mci := sorted[QuorumSize(|m|) - 1];
  }
}
