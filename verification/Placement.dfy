/** Choosing a node by the sum of its ranks: by ranges of the table, and by ranges in all. */
module Placement {

  datatype Node = Node(id: nat, ranges: nat)
  datatype Distribution = Distribution(nodeId: nat, count: nat)

  /** A node's count; 0 if it has none. */
  function CountOf(stat: map<nat, nat>, id: nat): nat { if id in stat then stat[id] else 0 }

  ghost predicate DistinctNodes(ns: seq<Node>) { forall i, j :: 0 <= i < j < |ns| ==> ns[i].id != ns[j].id }

  ghost predicate DistinctIds(ds: seq<Distribution>) { forall i, j :: 0 <= i < j < |ds| ==> ds[i].nodeId != ds[j].nodeId }

  ghost predicate Descending(ds: seq<Distribution>) { forall i, j :: 0 <= i < j < |ds| ==> ds[i].count >= ds[j].count }

  /** Node i has more ranges than node j, both of the table and in all. */
  predicate Dominated(ns: seq<Node>, stat: map<nat, nat>, i: nat, j: nat)
    requires i < |ns| && j < |ns|
  {
    CountOf(stat, ns[i].id) > CountOf(stat, ns[j].id) && ns[i].ranges > ns[j].ranges
  }

  // ---- sorting, in any order of ties ----

  /** `sort.Sort` of distributions: all that is used of it is that its result is one of the descending orders. */
  method SortDistributions(ds: seq<Distribution>) returns (r: seq<Distribution>)
    requires DistinctIds(ds)
    ensures |r| == |ds| && DistinctIds(r) && Descending(r) && forall d :: d in r <==> d in ds
  {
    r := [];
    for i := 0 to |ds|
      invariant |r| == i && DistinctIds(r) && Descending(r) && forall d :: d in r <==> d in ds[..i]
    {
      assert ds[..i + 1] == ds[..i] + [ds[i]];
      assert forall d :: d in ds[..i] ==> d.nodeId != ds[i].nodeId;
      r := Insert(r, ds[i]);
    }
    assert ds[..|ds|] == ds;
  }

  method Insert(ds: seq<Distribution>, x: Distribution) returns (r: seq<Distribution>)
    requires DistinctIds(ds) && Descending(ds) && forall d :: d in ds ==> d.nodeId != x.nodeId
    ensures |r| == |ds| + 1 && DistinctIds(r) && Descending(r) && forall d :: d in r <==> d in ds || d == x
  {
    var k := |ds|;
    while k > 0 && ds[k - 1].count < x.count
      invariant 0 <= k <= |ds| && forall j :: k <= j < |ds| ==> ds[j].count < x.count
    {
      k := k - 1;
    }
    r := ds[..k] + [x] + ds[k..];
    Inserted(ds, k, x);
  }

  lemma Inserted(ds: seq<Distribution>, k: nat, x: Distribution)
    requires k <= |ds| && DistinctIds(ds) && Descending(ds) && forall d :: d in ds ==> d.nodeId != x.nodeId
    requires (k > 0 ==> ds[k - 1].count >= x.count) && forall j :: k <= j < |ds| ==> ds[j].count < x.count
    ensures var r := ds[..k] + [x] + ds[k..]; DistinctIds(r) && Descending(r) && forall d :: d in r <==> d in ds || d == x
  {
    var r := ds[..k] + [x] + ds[k..];
    assert ds == ds[..k] + ds[k..];
    InsertedIds(ds, k, x, r);
    InsertedCounts(ds, k, x, r);
  }

  lemma InsertedIds(ds: seq<Distribution>, k: nat, x: Distribution, r: seq<Distribution>)
    requires k <= |ds| && DistinctIds(ds) && r == ds[..k] + [x] + ds[k..] && forall d :: d in ds ==> d.nodeId != x.nodeId
    ensures DistinctIds(r)
  {
    assert forall j :: 0 <= j < |ds| ==> ds[j] in ds;
  }

  lemma InsertedCounts(ds: seq<Distribution>, k: nat, x: Distribution, r: seq<Distribution>)
    requires k <= |ds| && Descending(ds) && r == ds[..k] + [x] + ds[k..]
    requires (k > 0 ==> ds[k - 1].count >= x.count) && forall j :: k <= j < |ds| ==> ds[j].count < x.count
    ensures Descending(r)
  {}

  // ---- ranks ----

  function Place(ds: seq<Distribution>, id: nat): nat {
    if ds == [] || ds[0].nodeId == id then 0 else 1 + Place(ds[1..], id)
  }

  lemma PlaceAt(ds: seq<Distribution>, i: nat)
    requires DistinctIds(ds) && i < |ds|
    ensures Place(ds, ds[i].nodeId) == i
  {
    if i > 0 {
      assert ds[0].nodeId != ds[i].nodeId && ds[1..][i - 1] == ds[i];
      PlaceAt(ds[1..], i - 1);
    }
  }

  /** In a descending order, fewer means later. */
  lemma FewerIsLater(ds: seq<Distribution>, i: nat, j: nat)
    requires DistinctIds(ds) && Descending(ds) && i < |ds| && j < |ds| && ds[i].count > ds[j].count
    ensures Place(ds, ds[i].nodeId) < Place(ds, ds[j].nodeId)
  {
    PlaceAt(ds, i);
    PlaceAt(ds, j);
  }

  /** The sum of a node's two ranks. */
  function RankSum(ts: seq<Distribution>, ns: seq<Distribution>, id: nat): nat { Place(ts, id) + Place(ns, id) }

  /** A node that is behind another in both orders has the higher sum. */
  lemma RankSumOrders(ts: seq<Distribution>, ns: seq<Distribution>, a: nat, b: nat, ta: nat, tb: nat, na: nat, nb: nat)
    requires DistinctIds(ts) && Descending(ts) && DistinctIds(ns) && Descending(ns)
    requires Distribution(a, ta) in ts && Distribution(b, tb) in ts && Distribution(a, na) in ns && Distribution(b, nb) in ns
    requires ta > tb && na > nb
    ensures RankSum(ts, ns, a) < RankSum(ts, ns, b)
  {
    var i: nat :| i < |ts| && ts[i] == Distribution(a, ta);
    var j: nat :| j < |ts| && ts[j] == Distribution(b, tb);
    FewerIsLater(ts, i, j);
    var k: nat :| k < |ns| && ns[k] == Distribution(a, na);
    var l: nat :| l < |ns| && ns[l] == Distribution(b, nb);
    FewerIsLater(ns, k, l);
  }

  /** Adds each entry's place to what the map holds for its node. */
  method AddRanks(ds: seq<Distribution>, order: map<nat, nat>) returns (r: map<nat, nat>)
    requires DistinctIds(ds)
    ensures forall i :: 0 <= i < |ds| ==> ds[i].nodeId in r && r[ds[i].nodeId] == CountOf(order, ds[i].nodeId) + Place(ds, ds[i].nodeId)
    ensures forall id :: id in r <==> id in order || exists i :: 0 <= i < |ds| && ds[i].nodeId == id
  {
    r := order;
    for i := 0 to |ds|
      invariant forall k :: 0 <= k < i ==> ds[k].nodeId in r && r[ds[k].nodeId] == CountOf(order, ds[k].nodeId) + Place(ds, ds[k].nodeId)
      invariant forall k :: i <= k < |ds| ==> CountOf(r, ds[k].nodeId) == CountOf(order, ds[k].nodeId)
      invariant forall id :: id in r <==> id in order || exists k :: 0 <= k < i && ds[k].nodeId == id
    {
      PlaceAt(ds, i);
      r := r[ds[i].nodeId := CountOf(r, ds[i].nodeId) + i];
    }
  }

  /** The map's entries as a list. */
  method Entries(order: map<nat, nat>) returns (ds: seq<Distribution>)
    ensures DistinctIds(ds) && forall d :: d in ds <==> d.nodeId in order && order[d.nodeId] == d.count
  {
    ds := [];
    var left := order.Keys;
    while left != {}
      invariant left <= order.Keys && DistinctIds(ds)
      invariant forall d :: d in ds <==> d.nodeId in order && d.nodeId !in left && order[d.nodeId] == d.count
      decreases |left|
    {
      var k :| k in left;
      assert forall i :: 0 <= i < |ds| ==> ds[i] in ds;
      ds := ds + [Distribution(k, order[k])];
      left := left - {k};
    }
  }

  // ---- the choice ----

  ghost predicate Counts(ns: seq<Node>, stat: map<nat, nat>, ts: seq<Distribution>, rs: seq<Distribution>) {
    && DistinctIds(ts) && Descending(ts) && DistinctIds(rs) && Descending(rs)
    && (forall d :: d in ts <==> exists i :: 0 <= i < |ns| && d == Distribution(ns[i].id, CountOf(stat, ns[i].id)))
    && (forall d :: d in rs <==> exists i :: 0 <= i < |ns| && d == Distribution(ns[i].id, ns[i].ranges))
  }

  /** A node with the highest sum of ranks is not dominated, whatever the order of ties. */
  lemma BestUndominated(ns: seq<Node>, stat: map<nat, nat>, ts: seq<Distribution>, rs: seq<Distribution>, i: nat)
    requires Counts(ns, stat, ts, rs) && i < |ns|
    requires forall j :: 0 <= j < |ns| ==> RankSum(ts, rs, ns[j].id) <= RankSum(ts, rs, ns[i].id)
    ensures forall j: nat :: j < |ns| ==> !Dominated(ns, stat, i, j)
  {
    forall j: nat | j < |ns| ensures !Dominated(ns, stat, i, j) {
      if Dominated(ns, stat, i, j) {
        RankSumOrders(ts, rs, ns[i].id, ns[j].id, CountOf(stat, ns[i].id), CountOf(stat, ns[j].id), ns[i].ranges, ns[j].ranges);
      }
    }
  }

  /** A node without any ranges. */
  predicate Unused(n: Node, stat: map<nat, nat>) { CountOf(stat, n.id) == 0 && n.ranges == 0 }

  /** Node i has the highest sum of places in these two orders. */
  ghost predicate HighestIn(ns: seq<Node>, stat: map<nat, nat>, ts: seq<Distribution>, rs: seq<Distribution>, i: nat) {
    Counts(ns, stat, ts, rs) && i < |ns| && forall j :: 0 <= j < |ns| ==> RankSum(ts, rs, ns[j].id) <= RankSum(ts, rs, ns[i].id)
  }

  /** The first unused candidate or, if all are used, one with the highest sum in some two descending orders. */
  ghost predicate Chosen(ns: seq<Node>, stat: map<nat, nat>, i: nat) {
    i < |ns| &&
    if exists j :: 0 <= j < |ns| && Unused(ns[j], stat)
    then Unused(ns[i], stat) && forall j :: 0 <= j < i ==> !Unused(ns[j], stat)
    else exists ts: seq<Distribution>, rs: seq<Distribution> :: HighestIn(ns, stat, ts, rs, i)
  }

  /** The choice is beaten in both counts by none. */
  lemma ChosenUndominated(ns: seq<Node>, stat: map<nat, nat>, i: nat)
    requires Chosen(ns, stat, i)
    ensures forall j: nat :: j < |ns| ==> !Dominated(ns, stat, i, j)
  {
    if !Unused(ns[i], stat) {
      var ts: seq<Distribution>, rs: seq<Distribution> :| HighestIn(ns, stat, ts, rs, i);
      BestUndominated(ns, stat, ts, rs, i);
    }
  }

  /** `selectBestNodeST`. */
  method SelectBestNode(ns: seq<Node>, stat: map<nat, nat>) returns (best: nat)
    requires ns != [] && DistinctNodes(ns)
    ensures exists i: nat :: i < |ns| && ns[i].id == best && Chosen(ns, stat, i) && forall j: nat :: j < |ns| ==> !Dominated(ns, stat, i, j)
  {
    var tDist: seq<Distribution>, nDist: seq<Distribution> := [], [];
    for i := 0 to |ns|
      invariant |tDist| == i && |nDist| == i && forall k :: 0 <= k < i ==> !Unused(ns[k], stat)
      invariant forall k :: 0 <= k < i ==> tDist[k] == Distribution(ns[k].id, CountOf(stat, ns[k].id)) && nDist[k] == Distribution(ns[k].id, ns[k].ranges)
    {
      var tNum := CountOf(stat, ns[i].id);
      if tNum == 0 && ns[i].ranges == 0 {
        assert Unused(ns[i], stat) && Chosen(ns, stat, i);
        return ns[i].id;
      }
      tDist := tDist + [Distribution(ns[i].id, tNum)];
      nDist := nDist + [Distribution(ns[i].id, ns[i].ranges)];
    }
    var ts := SortDistributions(tDist);
    var rs := SortDistributions(nDist);
    assert Counts(ns, stat, ts, rs);
    ghost var i;
    best, i := HighestSum(ns, stat, ts, rs);
    assert Chosen(ns, stat, i);
    ChosenUndominated(ns, stat, i);
  }

  method HighestSum(ghost ns: seq<Node>, ghost stat: map<nat, nat>, ts: seq<Distribution>, rs: seq<Distribution>)
    returns (best: nat, ghost i: nat)
    requires ns != [] && Counts(ns, stat, ts, rs)
    ensures HighestIn(ns, stat, ts, rs, i) && ns[i].id == best
  {
    var byTable := AddRanks(ts, map[]);
    var order := AddRanks(rs, byTable);
    var scope := Entries(order);
    var sorted := SortDistributions(scope);
    forall j | 0 <= j < |ns| ensures ns[j].id in order && order[ns[j].id] == RankSum(ts, rs, ns[j].id) {
      Summed(ns, stat, ts, rs, byTable, order, j);
    }
    assert Distribution(ns[0].id, order[ns[0].id]) in scope;
    assert sorted != [] && sorted[0] in scope;
    best := sorted[0].nodeId;
    assert exists i :: 0 <= i < |ns| && ns[i].id == best by {
      if k: nat :| k < |rs| && rs[k].nodeId == best {
        assert rs[k] in rs;
      } else {
        var k: nat :| k < |ts| && ts[k].nodeId == best;
        assert ts[k] in ts;
      }
    }
    i :| 0 <= i < |ns| && ns[i].id == best;
    forall j | 0 <= j < |ns| ensures RankSum(ts, rs, ns[j].id) <= RankSum(ts, rs, ns[i].id) {
      assert Distribution(ns[j].id, order[ns[j].id]) in sorted;
    }
  }

  lemma Summed(ns: seq<Node>, stat: map<nat, nat>, ts: seq<Distribution>, rs: seq<Distribution>,
               byTable: map<nat, nat>, order: map<nat, nat>, j: nat)
    requires Counts(ns, stat, ts, rs) && j < |ns|
    requires forall i :: 0 <= i < |ts| ==> ts[i].nodeId in byTable && byTable[ts[i].nodeId] == Place(ts, ts[i].nodeId)
    requires forall i :: 0 <= i < |rs| ==> rs[i].nodeId in order && order[rs[i].nodeId] == CountOf(byTable, rs[i].nodeId) + Place(rs, rs[i].nodeId)
    ensures ns[j].id in order && order[ns[j].id] == RankSum(ts, rs, ns[j].id)
  {
    assert Distribution(ns[j].id, CountOf(stat, ns[j].id)) in ts;
    assert Distribution(ns[j].id, ns[j].ranges) in rs;
  }
}
