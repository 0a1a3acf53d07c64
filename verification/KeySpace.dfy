/**
 The key space of a table: keys that start with the table's 9-byte prefix, cut at split keys into half-open
 ranges under the byte-wise order.
 */
module KeySpace {
  import RaftTypes

  type Byte = RaftTypes.Byte
  type Key = seq<Byte>

  // ---- the order of bytes.Compare ----

  predicate Less(a: Key, b: Key) {
    if b == [] then false
    else if a == [] then true
    else a[0] < b[0] || (a[0] == b[0] && Less(a[1..], b[1..]))
  }

  predicate AtMost(a: Key, b: Key) { !Less(b, a) }

  lemma {:induction false} LessTrans(a: Key, b: Key, c: Key)
    ensures AtMost(a, b) && AtMost(b, c) ==> AtMost(a, c)
    ensures Less(a, b) && AtMost(b, c) ==> Less(a, c)
    ensures AtMost(a, b) && Less(b, c) ==> Less(a, c)
    decreases |a| + |b| + |c|
  {
    if a != [] && b != [] && c != [] { LessTrans(a[1..], b[1..], c[1..]); }
  }

  lemma {:induction false} LessTotal(a: Key, b: Key)
    ensures Less(a, b) || Less(b, a) || a == b
    ensures !(Less(a, b) && (Less(b, a) || a == b))
    decreases |a| + |b|
  {
    if a != [] && b != [] {
      LessTotal(a[1..], b[1..]);
      assert a == [a[0]] + a[1..] && b == [b[0]] + b[1..];
    }
  }

  /** Keys that share a prefix compare as their rests do. */
  lemma {:induction false} LessUnder(p: Key, a: Key, b: Key)
    ensures Less(p + a, p + b) == Less(a, b)
  {
    if p == [] {
      assert p + a == a && p + b == b;
    } else {
      assert (p + a)[1..] == p[1..] + a && (p + b)[1..] == p[1..] + b;
      LessUnder(p[1..], a, b);
    }
  }

  // ---- the end of a prefix ----

  /** The least key above all keys with the prefix; empty if there is none. */
  function Limit(prefix: Key): Key {
    if prefix == [] then []
    else
      var n := |prefix| - 1;
      if prefix[n] < 255 then prefix[..n] + [prefix[n] + 1] else Limit(prefix[..n])
  }

  /** `BytesPrefix`: looks for the last byte that can be raised. */
  method BytesPrefix(prefix: Key) returns (start: Key, limit: Key)
    ensures start == prefix && limit == Limit(prefix)
  {
    start, limit := prefix, [];
    var i := |prefix| - 1;
    assert prefix[..i + 1] == prefix;
    while i >= 0
      invariant -1 <= i < |prefix| && limit == [] && Limit(prefix) == Limit(prefix[..i + 1])
    {
      var c := prefix[i];
      assert prefix[..i + 1][..i] == prefix[..i];
      if c < 255 {
        limit := prefix[..i] + [c + 1];
        break;
      }
      i := i - 1;
    }
  }

  predicate Within(k: Key, start: Key, end: Key) { AtMost(start, k) && (end == [] || Less(k, end)) }

  /** From the prefix up to its limit lie exactly the keys that start with it. */
  lemma {:induction false} PrefixExact(prefix: Key, k: Key)
    ensures prefix <= k <==> Within(k, prefix, Limit(prefix))
    decreases |prefix|, 1
  {
    if prefix != [] {
      var n := |prefix| - 1;
      var front := prefix[..n];
      assert prefix == front + [prefix[n]];
      if front <= k {
        var rest := k[n..];
        assert k == front + rest;
        LessUnder(front, rest, [prefix[n]]);
        if prefix[n] < 255 {
          LessUnder(front, rest, [prefix[n] + 1]);
          OneByte(rest, prefix[n]);
        } else {
          TopByte(rest);
          PrefixExact(front, k);
        }
      } else {
        NotUnder(prefix, k);
        assert !(prefix <= k);
      }
    }
  }

  lemma OneByte(rest: Key, c: Byte)
    requires c < 255
    ensures [c] <= rest <==> AtMost([c], rest) && Less(rest, [c + 1])
  {
    if rest != [] {
      assert rest[..1] == [rest[0]] && [c][1..] == [] && [c + 1][1..] == [] && !Less(rest[1..], []);
    }
  }

  lemma TopByte(rest: Key)
    ensures [255] <= rest <==> AtMost([255], rest)
  {
    if rest != [] {
      assert rest[..1] == [rest[0]] && [255 as Byte][1..] == [] && !Less(rest[1..], []);
    }
  }

  /** A key outside all but the last byte of a prefix is outside its range. */
  lemma NotUnder(prefix: Key, k: Key)
    requires prefix != [] && !(prefix[..|prefix| - 1] <= k)
    ensures !Within(k, prefix, Limit(prefix))
    decreases |prefix|, 0
  {
    var n := |prefix| - 1;
    var front := prefix[..n];
    PrefixExact(front, k);
    BelowLimit(prefix);
    assert front == front + [] && prefix == front + [prefix[n]];
    LessUnder(front, [prefix[n]], []);
    LessTrans(front, prefix, k);
    if Limit(prefix) != [] && Limit(front) != [] { LessTrans(k, Limit(prefix), Limit(front)); }
  }

  /** Limits grow as prefixes get shorter. */
  lemma BelowLimit(prefix: Key)
    requires prefix != []
    ensures var front := prefix[..|prefix| - 1];
      Limit(front) != [] ==> Limit(prefix) != [] && AtMost(Limit(prefix), Limit(front))
  {
    var n := |prefix| - 1;
    var front := prefix[..n];
    LessTotal(Limit(prefix), Limit(front));
    if Limit(front) != [] && prefix[n] < 255 { AboveUnder(front, [prefix[n] + 1]); }
  }

  /** Everything under a prefix is below its limit. */
  lemma {:induction false} AboveUnder(front: Key, rest: Key)
    requires Limit(front) != []
    ensures Less(front + rest, Limit(front))
    decreases |front|
  {
    var n := |front| - 1;
    if front[n] < 255 {
      assert front + rest == front[..n] + ([front[n]] + rest);
      LessUnder(front[..n], [front[n]] + rest, [front[n] + 1]);
    } else {
      assert front + rest == front[..n] + ([front[n]] + rest);
      AboveUnder(front[..n], [front[n]] + rest);
    }
  }

  // ---- a table's prefix ----

  const STORE_PREFIX_KV: Byte := 1
  const UINT64_LIMIT: nat := 0x1_0000_0000_0000_0000

  function Pow256(n: nat): (r: nat)
    ensures r > 0
  {
    if n == 0 then 1 else 256 * Pow256(n - 1)
  }

  /** The last `width` base-256 digits, most significant first. */
  function BigEndian(v: nat, width: nat): Key {
    if width == 0 then [] else BigEndian(v / 256, width - 1) + [v % 256]
  }

  function FromBigEndian(b: Key): nat {
    if b == [] then 0 else FromBigEndian(b[..|b| - 1]) * 256 + b[|b| - 1]
  }

  lemma {:induction false} BigEndianRound(v: nat, width: nat)
    requires v < Pow256(width)
    ensures |BigEndian(v, width)| == width && FromBigEndian(BigEndian(v, width)) == v
  {
    if width > 0 {
      BigEndianRound(v / 256, width - 1);
      var b := BigEndian(v, width);
      assert b[..|b| - 1] == BigEndian(v / 256, width - 1);
    }
  }

  /** Byte k of a big-endian number of a given width is its digit at that place. */
  lemma {:induction false} BigEndianDigit(v: nat, width: nat, k: nat)
    requires k < width
    ensures |BigEndian(v, width)| == width && BigEndian(v, width)[k] == (v / Pow256(width - 1 - k)) % 256
  {
    Width(v, width);
    if k < width - 1 {
      BigEndianDigit(v / 256, width - 1, k);
      Width(v / 256, width - 1);
      Shifted(v, Pow256(width - 2 - k));
    }
  }

  lemma {:induction false} Width(v: nat, width: nat)
    ensures |BigEndian(v, width)| == width
  {
    if width > 0 { Width(v / 256, width - 1); }
  }

  lemma Shifted(v: nat, p: nat)
    requires p > 0
    ensures v / 256 / p == v / (256 * p)
  {
    var q := v / (256 * p);
    var r := v - q * (256 * p);
    assert v / 256 == q * p + r / 256 by { assert v == 256 * (q * p) + r; }
    assert r / 256 < p;
    Quotient(v / 256, p, q, r / 256);
  }

  lemma Quotient(n: nat, p: nat, q: nat, r: nat)
    requires p > 0 && n == q * p + r && r < p
    ensures n / p == q
  {
    var d := n / p;
    assert d < q ==> (d + 1) * p <= q * p;
    assert d > q ==> (q + 1) * p <= d * p;
  }

  /** A table with a smaller id lies below: the encoding keeps the order. */
  lemma {:induction false} BigEndianOrder(a: nat, b: nat, width: nat)
    requires a < b < Pow256(width)
    ensures Less(BigEndian(a, width), BigEndian(b, width))
  {
    if width > 0 {
      var x, y := BigEndian(a / 256, width - 1), BigEndian(b / 256, width - 1);
      Width(a / 256, width - 1);
      Width(b / 256, width - 1);
      if a / 256 < b / 256 {
        BigEndianOrder(a / 256, b / 256, width - 1);
        LessExtends(x, y, [a % 256], [b % 256]);
      } else {
        assert x == y;
        LessUnder(x, [a % 256], [b % 256]);
      }
    }
  }

  /** Keys of one length that differ stay in order however they go on. */
  lemma {:induction false} LessExtends(x: Key, y: Key, s: Key, t: Key)
    requires |x| == |y| && Less(x, y)
    ensures Less(x + s, y + t)
    decreases |x|
  {
    if x[0] == y[0] {
      assert (x + s)[1..] == x[1..] + s && (y + t)[1..] == y[1..] + t;
      LessExtends(x[1..], y[1..], s, t);
    }
  }

  /** The prefix spells out the byte and the id's eight digits, and orders tables by id. */
  lemma PrefixDigits(prefix: Byte, tableId: nat, k: nat)
    requires k < 8
    ensures var b := EncodeStorePrefix(prefix, tableId);
      |b| == 9 && b[0] == prefix && b[1 + k] == (tableId / Pow256(7 - k)) % 256
  {
    BigEndianDigit(tableId, 8, k);
  }

  lemma PrefixOrder(prefix: Byte, a: nat, b: nat)
    requires a < b < UINT64_LIMIT
    ensures Less(EncodeStorePrefix(prefix, a), EncodeStorePrefix(prefix, b))
  {
    EightBytes();
    BigEndianOrder(a, b, 8);
    LessUnder([prefix], BigEndian(a, 8), BigEndian(b, 8));
  }

  lemma EightBytes()
    ensures Pow256(8) == UINT64_LIMIT
  {
    assert Pow256(1) == 256 && Pow256(2) == 65536;
    assert Pow256(4) == 0x1_0000_0000;
    assert Pow256(6) == 0x1_0000_0000_0000;
  }

  function EncodeStorePrefix(prefix: Byte, tableId: nat): Key { [prefix] + BigEndian(tableId, 8) }

  datatype Decoded = Decoded(prefix: Byte, tableId: nat) | InvalidParam

  function DecodeStorePrefix(buff: Key): Decoded {
    if |buff| < 9 then InvalidParam else Decoded(buff[0], FromBigEndian(buff[1..9]))
  }

  /** Any key under an encoded prefix decodes to what was encoded; shorter buffers are refused. */
  lemma StorePrefixRound(prefix: Byte, tableId: nat, rest: Key)
    requires tableId < UINT64_LIMIT
    ensures var b := EncodeStorePrefix(prefix, tableId);
      && |b| == 9 && DecodeStorePrefix(b + rest) == Decoded(prefix, tableId)
      && forall n: nat :: n < 9 ==> DecodeStorePrefix(b[..n]) == InvalidParam
  {
    EightBytes();
    BigEndianRound(tableId, 8);
    var b := EncodeStorePrefix(prefix, tableId);
    assert (b + rest)[1..9] == BigEndian(tableId, 8);
  }

  /** No key lies in two tables' key spaces. */
  lemma TablesDisjoint(a: nat, b: nat, k: Key)
    requires a < UINT64_LIMIT && b < UINT64_LIMIT && a != b
    ensures var pa, pb := EncodeStorePrefix(STORE_PREFIX_KV, a), EncodeStorePrefix(STORE_PREFIX_KV, b);
      !(Within(k, pa, Limit(pa)) && Within(k, pb, Limit(pb)))
  {
    var pa, pb := EncodeStorePrefix(STORE_PREFIX_KV, a), EncodeStorePrefix(STORE_PREFIX_KV, b);
    PrefixExact(pa, k);
    PrefixExact(pb, k);
    StorePrefixRound(STORE_PREFIX_KV, a, []);
    StorePrefixRound(STORE_PREFIX_KV, b, []);
    assert pa + [] == pa && pb + [] == pb;
    OnePrefix(pa, pb, k);
  }

  lemma OnePrefix(p: Key, q: Key, k: Key)
    requires |p| == |q|
    ensures p <= k && q <= k ==> p == q
  {
    if p <= k && q <= k { assert p == k[..|p|] == q; }
  }

  // ---- the pre-split ----

  predicate Ascending(ks: seq<Key>) { forall i, j :: 0 <= i < j < |ks| ==> AtMost(ks[i], ks[j]) }

  /** `sort.Sort(ByLetter(keys))`. */
  method SortKeys(keys: seq<Key>) returns (sorted: seq<Key>)
    ensures Ascending(sorted) && multiset(sorted) == multiset(keys)
  {
    sorted := [];
    for i := 0 to |keys|
      invariant Ascending(sorted) && multiset(sorted) == multiset(keys[..i])
    {
      assert keys[..i + 1] == keys[..i] + [keys[i]];
      sorted := Insert(sorted, keys[i]);
    }
    assert keys[..|keys|] == keys;
  }

  method Insert(ks: seq<Key>, k: Key) returns (r: seq<Key>)
    requires Ascending(ks)
    ensures Ascending(r) && multiset(r) == multiset(ks) + multiset{k}
  {
    var i := |ks|;
    while i > 0 && Less(k, ks[i - 1])
      invariant 0 <= i <= |ks| && forall j :: i <= j < |ks| ==> Less(k, ks[j])
    {
      i := i - 1;
    }
    r := ks[..i] + [k] + ks[i..];
    assert ks == ks[..i] + ks[i..];
    forall j | 0 <= j < |ks| ensures if j < i then AtMost(ks[j], k) else AtMost(k, ks[j]) {
      LessTotal(k, ks[j]);
      if j < i - 1 { LessTrans(ks[j], ks[i - 1], k); }
    }
    InsertAscends(ks, i, k);
  }

  lemma InsertAscends(ks: seq<Key>, i: nat, k: Key)
    requires Ascending(ks) && i <= |ks| && forall j :: 0 <= j < |ks| ==> if j < i then AtMost(ks[j], k) else AtMost(k, ks[j])
    ensures Ascending(ks[..i] + [k] + ks[i..])
  {
    hide AtMost;
  }

  datatype Range = Range(start: Key, end: Key)

  function Prefixed(prefix: Key, keys: seq<Key>): seq<Key> {
    seq(|keys|, i requires 0 <= i < |keys| => prefix + keys[i])
  }

  /** The cut points of a table: its start, the split keys under its prefix, its end. */
  function CutPoints(tableId: nat, sorted: seq<Key>): seq<Key> {
    var start := EncodeStorePrefix(STORE_PREFIX_KV, tableId);
    [start] + Prefixed(start, sorted) + [Limit(start)]
  }

  function RangesBetween(cuts: seq<Key>): seq<Range> {
    seq(if |cuts| == 0 then 0 else |cuts| - 1, i requires 0 <= i < |cuts| - 1 => Range(cuts[i], cuts[i + 1]))
  }

  /** The ranges `CreateTable` queues for a table with the given encoded split keys. */
  method PreSplit(tableId: nat, keys: seq<Key>) returns (ranges: seq<Range>)
    requires tableId < UINT64_LIMIT
    ensures |ranges| == |keys| + 1 && Tiles(ranges, EncodeStorePrefix(STORE_PREFIX_KV, tableId))
    ensures exists sorted ::
      Ascending(sorted) && multiset(sorted) == multiset(keys) && ranges == RangesBetween(CutPoints(tableId, sorted))
  {
    var start := EncodeStorePrefix(STORE_PREFIX_KV, tableId);
    var _, end := BytesPrefix(start);
    var sharing: seq<Key> := [start];
    var sorted := SortKeys(keys);
    for i := 0 to |sorted|
      invariant sharing == [start] + Prefixed(start, sorted[..i])
    {
      sharing := sharing + [start + sorted[i]];
      assert Prefixed(start, sorted[..i + 1]) == Prefixed(start, sorted[..i]) + [start + sorted[i]];
    }
    assert sorted[..|sorted|] == sorted;
    sharing := sharing + [end];
    ranges := [];
    for i := 0 to |sharing| - 1
      invariant |ranges| == i && forall j :: 0 <= j < i ==> ranges[j] == Range(sharing[j], sharing[j + 1])
    {
      ranges := ranges + [Range(sharing[i], sharing[i + 1])];
    }
    assert ranges == RangesBetween(CutPoints(tableId, sorted));
    assert |sorted| == |multiset(sorted)| == |multiset(keys)| == |keys|;
    PreSplitTiles(tableId, sorted);
  }

  ghost predicate Covers(ranges: seq<Range>, i: nat, k: Key) { i < |ranges| && Within(k, ranges[i].start, ranges[i].end) }

  ghost predicate PlacedOnce(ranges: seq<Range>, prefix: Key, k: Key) {
    && ((exists i: nat :: Covers(ranges, i, k)) <==> prefix <= k)
    && forall i: nat, j: nat :: Covers(ranges, i, k) && Covers(ranges, j, k) ==> i == j
  }

  /** Every key with the prefix lies in exactly one range, and no other key lies in any. */
  ghost predicate Tiles(ranges: seq<Range>, prefix: Key) { forall k :: PlacedOnce(ranges, prefix, k) }

  lemma CutsAscend(tableId: nat, sorted: seq<Key>)
    requires Ascending(sorted)
    ensures var cuts := CutPoints(tableId, sorted); Ascending(cuts) && forall i :: 0 <= i < |cuts| ==> cuts[i] != []
  {
    var start := EncodeStorePrefix(STORE_PREFIX_KV, tableId);
    var cuts := CutPoints(tableId, sorted);
    StartsLow(start);
    forall i, j | 0 <= i < j < |cuts| ensures AtMost(cuts[i], cuts[j]) {
      assert start == start + [];
      if i > 0 && j < |cuts| - 1 {
        LessUnder(start, sorted[j - 1], sorted[i - 1]);
      } else if j < |cuts| - 1 {
        LessUnder(start, sorted[j - 1], []);
      } else {
        var rest: Key := if i > 0 then sorted[i - 1] else [];
        AboveUnder(start, rest);
        LessTotal(start + rest, Limit(start));
      }
    }
  }

  /** A prefix whose first byte can be raised has a limit. */
  lemma {:induction false} StartsLow(p: Key)
    requires p != [] && p[0] < 255
    ensures Limit(p) != []
  {
    if |p| > 1 { StartsLow(p[..|p| - 1]); }
  }

  /** Ascending cut points put every key between the first and the last into exactly one range. */
  lemma {:induction false} FindRange(cuts: seq<Key>, k: Key) returns (i: nat)
    requires Ascending(cuts) && |cuts| >= 2 && AtMost(cuts[0], k) && Less(k, cuts[|cuts| - 1])
    ensures i < |cuts| - 1 && AtMost(cuts[i], k) && Less(k, cuts[i + 1])
  {
    var n := |cuts| - 1;
    if AtMost(cuts[n - 1], k) {
      i := n - 1;
    } else {
      assert n - 1 > 0;
      i := FindRange(cuts[..n], k);
    }
  }

  lemma LaterAbove(cuts: seq<Key>, i: nat, j: nat, k: Key)
    requires Ascending(cuts) && i < j < |cuts| && Less(k, cuts[i + 1])
    ensures Less(k, cuts[j])
  {
    LessTrans(k, cuts[i + 1], cuts[j]);
  }

  /** The pre-split tiles the table, for any split keys: repeated and empty ones included. */
  lemma PreSplitTiles(tableId: nat, sorted: seq<Key>)
    requires Ascending(sorted)
    ensures Tiles(RangesBetween(CutPoints(tableId, sorted)), EncodeStorePrefix(STORE_PREFIX_KV, tableId))
  {
    var ranges, prefix := RangesBetween(CutPoints(tableId, sorted)), EncodeStorePrefix(STORE_PREFIX_KV, tableId);
    forall k ensures PlacedOnce(ranges, prefix, k) { KeyPlaced(tableId, sorted, k); }
  }

  lemma KeyPlaced(tableId: nat, sorted: seq<Key>, k: Key)
    requires Ascending(sorted)
    ensures PlacedOnce(RangesBetween(CutPoints(tableId, sorted)), EncodeStorePrefix(STORE_PREFIX_KV, tableId), k)
  {
    var start, cuts := EncodeStorePrefix(STORE_PREFIX_KV, tableId), CutPoints(tableId, sorted);
    var ranges := RangesBetween(cuts);
    CutsAscend(tableId, sorted);
    PrefixExact(start, k);
    LessTotal(start, start);
    forall i: nat | Covers(ranges, i, k) ensures Within(k, start, Limit(start)) {
      assert AtMost(cuts[0], cuts[i]);
      LessTrans(cuts[0], cuts[i], k);
      LaterAbove(cuts, i, |cuts| - 1, k);
    }
    if start <= k {
      var i := FindRange(cuts, k);
      assert Covers(ranges, i, k);
    }
    forall i: nat, j: nat | Covers(ranges, i, k) && Covers(ranges, j, k) ensures i == j {
      if i < j { LaterAbove(cuts, i, j, k); } else if j < i { LaterAbove(cuts, j, i, k); }
    }
  }
}
