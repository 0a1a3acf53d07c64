/** Exactly when ids repeat: the blocks that generators have received decide. */
module IdBlocks {
  import opened IdGenerator

  /** The ids base + 1 to base + step, modulo 2^64, reserved for generator g. */
  datatype Block = Block(g: nat, base: nat, step: nat)

  function IdAt(b: Block, j: nat): nat { (b.base + j) % UINT64 }

  ghost predicate Disjoint(b: Block, c: Block) {
    forall j, k :: 1 <= j <= b.step && 1 <= k <= c.step ==> IdAt(b, j) != IdAt(c, k)
  }

  ghost predicate AllDisjoint(bl: seq<Block>) {
    forall b, c :: 0 <= b < c < |bl| ==> Disjoint(bl[b], bl[c])
  }

  /** The block that a move from w brings to a generator. */
  function Received(w: World, m: Move): seq<Block>
    requires Can(w, m)
  {
    match m
    case Write(g, Written) => [Block(g, Do(w, m).gens[g].base, w.gens[g].step)]
    case _ => []
  }

  /** The blocks received in a run, in order. */
  ghost function Blocks(ws: seq<World>, ms: seq<Move>): seq<Block>
    requires Run(ws, ms)
    decreases |ms|
  {
    if ms == [] then [] else
      var n := |ms| - 1;
      Before(ws, ms);
      Blocks(ws[..n + 1], ms[..n]) + Received(ws[n], ms[n])
  }

  lemma Before(ws: seq<World>, ms: seq<Move>)
    requires Run(ws, ms) && ms != []
    ensures var n := |ms| - 1; Run(ws[..n + 1], ms[..n]) && Can(ws[n], ms[n]) && ws[n + 1] == Do(ws[n], ms[n])
  {
    var n := |ms| - 1;
    forall i | 0 <= i < n ensures Can(ws[..n + 1][i], ms[..n][i]) && ws[..n + 1][i + 1] == Do(ws[..n + 1][i], ms[..n][i]) {
      assert ws[i + 1] == Do(ws[i], ms[i]);
    }
    assert ws[n + 1] == Do(ws[n], ms[n]);
  }

  // ---- which place of which block each id was taken from ----

  /** Generator g's current block; -1 before its first. */
  function Current(bl: seq<Block>, g: nat): int {
    if bl == [] then -1
    else if bl[|bl| - 1].g == g then |bl| - 1
    else Current(bl[..|bl| - 1], g)
  }

  lemma {:induction false} CurrentIs(bl: seq<Block>, g: nat)
    ensures var c := Current(bl, g);
      -1 <= c < |bl| && (c >= 0 ==> bl[c].g == g) && forall b :: c < b < |bl| ==> bl[b].g != g
    decreases |bl|
  {
    if bl != [] { CurrentIs(bl[..|bl| - 1], g); }
  }

  lemma CurrentAfter(bl: seq<Block>, b: Block, g: nat)
    ensures Current(bl + [b], g) == if b.g == g then |bl| else Current(bl, g)
  {
    assert (bl + [b])[..|bl|] == bl;
  }

  function Minus(x: nat, y: nat): nat { (x - y) % UINT64 }

  /** How many ids of block b have been taken. */
  function Used(w: World, bl: seq<Block>, b: nat): nat
    requires b < |bl|
  {
    if Current(bl, bl[b].g) == b && bl[b].g < |w.gens| then Minus(w.gens[bl[b].g].base, bl[b].base) else bl[b].step
  }

  /** A generator stands inside its current block, and at the end of nothing before its first. */
  ghost predicate GenOk(w: World, bl: seq<Block>, g: nat)
    requires g < |w.gens|
  {
    var x, c := w.gens[g], Current(bl, g);
    && 0 < x.step < UINT64 && x.base < UINT64 && x.end < UINT64
    && (c < 0 ==> x.base == x.end)
    && (0 <= c < |bl| ==> bl[c].step == x.step && x.end == IdAt(bl[c], x.step) && Minus(x.base, bl[c].base) <= x.step)
  }

  ghost predicate BlockOk(w: World, b: Block) { b.g < |w.gens| && 0 < b.step < UINT64 && b.base < UINT64 }

  ghost predicate PlaceOk(w: World, bl: seq<Block>, place: (nat, nat), id: (nat, nat)) {
    place.0 < |bl| && 1 <= place.1 <= Used(w, bl, place.0) && id == (bl[place.0].g, IdAt(bl[place.0], place.1))
  }

  /** The ids taken are, each once, the used places of the blocks. */
  ghost predicate Placed(w: World, bl: seq<Block>, pl: seq<(nat, nat)>) {
    && |pl| == |w.taken| && w.counter < UINT64
    && (forall g :: 0 <= g < |w.gens| ==> GenOk(w, bl, g))
    && (forall b :: 0 <= b < |bl| ==> BlockOk(w, bl[b]))
    && (forall p :: 0 <= p < |pl| ==> PlaceOk(w, bl, pl[p], w.taken[p]))
    && (forall p, q :: 0 <= p < q < |pl| ==> pl[p] != pl[q])
    && (forall b, j :: 0 <= b < |bl| && 1 <= j <= Used(w, bl, b) ==> (b, j) in pl)
  }

  /** One step further, modulo 2^64. */
  lemma MinusMore(x: nat, y: nat)
    requires x < UINT64 && y < UINT64 && Minus(x, y) + 1 < UINT64
    ensures Minus((x + 1) % UINT64, y) == Minus(x, y) + 1 && (x + 1) % UINT64 == (y + Minus(x, y) + 1) % UINT64
  {
    MinusIs(x, y);
    assert x + 1 < UINT64 ==> (x + 1) % UINT64 == x + 1;
    assert x + 1 == UINT64 ==> (x + 1) % UINT64 == 0;
    MinusIs((x + 1) % UINT64, y);
  }

  lemma MinusIs(x: nat, y: nat)
    requires x < UINT64 && y < UINT64
    ensures Minus(x, y) == (if y <= x then x - y else x - y + UINT64)
  {}

  /** The end of a block is `step` away from its base, and no other place of it is. */
  lemma MinusEnd(b: Block, x: nat)
    requires b.base < UINT64 && b.step < UINT64 && x < UINT64
    ensures x == IdAt(b, b.step) <==> Minus(x, b.base) == b.step
  {
    MinusIs(x, b.base);
    assert IdAt(b, b.step) == if b.base + b.step < UINT64 then b.base + b.step else b.base + b.step - UINT64;
  }

  /** The places of a block have different ids. */
  lemma PlacesDiffer(b: Block, j: nat, k: nat)
    requires b.base < UINT64 && 1 <= j < k <= b.step < UINT64
    ensures IdAt(b, j) != IdAt(b, k)
  {
    assert IdAt(b, j) == if b.base + j < UINT64 then b.base + j else b.base + j - UINT64;
    assert IdAt(b, k) == if b.base + k < UINT64 then b.base + k else b.base + k - UINT64;
  }

  // ---- what every move keeps ----

  /** The generators stand where they stood, and new ones have nothing. */
  ghost predicate SameStand(w: World, w': World) {
    && w'.taken == w.taken && w'.counter < UINT64 && |w.gens| <= |w'.gens|
    && (forall g :: 0 <= g < |w.gens| ==>
          w'.gens[g].base == w.gens[g].base && w'.gens[g].end == w.gens[g].end && w'.gens[g].step == w.gens[g].step)
    && (forall g :: |w.gens| <= g < |w'.gens| ==>
          w'.gens[g].base == w'.gens[g].end < UINT64 && 0 < w'.gens[g].step < UINT64)
  }

  lemma StandPlaced(w: World, w': World, bl: seq<Block>, pl: seq<(nat, nat)>)
    requires Placed(w, bl, pl) && SameStand(w, w')
    ensures Placed(w', bl, pl)
  {
    forall b | 0 <= b < |bl| ensures BlockOk(w', bl[b]) && Used(w', bl, b) == Used(w, bl, b) { assert BlockOk(w, bl[b]); }
    forall g | 0 <= g < |w'.gens| ensures GenOk(w', bl, g) {
      CurrentIs(bl, g);
      assert Current(bl, g) >= 0 ==> BlockOk(w, bl[Current(bl, g)]);
      assert g < |w.gens| ==> GenOk(w, bl, g);
    }
    forall p | 0 <= p < |pl| ensures PlaceOk(w', bl, pl[p], w'.taken[p]) { assert PlaceOk(w, bl, pl[p], w.taken[p]); }
  }

  /** A generator asks for a new block when it has used up its last one. */
  lemma UsedUp(w: World, bl: seq<Block>, g: nat)
    requires g < |w.gens| && GenOk(w, bl, g) && w.gens[g].base == w.gens[g].end
    requires 0 <= Current(bl, g) < |bl| && BlockOk(w, bl[Current(bl, g)]) && bl[Current(bl, g)].g == g
    ensures Used(w, bl, Current(bl, g)) == bl[Current(bl, g)].step
  {
    MinusEnd(bl[Current(bl, g)], w.gens[g].base);
  }

  lemma WritePlaced(w: World, g: nat, bl: seq<Block>, pl: seq<(nat, nat)>)
    requires Placed(w, bl, pl) && Can(w, Write(g, Written))
    ensures Placed(Do(w, Write(g, Written)), bl + Received(w, Write(g, Written)), pl)
  {
    var w', step := Do(w, Write(g, Written)), w.gens[g].step;
    var b := Block(g, w'.gens[g].base, step);
    var bl' := bl + [b];
    assert GenOk(w, bl, g);
    BlockEnds(w.gens[g].seen.v, step);
    assert w'.gens == w.gens[g := Gen(b.base, IdAt(b, step), step, Nothing)] && w'.taken == w.taken && w'.counter < UINT64;
    hide Do, Can;
    forall c | 0 <= c < |bl'| ensures BlockOk(w', bl'[c]) && Used(w', bl', c) == if c < |bl| then Used(w, bl, c) else 0 {
      CurrentAfter(bl, b, bl'[c].g);
      if c < |bl| {
        assert BlockOk(w, bl[c]);
        CurrentIs(bl, g);
        if bl[c].g == g && Current(bl, g) == c { UsedUp(w, bl, g); }
      }
    }
    forall h | 0 <= h < |w'.gens| ensures GenOk(w', bl', h) {
      CurrentAfter(bl, b, h);
      CurrentIs(bl, h);
      assert GenOk(w, bl, h);
    }
    forall p | 0 <= p < |pl| ensures PlaceOk(w', bl', pl[p], w'.taken[p]) { assert PlaceOk(w, bl, pl[p], w.taken[p]); }
  }

  /** A block ends where its reservation says. */
  lemma BlockEnds(seen: nat, step: nat)
    requires 0 < step < UINT64
    ensures var end := (seen + step) % UINT64; var base := (end - step) % UINT64;
      end < UINT64 && base < UINT64 && (base + step) % UINT64 == end && Minus(base, base) == 0
  {
    var end := (seen + step) % UINT64;
    assert end >= step ==> (end - step) % UINT64 == end - step;
    assert end < step ==> (end - step) % UINT64 == end - step + UINT64;
  }

  lemma TakePlaced(w: World, g: nat, bl: seq<Block>, pl: seq<(nat, nat)>) returns (pl': seq<(nat, nat)>)
    requires Placed(w, bl, pl) && Can(w, Take(g))
    ensures Placed(Do(w, Take(g)), bl, pl')
  {
    CurrentIs(bl, g);
    assert GenOk(w, bl, g);
    var x, c, w' := w.gens[g], Current(bl, g), Do(w, Take(g));
    assert c >= 0 && BlockOk(w, bl[c]);
    MinusEnd(bl[c], x.base);
    var u := Used(w, bl, c);
    MinusMore(x.base, bl[c].base);
    var id := IdAt(bl[c], u + 1);
    assert w' == w.(gens := w.gens[g := x.(base := id)], taken := w.taken + [(g, id)]);
    hide Do, Can;
    pl' := pl + [(c, u + 1)];
    forall b | 0 <= b < |bl| ensures BlockOk(w', bl[b]) && Used(w', bl, b) == if b == c then u + 1 else Used(w, bl, b) {
      assert BlockOk(w, bl[b]);
    }
    forall h | 0 <= h < |w'.gens| ensures GenOk(w', bl, h) {
      CurrentIs(bl, h);
      assert GenOk(w, bl, h);
    }
    TakePlaces(w, w', bl, pl, c, u);
  }

  lemma TakePlaces(w: World, w': World, bl: seq<Block>, pl: seq<(nat, nat)>, c: nat, u: nat)
    requires Placed(w, bl, pl) && c < |bl| && u == Used(w, bl, c)
    requires w'.taken == w.taken + [(bl[c].g, IdAt(bl[c], u + 1))]
    requires forall b :: 0 <= b < |bl| ==> Used(w', bl, b) == if b == c then u + 1 else Used(w, bl, b)
    ensures var pl' := pl + [(c, u + 1)];
      && (forall p :: 0 <= p < |pl'| ==> PlaceOk(w', bl, pl'[p], w'.taken[p]))
      && (forall p, q :: 0 <= p < q < |pl'| ==> pl'[p] != pl'[q])
      && (forall b, j :: 0 <= b < |bl| && 1 <= j <= Used(w', bl, b) ==> (b, j) in pl')
  {
    hide Used;
    var pl' := pl + [(c, u + 1)];
    forall p | 0 <= p < |pl'| ensures PlaceOk(w', bl, pl'[p], w'.taken[p]) && (p < |pl| ==> pl[p] != (c, u + 1)) {
      if p < |pl| { assert PlaceOk(w, bl, pl[p], w.taken[p]); }
    }
    forall b, j | 0 <= b < |bl| && 1 <= j <= Used(w', bl, b) ensures (b, j) in pl' {
      if (b, j) != (c, u + 1) { assert (b, j) in pl; }
    }
  }

  lemma MovePlaced(w: World, m: Move, bl: seq<Block>, pl: seq<(nat, nat)>) returns (pl': seq<(nat, nat)>)
    requires Placed(w, bl, pl) && Can(w, m)
    ensures Placed(Do(w, m), bl + Received(w, m), pl')
  {
    if m.Take? {
      pl' := TakePlaced(w, m.g, bl, pl);
      assert bl + [] == bl;
    } else {
      pl' := pl;
      if m.Write? && m.fate == Written {
        WritePlaced(w, m.g, bl, pl);
      } else {
        assert w.counter < UINT64;
        hide Placed;
        assert SameStand(w, Do(w, m));
        StandPlaced(w, Do(w, m), bl, pl);
        assert bl + [] == bl;
      }
    }
  }

  lemma {:induction false} RunPlaced(ws: seq<World>, ms: seq<Move>) returns (pl: seq<(nat, nat)>)
    requires Run(ws, ms) && ws[0] == World(0, [], [])
    ensures Placed(ws[|ms|], Blocks(ws, ms), pl)
    decreases |ms|
  {
    if ms == [] {
      pl := [];
    } else {
      hide Placed, Do, Can;
      var n := |ms| - 1;
      Before(ws, ms);
      var pl0 := RunPlaced(ws[..n + 1], ms[..n]);
      pl := MovePlaced(ws[n], ms[n], Blocks(ws[..n + 1], ms[..n]), pl0);
    }
  }

  // ---- exactly when ids repeat ----

  ghost predicate NoRepeat(w: World) {
    forall p, q :: 0 <= p < q < |w.taken| ==> w.taken[p].1 != w.taken[q].1
  }

  /** The run goes on, by taking ids only. */
  ghost predicate TakesOn(ws: seq<World>, ms: seq<Move>, ws': seq<World>, ms': seq<Move>) {
    && Run(ws', ms') && |ms| <= |ms'| && ws <= ws' && ms <= ms'
    && forall i :: |ms| <= i < |ms'| ==> ms'[i].Take?
  }

  lemma DisjointUnique(w: World, bl: seq<Block>, pl: seq<(nat, nat)>)
    requires Placed(w, bl, pl) && AllDisjoint(bl)
    ensures NoRepeat(w)
  {
    hide Used;
    forall p, q | 0 <= p < q < |w.taken| ensures w.taken[p].1 != w.taken[q].1 {
      var (b, j) := pl[p];
      var (c, k) := pl[q];
      assert PlaceOk(w, bl, (b, j), w.taken[p]) && PlaceOk(w, bl, (c, k), w.taken[q]);
      UsedWithin(w, bl, b);
      UsedWithin(w, bl, c);
      if b == c {
        assert BlockOk(w, bl[b]);
        PlacesDiffer(bl[b], Min(j, k), Max(j, k));
      } else {
        assert Disjoint(bl[Min(b, c)], bl[Max(b, c)]);
      }
    }
  }

  function Min(a: nat, b: nat): nat { if a <= b then a else b }

  function Max(a: nat, b: nat): nat { if a <= b then b else a }

  lemma UsedWithin(w: World, bl: seq<Block>, b: nat)
    requires b < |bl| && forall g :: 0 <= g < |w.gens| ==> GenOk(w, bl, g)
    ensures Used(w, bl, b) <= bl[b].step
  {
    CurrentIs(bl, bl[b].g);
    if bl[b].g < |w.gens| { assert GenOk(w, bl, bl[b].g); }
  }

  /** A generator takes the rest of its block. */
  lemma {:induction false} DrainOne(w: World, g: nat) returns (ws: seq<World>, ms: seq<Move>)
    requires g < |w.gens| && w.gens[g].base < UINT64 && w.gens[g].end < UINT64
    ensures Run(ws, ms) && ws[0] == w && forall i :: 0 <= i < |ms| ==> ms[i].Take?
    ensures ws[|ms|].gens == w.gens[g := w.gens[g].(base := w.gens[g].end)]
    decreases Minus(w.gens[g].end, w.gens[g].base)
  {
    if w.gens[g].base == w.gens[g].end {
      ws, ms := [w], [];
    } else {
      var w1 := Do(w, Take(g));
      Closer(w.gens[g].base, w.gens[g].end);
      var more, moves := DrainOne(w1, g);
      assert Run([w, w1], [Take(g)]);
      RunJoin([w, w1], [Take(g)], more, moves);
      ws, ms := [w, w1] + more[1..], [Take(g)] + moves;
    }
  }

  lemma Closer(x: nat, end: nat)
    requires x < UINT64 && end < UINT64 && x != end
    ensures Minus(end, (x + 1) % UINT64) < Minus(end, x)
  {
    MinusIs(end, x);
    assert x + 1 < UINT64 ==> (x + 1) % UINT64 == x + 1;
    assert x + 1 == UINT64 ==> (x + 1) % UINT64 == 0;
    MinusIs(end, (x + 1) % UINT64);
  }

  ghost predicate InRange(w: World) {
    forall g :: 0 <= g < |w.gens| ==> w.gens[g].base < UINT64 && w.gens[g].end < UINT64
  }

  /** The first n generators take the rest of their blocks. */
  lemma {:induction false} DrainAll(w: World, n: nat) returns (ws: seq<World>, ms: seq<Move>)
    requires n <= |w.gens| && InRange(w)
    ensures Run(ws, ms) && ws[0] == w && forall i :: 0 <= i < |ms| ==> ms[i].Take?
    ensures var last := ws[|ms|];
      |last.gens| == |w.gens| && InRange(last) && forall g :: 0 <= g < n ==> last.gens[g].base == last.gens[g].end
  {
    if n == 0 {
      ws, ms := [w], [];
    } else {
      var ws0, ms0 := DrainAll(w, n - 1);
      var more, moves := DrainOne(ws0[|ms0|], n - 1);
      hide Run;
      RunJoin(ws0, ms0, more, moves);
      ws, ms := ws0 + more[1..], ms0 + moves;
    }
  }

  /** Taking ids receives no block. */
  lemma {:induction false} TakesReceive(ws: seq<World>, ms: seq<Move>, ws': seq<World>, ms': seq<Move>)
    requires Run(ws, ms) && TakesOn(ws, ms, ws', ms')
    ensures Blocks(ws', ms') == Blocks(ws, ms)
    decreases |ms'|
  {
    hide Do;
    if |ms'| == |ms| {
      assert ms' == ms && ws' == ws;
    } else {
      var n := |ms'| - 1;
      Before(ws', ms');
      assert ms <= ms'[..n] && ws <= ws'[..n + 1];
      TakesReceive(ws, ms, ws'[..n + 1], ms'[..n]);
      assert ms'[n].Take?;
    }
  }

  /** Once all blocks are used up, an overlap shows. */
  lemma OverlapRepeats(w: World, bl: seq<Block>, pl: seq<(nat, nat)>)
    requires Placed(w, bl, pl) && !AllDisjoint(bl) && forall g :: 0 <= g < |w.gens| ==> w.gens[g].base == w.gens[g].end
    ensures !NoRepeat(w)
  {
    var b, c :| 0 <= b < c < |bl| && !Disjoint(bl[b], bl[c]);
    var j, k :| 1 <= j <= bl[b].step && 1 <= k <= bl[c].step && IdAt(bl[b], j) == IdAt(bl[c], k);
    AllUsed(w, bl, pl, b);
    AllUsed(w, bl, pl, c);
    hide Used;
    assert (b, j) in pl && (c, k) in pl;
    var p, q :| 0 <= p < |pl| && 0 <= q < |pl| && pl[p] == (b, j) && pl[q] == (c, k);
    assert PlaceOk(w, bl, pl[p], w.taken[p]) && PlaceOk(w, bl, pl[q], w.taken[q]);
    assert p != q && w.taken[Min(p, q)].1 == w.taken[Max(p, q)].1;
  }

  lemma AllUsed(w: World, bl: seq<Block>, pl: seq<(nat, nat)>, b: nat)
    requires Placed(w, bl, pl) && b < |bl| && forall g :: 0 <= g < |w.gens| ==> w.gens[g].base == w.gens[g].end
    ensures Used(w, bl, b) == bl[b].step
  {
    var g := bl[b].g;
    assert BlockOk(w, bl[b]) && GenOk(w, bl, g);
    CurrentIs(bl, g);
    if Current(bl, g) == b { UsedUp(w, bl, g); }
  }

  /**
   The blocks received in a run are disjoint if and only if no id is ever taken twice, now or by going on taking
   ids, whatever the failures and however reads and writes of the counter were interleaved.
   */
  lemma IdsUniqueExactly(ws: seq<World>, ms: seq<Move>)
    requires Run(ws, ms) && ws[0] == World(0, [], [])
    ensures AllDisjoint(Blocks(ws, ms)) <==> forall ws': seq<World>, ms': seq<Move> :: TakesOn(ws, ms, ws', ms') ==> NoRepeat(ws'[|ms'|])
  {
    hide Do, Can, Placed, AllDisjoint, NoRepeat, Blocks;
    if AllDisjoint(Blocks(ws, ms)) {
      forall ws': seq<World>, ms': seq<Move> | TakesOn(ws, ms, ws', ms') ensures NoRepeat(ws'[|ms'|]) {
        TakesReceive(ws, ms, ws', ms');
        StartsSame(ws, ms, ws', ms');
        var pl := RunPlaced(ws', ms');
        DisjointUnique(ws'[|ms'|], Blocks(ws', ms'), pl);
      }
    } else {
      var ws', ms' := Exhausted(ws, ms);
      TakesReceive(ws, ms, ws', ms');
      StartsSame(ws, ms, ws', ms');
      var pl := RunPlaced(ws', ms');
      OverlapRepeats(ws'[|ms'|], Blocks(ws', ms'), pl);
    }
  }

  lemma StartsSame(ws: seq<World>, ms: seq<Move>, ws': seq<World>, ms': seq<Move>)
    requires Run(ws, ms) && TakesOn(ws, ms, ws', ms')
    ensures ws'[0] == ws[0]
  {}

  /** A run can go on until every block is used up. */
  lemma Exhausted(ws: seq<World>, ms: seq<Move>) returns (ws': seq<World>, ms': seq<Move>)
    requires Run(ws, ms) && ws[0] == World(0, [], [])
    ensures TakesOn(ws, ms, ws', ms')
    ensures var w := ws'[|ms'|]; forall g :: 0 <= g < |w.gens| ==> w.gens[g].base == w.gens[g].end
  {
    var w := ws[|ms|];
    var pl := RunPlaced(ws, ms);
    PlacedInRange(w, Blocks(ws, ms), pl);
    var more, moves := DrainAll(w, |w.gens|);
    RunJoin(ws, ms, more, moves);
    ws', ms' := ws + more[1..], ms + moves;
  }

  lemma PlacedInRange(w: World, bl: seq<Block>, pl: seq<(nat, nat)>)
    requires Placed(w, bl, pl)
    ensures InRange(w)
  {
    forall g | 0 <= g < |w.gens| ensures w.gens[g].base < UINT64 && w.gens[g].end < UINT64 { assert GenOk(w, bl, g); }
  }

  /** Writes that overtake nothing and do not run over reserve disjoint blocks. */
  lemma FittingBlocks(ws: seq<World>, ms: seq<Move>)
    requires Run(ws, ms) && ws[0] == World(0, [], []) && forall i :: 0 <= i < |ms| ==> Fits(ws[i], ms[i])
    ensures AllDisjoint(Blocks(ws, ms))
  {
    forall ws': seq<World>, ms': seq<Move> | TakesOn(ws, ms, ws', ms') ensures NoRepeat(ws'[|ms'|]) {
      forall i | 0 <= i < |ms'| ensures Fits(ws'[i], ms'[i]) {
        if i < |ms| { assert ws'[i] == ws[i] && ms'[i] == ms[i]; }
      }
      forall p, q | 0 <= p < q < |ws'[|ms'|].taken| ensures ws'[|ms'|].taken[p].1 != ws'[|ms'|].taken[q].1 {
        IdsUnique(ws', ms', p, q);
      }
    }
    hide NoRepeat, AllDisjoint, Blocks;
    IdsUniqueExactly(ws, ms);
  }
}
