/**
 Id allocation from blocks: a generator reserves a block of ids by raising a stored counter and hands them out
 one by one. Generators come and go on the same store, and the store may fail before or after it has written.
 */
module IdGenerator {

  const UINT64: nat := 0x1_0000_0000_0000_0000

  /** What a generator has read of the counter and not yet written back. */
  datatype Seen = Nothing | Seen(v: nat)

  datatype Gen = Gen(base: nat, end: nat, step: nat, seen: Seen)

  /** The stored counter, all generators ever made on it, and every id taken so far with its generator. */
  datatype World = World(counter: nat, gens: seq<Gen>, taken: seq<(nat, nat)>)

  datatype Fate = Written | LostReply | NotWritten

  datatype Move = NewGenerator(step: nat) | Take(g: nat) | Read(g: nat) | Write(g: nat, fate: Fate)

  predicate Can(w: World, m: Move) {
    match m
    case NewGenerator(step) => 0 < step < UINT64
    case Take(g) => g < |w.gens| && w.gens[g].base != w.gens[g].end
    case Read(g) => g < |w.gens| && w.gens[g].base == w.gens[g].end
    case Write(g, _) => g < |w.gens| && w.gens[g].base == w.gens[g].end && w.gens[g].seen.Seen?
  }

  /** Arithmetic is that of 64-bit words. */
  function Do(w: World, m: Move): World
    requires Can(w, m)
  {
    match m
    case NewGenerator(step) => w.(gens := w.gens + [Gen(0, 0, step, Nothing)])
    case Take(g) =>
      var id := (w.gens[g].base + 1) % UINT64;
      w.(gens := w.gens[g := w.gens[g].(base := id)], taken := w.taken + [(g, id)])
    case Read(g) => w.(gens := w.gens[g := w.gens[g].(seen := Seen(w.counter))])
    case Write(g, fate) =>
      var step := w.gens[g].step;
      var end := (w.gens[g].seen.v + step) % UINT64;
      var block := if fate == Written then Gen((end - step) % UINT64, end, step, Nothing) else w.gens[g].(seen := Nothing);
      World(if fate == NotWritten then w.counter else end, w.gens[g := block], w.taken)
  }

  /** At this move nothing is written over that was not read, and the counter does not run over. */
  predicate Fits(w: World, m: Move)
    requires Can(w, m)
  {
    m.Write? && m.fate != NotWritten ==> w.gens[m.g].seen.v == w.counter && w.counter + w.gens[m.g].step < UINT64
  }

  ghost predicate Run(ws: seq<World>, ms: seq<Move>) {
    && |ws| == |ms| + 1
    && forall i :: 0 <= i < |ms| ==> Can(ws[i], ms[i]) && ws[i + 1] == Do(ws[i], ms[i])
  }

  // ---- what every move keeps ----

  /** A generator's block is reserved: below the counter and away from every other block. */
  ghost predicate BlocksOk(w: World) {
    && w.counter < UINT64
    && (forall g :: 0 <= g < |w.gens| ==>
          w.gens[g].base <= w.gens[g].end <= w.counter && 0 < w.gens[g].step < UINT64)
    && (forall g, h :: 0 <= g < |w.gens| && 0 <= h < |w.gens| && g != h ==> Apart(w.gens[g], w.gens[h]))
  }

  predicate Apart(a: Gen, b: Gen) { a.base == a.end || b.base == b.end || a.end <= b.base || b.end <= a.base }

  /** A taken id is out of every block, and not above its generator's position. */
  ghost predicate TakenOk(w: World, g: nat, id: nat) {
    && g < |w.gens| && id <= w.counter && id <= w.gens[g].base
    && forall h :: 0 <= h < |w.gens| ==> !(w.gens[h].base < id <= w.gens[h].end)
  }

  ghost predicate Unique(w: World) {
    forall i, j :: 0 <= i < j < |w.taken| ==>
      w.taken[i].1 != w.taken[j].1 && (w.taken[i].0 == w.taken[j].0 ==> w.taken[i].1 < w.taken[j].1)
  }

  ghost predicate Inv(w: World) {
    BlocksOk(w) && Unique(w) && forall k :: 0 <= k < |w.taken| ==> TakenOk(w, w.taken[k].0, w.taken[k].1)
  }

  lemma NewKeeps(w: World, step: nat)
    requires Inv(w) && Can(w, NewGenerator(step))
    ensures Inv(Do(w, NewGenerator(step)))
  {
    var w' := Do(w, NewGenerator(step));
    forall k | 0 <= k < |w'.taken| ensures TakenOk(w', w'.taken[k].0, w'.taken[k].1) {
      assert TakenOk(w, w.taken[k].0, w.taken[k].1);
    }
  }

  lemma TakeKeeps(w: World, g: nat)
    requires Inv(w) && Can(w, Take(g))
    ensures Inv(Do(w, Take(g)))
  {
    var id := w.gens[g].base + 1;
    assert id % UINT64 == id;
    var w' := w.(gens := w.gens[g := w.gens[g].(base := id)], taken := w.taken + [(g, id)]);
    assert w' == Do(w, Take(g));
    hide Do;
    forall k | 0 <= k < |w'.taken| ensures TakenOk(w', w'.taken[k].0, w'.taken[k].1) {
      if k < |w.taken| { assert TakenOk(w, w.taken[k].0, w.taken[k].1); } else { FirstOfBlock(w, g); }
    }
    forall i, j | 0 <= i < j < |w'.taken|
      ensures w'.taken[i].1 != w'.taken[j].1 && (w'.taken[i].0 == w'.taken[j].0 ==> w'.taken[i].1 < w'.taken[j].1)
    {
      assert TakenOk(w, w.taken[i].0, w.taken[i].1);
    }
  }

  /** The next id of a block lies in no other block. */
  lemma FirstOfBlock(w: World, g: nat)
    requires BlocksOk(w) && Can(w, Take(g))
    ensures forall h :: 0 <= h < |w.gens| && h != g ==> !(w.gens[h].base < w.gens[g].base + 1 <= w.gens[h].end)
  {
    assert forall h :: 0 <= h < |w.gens| && h != g ==> Apart(w.gens[g], w.gens[h]);
  }

  lemma ReadKeeps(w: World, g: nat)
    requires Inv(w) && Can(w, Read(g))
    ensures Inv(Do(w, Read(g)))
  {
    var w' := Do(w, Read(g));
    forall k | 0 <= k < |w'.taken| ensures TakenOk(w', w'.taken[k].0, w'.taken[k].1) {
      assert TakenOk(w, w.taken[k].0, w.taken[k].1);
    }
  }

  lemma WriteKeeps(w: World, g: nat, fate: Fate)
    requires Inv(w) && Can(w, Write(g, fate)) && Fits(w, Write(g, fate))
    ensures Inv(Do(w, Write(g, fate)))
  {
    var end := w.counter + w.gens[g].step;
    var w' := Do(w, Write(g, fate));
    var unread := w.gens[g := w.gens[g].(seen := Nothing)];
    assert fate != NotWritten ==> end % UINT64 == end && (end - w.gens[g].step) % UINT64 == w.counter;
    assert w' == if fate == NotWritten then w.(gens := unread) else if fate == LostReply then w.(counter := end, gens := unread)
      else w.(counter := end, gens := w.gens[g := Gen(w.counter, end, w.gens[g].step, Nothing)]);
    hide Do;
    forall k | 0 <= k < |w'.taken| ensures TakenOk(w', w'.taken[k].0, w'.taken[k].1) {
      assert TakenOk(w, w.taken[k].0, w.taken[k].1);
    }
  }

  lemma {:induction false} RunInv(ws: seq<World>, ms: seq<Move>, i: nat)
    requires Run(ws, ms) && i < |ws| && ws[0] == World(0, [], []) && forall j :: 0 <= j < |ms| ==> Fits(ws[j], ms[j])
    ensures Inv(ws[i])
  {
    if i > 0 {
      RunInv(ws, ms, i - 1);
      assert ws[i - 1 + 1] == Do(ws[i - 1], ms[i - 1]);
      match ms[i - 1]
      case NewGenerator(step) => NewKeeps(ws[i - 1], step);
      case Take(g) => TakeKeeps(ws[i - 1], g);
      case Read(g) => ReadKeeps(ws[i - 1], g);
      case Write(g, fate) => WriteKeeps(ws[i - 1], g, fate);
    }
  }

  /**
   No id is taken twice, by any generators, over any moves and failures, as long as no write overtakes another
   between its read and itself and the counter does not run over; and the ids of one generator rise.
   */
  lemma IdsUnique(ws: seq<World>, ms: seq<Move>, i: nat, j: nat)
    requires Run(ws, ms) && ws[0] == World(0, [], []) && forall k :: 0 <= k < |ms| ==> Fits(ws[k], ms[k])
    requires var all := ws[|ms|].taken; i < j < |all|
    ensures var all := ws[|ms|].taken;
      all[i].1 != all[j].1 && (all[i].0 == all[j].0 ==> all[i].1 < all[j].1)
  {
    RunInv(ws, ms, |ms|);
  }

  /** n refills whose replies are lost. */
  lemma {:induction false} LostReplies(w: World, g: nat, n: nat) returns (ws: seq<World>, ms: seq<Move>)
    requires g < |w.gens| && w.gens[g].base == w.gens[g].end && w.gens[g].seen == Nothing && w.counter < UINT64
    ensures Run(ws, ms) && ws[0] == w && ws[|ms|] == w.(counter := (w.counter + n * w.gens[g].step) % UINT64)
    decreases n
  {
    if n == 0 {
      ws, ms := [w], [];
    } else {
      var step := w.gens[g].step;
      var ws0, ms0 := LostReplies(w, g, n - 1);
      var last, x := ws0[|ms0|], w.counter + (n - 1) * step;
      assert w.counter + n * step == x + step;
      AddWraps(x, step);
      var more, moves := LostReplyAt(last, g);
      hide Run;
      RunJoin(ws0, ms0, more, moves);
      ws, ms := ws0 + more[1..], ms0 + moves;
    }
  }

  lemma LostReplyAt(w: World, g: nat) returns (ws: seq<World>, ms: seq<Move>)
    requires g < |w.gens| && w.gens[g].base == w.gens[g].end && w.gens[g].seen == Nothing
    ensures Run(ws, ms) && ws[0] == w && ws[|ms|] == w.(counter := (w.counter + w.gens[g].step) % UINT64)
  {
    var read := w.(gens := w.gens[g := w.gens[g].(seen := Seen(w.counter))]);
    var last := w.(counter := (w.counter + w.gens[g].step) % UINT64);
    ws, ms := [w, read, last], [Read(g), Write(g, LostReply)];
    assert Do(w, ms[0]) == read;
    assert Do(read, ms[1]).gens == w.gens;
  }

  lemma AddWraps(x: nat, y: nat)
    ensures (x % UINT64 + y) % UINT64 == (x + y) % UINT64
  {}

  /** A generator that has taken the first id of the first block, and one that has taken none. */
  function Used(step: nat): Gen { Gen(1, step, step, Nothing) }

  function Unused(step: nat): Gen { Gen(0, 0, step, Nothing) }

  /** A generator reserves the first block and takes its first id. */
  lemma FirstBlock(step: nat, others: seq<Gen>, taken: seq<(nat, nat)>) returns (ws: seq<World>, ms: seq<Move>)
    requires 0 < step < UINT64
    ensures var g := |others|;
      && Run(ws, ms) && ws[0] == World(0, others + [Unused(step)], taken)
      && ws[|ms|] == World(step, others + [Used(step)], taken + [(g, 1)])
  {
    var g := |others|;
    var w0 := World(0, others + [Unused(step)], taken);
    var w1 := World(0, others + [Unused(step).(seen := Seen(0))], taken);
    var w2 := World(step, others + [Gen(0, step, step, Nothing)], taken);
    var w3 := World(step, others + [Used(step)], taken + [(g, 1)]);
    ws, ms := [w0, w1, w2, w3], [Read(g), Write(g, Written), Take(g)];
    assert step % UINT64 == step && (step - step) % UINT64 == 0 && (0 + 1) % UINT64 == 1;
    assert Do(w0, ms[0]) == w1;
    assert Do(w1, ms[1]) == w2;
    assert Do(w2, ms[2]) == w3;
  }

  lemma NewOne(w: World, step: nat) returns (ws: seq<World>, ms: seq<Move>)
    requires 0 < step < UINT64
    ensures Run(ws, ms) && ws[0] == w && ws[|ms|] == w.(gens := w.gens + [Unused(step)])
  {
    ws, ms := [w, w.(gens := w.gens + [Unused(step)])], [NewGenerator(step)];
  }

  /** A counter that runs over repeats ids, whatever the step: enough lost replies bring it back to where it began. */
  lemma IdsRepeat(step: nat) returns (ws: seq<World>, ms: seq<Move>)
    requires 0 < step < UINT64
    ensures Run(ws, ms) && ws[0] == World(0, [], []) && forall g :: 0 <= g < |ws[|ms|].gens| ==> ws[|ms|].gens[g].step == step
    ensures ws[|ms|].taken == [(0, 1), (1, 1)]
  {
    var ws0, ms0 := NewOne(World(0, [], []), step);
    var ws1, ms1 := FirstBlock(step, [], []);
    var ws2, ms2 := NewOne(ws1[|ms1|], step);
    var ws3, ms3 := LostReplies(ws2[|ms2|], 1, UINT64 - 1);
    assert (step + (UINT64 - 1) * step) % UINT64 == 0 by { assert step + (UINT64 - 1) * step == UINT64 * step; }
    var ws4, ms4 := FirstBlock(step, [Used(step)], [(0, 1)]);
    assert [] + [Unused(step)] == [Unused(step)] && [Used(step)] == [] + [Used(step)];
    hide Run, Do;
    RunJoin(ws0, ms0, ws1, ms1);
    RunJoin(ws0 + ws1[1..], ms0 + ms1, ws2, ms2);
    RunJoin(ws0 + ws1[1..] + ws2[1..], ms0 + ms1 + ms2, ws3, ms3);
    RunJoin(ws0 + ws1[1..] + ws2[1..] + ws3[1..], ms0 + ms1 + ms2 + ms3, ws4, ms4);
    ws, ms := ws0 + ws1[1..] + ws2[1..] + ws3[1..] + ws4[1..], ms0 + ms1 + ms2 + ms3 + ms4;
  }

  /** A write that overtakes another repeats ids too, whatever the step and without a failure. */
  lemma IdsRepeatWhenOvertaken(step: nat) returns (ws: seq<World>, ms: seq<Move>)
    requires 0 < step < UINT64
    ensures Run(ws, ms) && ws[0] == World(0, [], []) && forall g :: 0 <= g < |ws[|ms|].gens| ==> ws[|ms|].gens[g].step == step
    ensures ws[|ms|].taken == [(1, 1), (0, 1)] && forall i :: 0 <= i < |ms| ==> ms[i].Write? ==> ms[i].fate == Written
  {
    var b, read := Used(step), Unused(step).(seen := Seen(0));
    var ws0, ms0 := BothRead(step);
    var w0, w1 := World(0, [read, read], []), World(step, [read, Gen(0, step, step, Nothing)], []);
    var w2, w3 := World(step, [read, b], [(1, 1)]), World(step, [Gen(0, step, step, Nothing), b], [(1, 1)]);
    var w4 := World(step, [b, b], [(1, 1), (0, 1)]);
    var ws1, ms1 := [w0, w1, w2, w3, w4], [Write(1, Written), Take(1), Write(0, Written), Take(0)];
    assert step % UINT64 == step && (step - step) % UINT64 == 0 && (0 + 1) % UINT64 == 1;
    assert Do(w0, ms1[0]) == w1;
    assert Do(w1, ms1[1]) == w2;
    assert Do(w2, ms1[2]) == w3;
    assert Do(w3, ms1[3]) == w4;
    RunJoin(ws0, ms0, ws1, ms1);
    ws, ms := ws0 + ws1[1..], ms0 + ms1;
  }

  /** Two generators read the counter before either writes. */
  lemma BothRead(step: nat) returns (ws: seq<World>, ms: seq<Move>)
    requires 0 < step < UINT64
    ensures var read := Unused(step).(seen := Seen(0)); Run(ws, ms) && ws[0] == World(0, [], []) && ws[|ms|] == World(0, [read, read], [])
    ensures forall i :: 0 <= i < |ms| ==> !ms[i].Write?
  {
    var a, read := Unused(step), Unused(step).(seen := Seen(0));
    var w0, w1, w2 := World(0, [], []), World(0, [a], []), World(0, [a, a], []);
    var w3, w4 := World(0, [read, a], []), World(0, [read, read], []);
    ws, ms := [w0, w1, w2, w3, w4], [NewGenerator(step), NewGenerator(step), Read(0), Read(1)];
    assert Do(w0, ms[0]) == w1 && Do(w1, ms[1]) == w2 && Do(w2, ms[2]) == w3 && Do(w3, ms[3]) == w4;
  }

  function Tagged(g: nat, ids: seq<nat>): seq<(nat, nat)> {
    seq(|ids|, i requires 0 <= i < |ids| => (g, ids[i]))
  }

  lemma RunJoin(ws: seq<World>, ms: seq<Move>, more: seq<World>, moves: seq<Move>)
    requires Run(ws, ms) && Run(more, moves) && more[0] == ws[|ms|]
    ensures Run(ws + more[1..], ms + moves) && (ws + more[1..])[|ms + moves|] == more[|moves|]
  {
    var all, steps := ws + more[1..], ms + moves;
    forall i | 0 <= i < |steps| ensures Can(all[i], steps[i]) && all[i + 1] == Do(all[i], steps[i]) {
      if i >= |ms| {
        assert all[i] == more[i - |ms|] && all[i + 1] == more[i - |ms| + 1] && steps[i] == moves[i - |ms|];
      }
    }
  }

  lemma BlockNotEmpty(end: nat, step: nat)
    requires end < UINT64 && 0 < step < UINT64
    ensures (end - step) % UINT64 != end
  {
    assert end >= step ==> (end - step) % UINT64 == end - step;
    assert end < step ==> (end - step) % UINT64 == end - step + UINT64;
  }

  // ---- counting down a block ----

  /** The ids left between two positions. */
  function Left(base: nat, end: nat): nat { (end - base) % UINT64 }

  lemma LeftIs(base: nat, end: nat)
    requires base < UINT64 && end < UINT64
    ensures Left(base, end) == (if base <= end then end - base else end - base + UINT64) && (Left(base, end) == 0 <==> base == end)
  {}

  lemma OneLess(base: nat, end: nat)
    requires base < UINT64 && end < UINT64 && base != end
    ensures Left((base + 1) % UINT64, end) == Left(base, end) - 1
  {
    LeftIs(base, end);
    assert base + 1 < UINT64 ==> (base + 1) % UINT64 == base + 1;
    assert base + 1 == UINT64 ==> (base + 1) % UINT64 == 0;
    LeftIs((base + 1) % UINT64, end);
  }

  /** A new block begins after the stored counter. */
  lemma NewBlock(counter: nat, step: nat)
    requires 0 < step < UINT64
    ensures var end := (counter + step) % UINT64; var base := (end - step) % UINT64;
      && base == counter % UINT64 && (base + 1) % UINT64 == (counter + 1) % UINT64 && Left((base + 1) % UINT64, end) == step - 1
  {
    var c := counter % UINT64;
    var end := (counter + step) % UINT64;
    assert end == if c + step < UINT64 then c + step else c + step - UINT64;
    assert (end - step) % UINT64 == c;
    BlockNotEmpty(end, step);
    OneLess(c, end);
    LeftIs(c, end);
  }

  /** How often a generator with `left` ids at hand has to refill to take `size` of them. */
  function Refills(left: nat, size: nat, step: nat): nat
    requires step > 0
    decreases size - left
  {
    if size <= left then 0 else 1 + Refills(left + step, size, step)
  }

  lemma {:induction false} OneTaken(left: nat, size: nat, step: nat)
    requires step > 0 && left > 0 && size > 0
    ensures Refills(left - 1, size - 1, step) == Refills(left, size, step)
    decreases size - left
  {
    if size > left { OneTaken(left + step, size, step); }
  }

  /** It is the least number of blocks that, with what is left, cover the size. */
  lemma {:induction false} RefillsCover(left: nat, size: nat, step: nat)
    requires step > 0
    ensures var k := Refills(left, size, step); size <= left + k * step && (k > 0 ==> left + (k - 1) * step < size)
    decreases size - left
  {
    if size > left {
      RefillsCover(left + step, size, step);
      var k := Refills(left + step, size, step);
      assert left + (k + 1) * step == left + step + k * step;
      assert k > 0 ==> left + step + (k - 1) * step == left + k * step;
    }
  }

  // ---- the generator ----

  /**
   The store's entry for one key; a missing entry reads as 0. Writes may fail, and a failed write may have happened:
   `fates` says what becomes of each write, in order.
   */
  class Store {
    var counter: nat
    var puts: nat
    const fates: nat -> Fate

    constructor (fates: nat -> Fate)
      ensures counter == 0 && puts == 0 && this.fates == fates
    {
      this.fates, counter, puts := fates, 0, 0;
    }

    method Put(v: nat) returns (ok: bool)
      modifies this
      ensures puts == old(puts) + 1 && ok == (fates(old(puts)) == Written)
      ensures counter == if fates(old(puts)) == NotWritten then old(counter) else v
    {
      var fate := fates(puts);
      puts := puts + 1;
      if fate != NotWritten {
        counter := v;
      }
      return fate == Written;
    }
  }

  class Generator {
    var base: nat
    var end: nat
    const step: nat
    const store: Store

    constructor (step: nat, store: Store)
      requires 0 < step < UINT64
      ensures this.step == step && this.store == store && base == 0 && end == 0
    {
      this.step, this.store, base, end := step, store, 0, 0;
    }

    /** This object is generator g of the world. */
    ghost predicate Is(w: World, g: nat)
      reads this, store
    {
      && g < |w.gens| && w.gens[g] == Gen(base, end, step, Nothing) && store.counter == w.counter
      && 0 < step < UINT64 && base < UINT64 && end < UINT64
    }

    /** Reserves the next block; false when the store fails. */
    method Generate(ghost w: World, ghost g: nat) returns (ok: bool, newEnd: nat, ghost ws: seq<World>, ghost ms: seq<Move>)
      requires Is(w, g) && base == end
      modifies store
      ensures Run(ws, ms) && ws[0] == w && ws[|ms|].taken == w.taken && store.counter == ws[|ms|].counter
      ensures ms == [Read(g), Write(g, store.fates(old(store.puts)))] && store.puts == old(store.puts) + 1
      ensures newEnd == (w.counter + step) % UINT64 && ok == (store.fates(old(store.puts)) == Written)
      ensures store.counter == if store.fates(old(store.puts)) == NotWritten then w.counter else newEnd
      ensures ws[|ms|].gens == w.gens[g := if ok then Gen((newEnd - step) % UINT64, newEnd, step, Nothing) else w.gens[g]]
    {
      var seen := store.counter;
      newEnd := (seen + step) % UINT64;
      ghost var read := w.(gens := w.gens[g := w.gens[g].(seen := Seen(seen))]);
      ghost var fate := store.fates(store.puts);
      ok := store.Put(newEnd);
      ws, ms := [w, read, Do(read, Write(g, fate))], [Read(g), Write(g, fate)];
    }

    /**
     With ids left the next one, and the store is not touched. With none left, one write: if it is known to have been
     written, the id after the counter that was read; otherwise none.
     */
    method GenID(ghost w: World, ghost g: nat) returns (ok: bool, id: nat, ghost ws: seq<World>, ghost ms: seq<Move>)
      requires Is(w, g)
      modifies this, store
      ensures Run(ws, ms) && ws[0] == w && Is(ws[|ms|], g)
      ensures ws[|ms|].taken == w.taken + if ok then [(g, id)] else []
      ensures old(base) != old(end) ==>
        ok && id == (old(base) + 1) % UINT64 && end == old(end) && store.counter == old(store.counter) && store.puts == old(store.puts)
      ensures old(base) == old(end) ==>
        && store.puts == old(store.puts) + 1 && ok == (store.fates(old(store.puts)) == Written)
        && store.counter == (if store.fates(old(store.puts)) == NotWritten then old(store.counter) else (old(store.counter) + step) % UINT64)
        && (ok ==> id == (old(store.counter) + 1) % UINT64 && end == (old(store.counter) + step) % UINT64)
      ensures if ok then base == id else base == old(base) && end == old(end)
    {
      hide Left;
      ws, ms, id := [w], [], 0;
      if base == end {
        NewBlock(store.counter, step);
        var newEnd;
        ok, newEnd, ws, ms := Generate(w, g);
        if !ok {
          return;
        }
        end := newEnd;
        base := (end - step) % UINT64;
        BlockNotEmpty(end, step);
      }
      base := (base + 1) % UINT64;
      id, ok := base, true;
      ghost var last := ws[|ms|];
      ws, ms := ws + [Do(last, Take(g))], ms + [Take(g)];
    }

    /**
     Takes as many ids as asked for if and only if every refill on the way is known to have been written. Fails as a
     whole when one is not; the ids taken until then are not given out again.
     */
    method GetBatchIds(size: nat, ghost w: World, ghost g: nat)
      returns (ok: bool, ids: seq<nat>, ghost ws: seq<World>, ghost ms: seq<Move>)
      requires Is(w, g)
      modifies this, store
      ensures Run(ws, ms) && ws[0] == w && Is(ws[|ms|], g) && w.taken <= ws[|ms|].taken
      ensures ok ==> |ids| == size && ws[|ms|].taken == w.taken + Tagged(g, ids)
      ensures !ok ==> ids == []
      ensures var n := Refills(old(Left(base, end)), size, step);
        && (ok <==> forall k :: old(store.puts) <= k < old(store.puts) + n ==> store.fates(k) == Written)
        && (ok ==> store.puts == old(store.puts) + n)
    {
      ids, ws, ms := [], [w], [];
      while |ids| < size
        invariant |ids| <= size && Run(ws, ms) && ws[0] == w && Is(ws[|ms|], g)
        invariant ws[|ms|].taken == w.taken + Tagged(g, ids) && old(store.puts) <= store.puts
        invariant Refills(Left(base, end), size - |ids|, step) + (store.puts - old(store.puts)) == Refills(old(Left(base, end)), size, step)
        invariant forall k :: old(store.puts) <= k < store.puts ==> store.fates(k) == Written
        decreases size - |ids|
      {
        ghost var puts := store.puts;
        CountDown(size - |ids|);
        var id;
        ghost var more, moves;
        ok, id, more, moves := GenID(ws[|ms|], g);
        RunJoin(ws, ms, more, moves);
        ws, ms := ws + more[1..], ms + moves;
        if !ok {
          assert store.fates(puts) != Written;
          return false, [], ws, ms;
        }
        ids := ids + [id];
        assert Tagged(g, ids) == Tagged(g, ids[..|ids| - 1]) + [(g, id)];
      }
      return true, ids, ws, ms;
    }

    /** What taking one id, and refilling before if need be, leaves to be done. */
    lemma CountDown(size: nat)
      requires 0 < step < UINT64 && base < UINT64 && end < UINT64 && size > 0
      ensures base != end ==> Refills(Left((base + 1) % UINT64, end), size - 1, step) == Refills(Left(base, end), size, step)
      ensures base == end ==> var c := store.counter;
        Refills(Left((c + 1) % UINT64, (c + step) % UINT64), size - 1, step) + 1 == Refills(Left(base, end), size, step)
    {
      LeftIs(base, end);
      if base != end {
        OneLess(base, end);
        OneTaken(Left(base, end), size, step);
      } else {
        NewBlock(store.counter, step);
        OneTaken(step, size, step);
      }
    }
  }
}
