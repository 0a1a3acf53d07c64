/**
 The blocking queue as a step system. Any number of threads put, poll and dispose; a Put that finds a waiter
 hands it the right to touch the items, keeps the lock and blocks until the waiter is done or has timed out.
 One step is what a thread does between two synchronisation points.
 */
module BlockingQueue {

  type Tid = nat
  type SemaId = nat

  /** A waiter's one-slot channel and its wait group's counter. */
  datatype Sema = Sema(ready: bool, response: int, owner: Tid)

  datatype Lock = Free | Held(holder: Tid)

  datatype PC<T> =
    | Idle
    // Put, all with the lock held
    | PutStart(xs: seq<T>)
    | PutLoop
    | PutOffer(s: SemaId)
    | PutWait(s: SemaId)
    | PutCheck
    // Poll, with the lock held
    | PollStart(n: nat)
    | PollEnqueued(s: SemaId, n: nat)
    // Poll, waiting
    | PollSelect(s: SemaId, n: nat)
    | PollWoken(s: SemaId, n: nat)
    | PollReply(s: SemaId)
    | PollExpired(s: SemaId)
    | PollRemove(s: SemaId)
    // timed out, with the lock held
    | PollRemoving(s: SemaId)
    // Dispose, with the lock held; `left` are the waiters it has still to come to
    | Disposing(left: seq<SemaId>)
    | DisposeOffer(s: SemaId, left: seq<SemaId>)
    // about to release the lock
    | Unlock

  /** What one poll was given, and how many it had asked for. */
  datatype Delivery<T> = Delivery(to: Tid, asked: nat, xs: seq<T>)

  /** `put`, `got` and `dropped` record what was put in, delivered and disposed of so far. */
  datatype State<T> = State(
    items: seq<T>, waiters: seq<SemaId>, lock: Lock, disposed: bool,
    semas: map<SemaId, Sema>, made: SemaId, pcs: map<Tid, PC<T>>,
    put: seq<T>, got: seq<Delivery<T>>, dropped: seq<T>)

  datatype Action<T> =
    | LockPut(xs: seq<T>) | Append | NextWaiter | Offer | Resume | Test
    | LockPoll(n: nat) | Try | Release | Receive | Take | Done | Timeout | Expire | LockRemove | Remove
    | LockDispose | NextRelease | OfferRelease | Leave

  function At<T>(st: State<T>, t: Tid, pc: PC<T>): State<T> { st.(pcs := st.pcs[t := pc]) }

  function Taken<T>(items: seq<T>, n: nat): nat { if n < |items| then n else |items| }

  /** Hands the first items to a poller. */
  function Deliver<T>(st: State<T>, t: Tid, n: nat): State<T> {
    var k := Taken(st.items, n);
    st.(items := st.items[k..], got := st.got + [Delivery(t, n, st.items[..k])])
  }

  /** All that was delivered, in order. */
  function Delivered<T>(got: seq<Delivery<T>>): seq<T> {
    if got == [] then [] else Delivered(got[..|got| - 1]) + got[|got| - 1].xs
  }

  lemma DeliveredMore<T>(got: seq<Delivery<T>>, d: Delivery<T>)
    ensures Delivered(got + [d]) == Delivered(got) + d.xs
  {
    assert (got + [d])[..|got|] == got;
  }

  function WithSema<T>(st: State<T>, s: SemaId, x: Sema): State<T> { st.(semas := st.semas[s := x]) }

  function Without(ws: seq<SemaId>, s: SemaId): seq<SemaId> {
    if ws == [] then [] else (if ws[0] == s then [] else [ws[0]]) + Without(ws[1..], s)
  }

  /** What a step needs; a semaphore a thread refers to exists. */
  predicate Can<T(==)>(st: State<T>, t: Tid, a: Action<T>) {
    t in st.pcs && var pc := st.pcs[t];
    match a
    case LockPut(xs) => pc == Idle && st.lock == Free && xs != []
    case LockPoll(n) => pc == Idle && st.lock == Free && n >= 1
    case LockDispose => pc == Idle && st.lock == Free
    case Append => pc.PutStart?
    case NextWaiter => pc == PutLoop && (st.waiters != [] ==> st.waiters[0] in st.semas)
    case Offer => pc.PutOffer? && pc.s in st.semas
    case Resume => pc.PutWait? && pc.s in st.semas && st.semas[pc.s].response == 0
    case Test => pc == PutCheck
    case Try => pc.PollStart?
    case Release => pc.PollEnqueued?
    case Receive => pc.PollSelect? && pc.s in st.semas && st.semas[pc.s].ready
    case Take => pc.PollWoken? && pc.s in st.semas
    case Done => pc.PollReply? && pc.s in st.semas
    case Timeout => pc.PollSelect?
    case Expire => pc.PollExpired? && pc.s in st.semas
    case LockRemove => pc.PollRemove? && st.lock == Free
    case Remove => pc.PollRemoving?
    case NextRelease => pc.Disposing? && (pc.left != [] ==> pc.left[0] in st.semas)
    case OfferRelease => pc.DisposeOffer? && pc.s in st.semas
    case Leave => pc == Unlock
  }

  function DoNextWaiter<T>(st: State<T>, t: Tid): State<T>
    requires st.waiters != [] ==> st.waiters[0] in st.semas
  {
    if st.waiters == [] then At(st, t, Unlock)
    else
      var s := st.waiters[0];
      var x := st.semas[s];
      At(WithSema(st, s, x.(response := x.response + 1)).(waiters := st.waiters[1..]), t, PutOffer(s))
  }

  function DoOffer<T>(st: State<T>, t: Tid, s: SemaId): State<T>
    requires s in st.semas
  {
    if st.semas[s].ready then At(st, t, PutCheck)
    else At(WithSema(st, s, st.semas[s].(ready := true)), t, PutWait(s))
  }

  function DoTry<T(==)>(st: State<T>, t: Tid, n: nat): State<T> {
    if st.items == [] then
      At(WithSema(st, st.made, Sema(false, 0, t)).(made := st.made + 1, waiters := st.waiters + [st.made]),
         t, PollEnqueued(st.made, n))
    else At(Deliver(st, t, n), t, Unlock)
  }

  function DoTake<T>(st: State<T>, t: Tid, s: SemaId, n: nat): State<T> {
    if st.disposed then At(st, t, Idle) else At(Deliver(st, t, n), t, PollReply(s))
  }

  function Answered<T>(st: State<T>, s: SemaId): State<T>
    requires s in st.semas
  {
    WithSema(st, s, st.semas[s].(response := st.semas[s].response - 1))
  }

  function DoExpire<T>(st: State<T>, t: Tid, s: SemaId): State<T>
    requires s in st.semas
  {
    if !st.semas[s].ready then At(WithSema(st, s, st.semas[s].(ready := true)), t, PollRemove(s))
    else At(Answered(st, s), t, Idle)
  }

  /** Dispose goes on to the next waiter; after the last one it takes the items. */
  function DoNextRelease<T>(st: State<T>, t: Tid, left: seq<SemaId>): State<T>
    requires left != [] ==> left[0] in st.semas
  {
    if left == [] then At(st.(dropped := st.dropped + st.items, items := [], waiters := []), t, Unlock)
    else
      var x := st.semas[left[0]];
      At(WithSema(st, left[0], x.(response := x.response + 1)), t, DisposeOffer(left[0], left[1..]))
  }

  /** It does not wait for the waiter, and passes over one that has timed out. */
  function DoOfferRelease<T>(st: State<T>, t: Tid, s: SemaId, left: seq<SemaId>): State<T>
    requires s in st.semas
  {
    At(WithSema(st, s, st.semas[s].(ready := true)), t, Disposing(left))
  }

  function Do<T(==)>(st: State<T>, t: Tid, a: Action<T>): State<T>
    requires Can(st, t, a)
  {
    var pc := st.pcs[t];
    match a
    case LockPut(xs) => if st.disposed then st else At(st.(lock := Held(t)), t, PutStart(xs))
    case LockPoll(n) => if st.disposed then st else At(st.(lock := Held(t)), t, PollStart(n))
    case LockDispose => At(st.(lock := Held(t), disposed := true), t, Disposing(st.waiters))
    case Append => At(st.(items := st.items + pc.xs, put := st.put + pc.xs), t, PutLoop)
    case NextWaiter => DoNextWaiter(st, t)
    case Offer => DoOffer(st, t, pc.s)
    case Resume => At(st, t, PutCheck)
    case Test => At(st, t, if st.items == [] then Unlock else PutLoop)
    case Try => DoTry(st, t, pc.n)
    case Release => At(st.(lock := Free), t, PollSelect(pc.s, pc.n))
    case Receive => At(WithSema(st, pc.s, st.semas[pc.s].(ready := false)), t, PollWoken(pc.s, pc.n))
    case Take => DoTake(st, t, pc.s, pc.n)
    case Done => At(Answered(st, pc.s), t, Idle)
    case Timeout => At(st, t, PollExpired(pc.s))
    case Expire => DoExpire(st, t, pc.s)
    case LockRemove => At(st.(lock := Held(t)), t, PollRemoving(pc.s))
    case Remove => At(st.(waiters := Without(st.waiters, pc.s)), t, Unlock)
    case NextRelease => DoNextRelease(st, t, pc.left)
    case OfferRelease => DoOfferRelease(st, t, pc.s, pc.left)
    case Leave => At(st.(lock := Free), t, Idle)
  }

  ghost predicate Next<T(!new)>(st: State<T>, st': State<T>) {
    exists t: Tid, a: Action<T> :: Can(st, t, a) && st' == Do(st, t, a)
  }

  ghost predicate Init<T>(st: State<T>) {
    && st.items == [] && st.waiters == [] && st.lock == Free && !st.disposed && st.semas == map[]
    && st.put == [] && st.got == [] && st.dropped == [] && forall t :: t in st.pcs ==> st.pcs[t] == Idle
  }

  ghost predicate Run<T(!new)>(ss: seq<State<T>>) {
    ss != [] && Init(ss[0]) && forall i :: 0 <= i < |ss| - 1 ==> Next(ss[i], ss[i + 1])
  }

  // ---- what every step keeps ----

  predicate Holds<T>(pc: PC<T>) {
    pc.PutStart? || pc.PutLoop? || pc.PutOffer? || pc.PutWait? || pc.PutCheck? || pc.PollStart? || pc.PollEnqueued?
    || pc.PollRemoving? || pc.Disposing? || pc.DisposeOffer? || pc.Unlock?
  }

  /** The poller still refers to its semaphore. */
  predicate Uses<T>(pc: PC<T>, s: SemaId) {
    (pc.PollEnqueued? || pc.PollSelect? || pc.PollWoken? || pc.PollReply? || pc.PollExpired? || pc.PollRemove? || pc.PollRemoving?)
    && pc.s == s
  }

  /** No waiter is queued while there are items. */
  predicate Quiet<T(==)>(st: State<T>) { st.waiters == [] || st.items == [] }

  /** Dispose has the lock. */
  predicate Disposes<T>(st: State<T>) {
    st.lock.Held? && st.lock.holder in st.pcs && (st.pcs[st.lock.holder].Disposing? || st.pcs[st.lock.holder].DisposeOffer?)
  }

  /** The waiters that neither Put nor Dispose has come to. */
  function Left<T>(st: State<T>): seq<SemaId> { if Disposes(st) then st.pcs[st.lock.holder].left else st.waiters }

  predicate Offered<T>(st: State<T>, s: SemaId) {
    st.lock.Held? && st.lock.holder in st.pcs && var pc := st.pcs[st.lock.holder];
    (pc.PutOffer? || pc.DisposeOffer?) && pc.s == s
  }

  predicate Awaited<T>(st: State<T>, s: SemaId) {
    st.lock.Held? && st.lock.holder in st.pcs && st.pcs[st.lock.holder].PutWait? && st.pcs[st.lock.holder].s == s
  }

  /** A semaphore nobody has answered yet: queued, being offered, offered, or released by Dispose. */
  predicate Pending<T(==)>(st: State<T>, s: SemaId)
    requires s in st.semas
  {
    var x := st.semas[s];
    if s in Left(st) then !Offered(st, s) && !Awaited(st, s) && !x.ready && x.response == 0
    else
      && x.response == 1 && (Offered(st, s) || Awaited(st, s) || st.disposed) && (x.ready <==> !Offered(st, s))
      && (Awaited(st, s) ==> st.items != [])
  }

  predicate Own<T>(st: State<T>, t: Tid, s: SemaId) { s in st.semas && st.semas[s].owner == t }

  predicate Used<T>(st: State<T>, s: SemaId) {
    s in st.semas && st.semas[s].owner in st.pcs && Uses(st.pcs[st.semas[s].owner], s)
  }

  predicate ThreadOk<T(==)>(st: State<T>, t: Tid)
    requires t in st.pcs
  {
    && (Holds(st.pcs[t]) <==> st.lock == Held(t))
    && match st.pcs[t]
       case Idle => true
       case PutStart(xs) => !st.disposed && Quiet(st) && xs != []
       case PutLoop => !st.disposed && st.items != []
       case PutOffer(s) => !st.disposed && st.items != [] && s !in Left(st) && Used(st, s)
       case PutWait(s) => !st.disposed && s !in Left(st) && s in st.semas && (st.semas[s].response == 0 || Used(st, s))
       case PutCheck => !st.disposed
       case PollStart(n) => !st.disposed && Quiet(st) && n >= 1
       case PollEnqueued(s, n) => !st.disposed && n >= 1 && st.items == [] && Own(st, t, s) && s in Left(st) && Pending(st, s)
       case PollSelect(s, n) => n >= 1 && Own(st, t, s) && Pending(st, s)
       case PollExpired(s) => Own(st, t, s) && Pending(st, s)
       case PollWoken(s, n) =>
         && n >= 1 && (!st.disposed ==> st.items != [])
         && Own(st, t, s) && s !in Left(st) && !Offered(st, s) && st.semas[s].response == 1 && (Awaited(st, s) <==> !st.disposed)
       case PollReply(s) => Own(st, t, s) && s !in Left(st) && Awaited(st, s) && st.semas[s].response == 1
       case PollRemove(s) => Own(st, t, s) && st.semas[s].ready && !Awaited(st, s)
       case PollRemoving(s) => Own(st, t, s) && st.semas[s].ready && Quiet(st)
       case Disposing(_) => st.disposed && Quiet(st)
       case DisposeOffer(s, left) => st.disposed && Quiet(st) && s !in left && s in st.semas
       case Unlock => Quiet(st)
  }

  ghost predicate Threads<T>(st: State<T>) { forall t :: t in st.pcs ==> ThreadOk(st, t) }

  ghost predicate Distinct(ws: seq<SemaId>) { forall i, j :: 0 <= i < j < |ws| ==> ws[i] != ws[j] }

  ghost predicate Semas<T>(st: State<T>) {
    && Distinct(Left(st)) && (forall s :: s in Left(st) ==> Used(st, s))
    && (forall s :: s in st.semas ==> s < st.made && st.semas[s].response >= 0)
    && (st.lock.Held? ==> st.lock.holder in st.pcs) && (st.lock == Free ==> Quiet(st))
    && (st.disposed && !Disposes(st) ==> st.waiters == [])
  }

  ghost predicate Books<T>(st: State<T>) {
    && st.put == Delivered(st.got) + st.dropped + st.items && (!st.disposed ==> st.dropped == [])
    && forall i :: 0 <= i < |st.got| ==> 1 <= |st.got[i].xs| <= st.got[i].asked
  }

  ghost predicate Inv<T>(st: State<T>) { Threads(st) && Semas(st) && Books(st) }

  lemma WithoutExact(ws: seq<SemaId>, s: SemaId)
    requires Distinct(ws)
    ensures var r := Without(ws, s); Distinct(r) && (forall x :: x in r <==> x in ws && x != s)
  {
    if ws != [] {
      assert ws == [ws[0]] + ws[1..] && ws[0] !in ws[1..];
      WithoutExact(ws[1..], s);
      var rest := Without(ws[1..], s);
      assert forall j :: 0 <= j < |rest| ==> rest[j] in rest;
    }
  }

  lemma FirstWaiter(ws: seq<SemaId>)
    requires ws != [] && Distinct(ws)
    ensures Distinct(ws[1..]) && ws[0] in ws && ws[0] !in ws[1..] && forall s :: s in ws <==> s == ws[0] || s in ws[1..]
  {
    assert ws == [ws[0]] + ws[1..];
  }

  lemma LockPutKeeps<T>(st: State<T>, t: Tid, xs: seq<T>)
    requires Inv(st) && Can(st, t, LockPut(xs))
    ensures Inv(Do(st, t, LockPut(xs)))
  {
    var st' := Do(st, t, LockPut(xs));
    assert ThreadOk(st, t);
    forall u | u in st'.pcs ensures ThreadOk(st', u) {
      assert ThreadOk(st, u);
    }
  }

  lemma LockPollKeeps<T>(st: State<T>, t: Tid, n: nat)
    requires Inv(st) && Can(st, t, LockPoll(n))
    ensures Inv(Do(st, t, LockPoll(n)))
  {
    var st' := Do(st, t, LockPoll(n));
    assert ThreadOk(st, t);
    forall u | u in st'.pcs ensures ThreadOk(st', u) {
      assert ThreadOk(st, u);
    }
  }

  lemma LockDisposeKeeps<T>(st: State<T>, t: Tid)
    requires Inv(st) && Can(st, t, LockDispose)
    ensures Inv(Do(st, t, LockDispose))
  {
    var st' := Do(st, t, LockDispose);
    assert ThreadOk(st, t);
    forall u | u in st'.pcs ensures ThreadOk(st', u) {
      assert ThreadOk(st, u);
    }
  }

  lemma AppendKeeps<T>(st: State<T>, t: Tid)
    requires Inv(st) && Can(st, t, Append)
    ensures Inv(Do(st, t, Append))
  {
    var st' := Do(st, t, Append);
    assert ThreadOk(st, t);
    forall u | u in st'.pcs ensures ThreadOk(st', u) {
      assert ThreadOk(st, u);
    }
  }

  lemma NextWaiterKeeps<T>(st: State<T>, t: Tid)
    requires Inv(st) && Can(st, t, NextWaiter)
    ensures Inv(Do(st, t, NextWaiter))
  {
    assert ThreadOk(st, t);
    if st.waiters != [] {
      FirstWaiter(st.waiters);
      assert Used(st, st.waiters[0]);
    }
    NextWaiterSemas(st, t);
    forall u | u in st.pcs ensures ThreadOk(Do(st, t, NextWaiter), u) {
      assert ThreadOk(st, u);
      hide Semas, Books;
      NextWaiterOk(st, t, u);
    }
    hide ThreadOk, Semas;
  }

  lemma NextWaiterSemas<T>(st: State<T>, t: Tid)
    requires Semas(st) && Can(st, t, NextWaiter) && st.lock == Held(t) && !st.disposed
    requires st.waiters != [] ==> forall s :: s in st.waiters <==> s == st.waiters[0] || s in st.waiters[1..]
    requires st.waiters != [] ==> Distinct(st.waiters[1..])
    ensures Semas(Do(st, t, NextWaiter))
  {}

  lemma NextWaiterOk<T>(st: State<T>, t: Tid, u: Tid)
    requires Can(st, t, NextWaiter) && u in st.pcs && ThreadOk(st, t) && ThreadOk(st, u)
    requires st.waiters != [] ==> Used(st, st.waiters[0])
    requires st.waiters != [] ==> forall s :: s in st.waiters <==> s == st.waiters[0] || s in st.waiters[1..]
    requires st.waiters != [] ==> st.waiters[0] !in st.waiters[1..]
    ensures ThreadOk(Do(st, t, NextWaiter), u)
  {}

  lemma OfferKeeps<T>(st: State<T>, t: Tid)
    requires Inv(st) && Can(st, t, Offer)
    ensures Inv(Do(st, t, Offer))
  {
    assert ThreadOk(st, t);
    forall u | u in st.pcs ensures ThreadOk(Do(st, t, Offer), u) {
      hide Semas, Books;
      assert ThreadOk(st, u);
      OfferOk(st, t, u);
    }
    hide ThreadOk, Delivered;
  }

  lemma OfferOk<T>(st: State<T>, t: Tid, u: Tid)
    requires Can(st, t, Offer) && u in st.pcs && ThreadOk(st, t) && ThreadOk(st, u)
    ensures ThreadOk(Do(st, t, Offer), u)
  {}

  lemma ResumeKeeps<T>(st: State<T>, t: Tid)
    requires Inv(st) && Can(st, t, Resume)
    ensures Inv(Do(st, t, Resume))
  {
    var st' := Do(st, t, Resume);
    assert ThreadOk(st, t);
    forall u | u in st'.pcs ensures ThreadOk(st', u) {
      assert ThreadOk(st, u);
    }
  }

  lemma TestKeeps<T>(st: State<T>, t: Tid)
    requires Inv(st) && Can(st, t, Test)
    ensures Inv(Do(st, t, Test))
  {
    var st' := Do(st, t, Test);
    assert ThreadOk(st, t);
    forall u | u in st'.pcs ensures ThreadOk(st', u) {
      assert ThreadOk(st, u);
    }
  }

  lemma DeliverBooks<T>(st: State<T>, t: Tid, n: nat)
    requires Books(st) && !st.disposed && st.items != [] && n >= 1
    ensures Books(Deliver(st, t, n))
  {
    var k := Taken(st.items, n);
    DeliveredMore(st.got, Delivery(t, n, st.items[..k]));
    assert st.items == st.items[..k] + st.items[k..];
    assert Delivered(st.got) + st.dropped == Delivered(st.got);
  }

  lemma TryKeeps<T>(st: State<T>, t: Tid)
    requires Inv(st) && Can(st, t, Try)
    ensures Inv(Do(st, t, Try))
  {
    assert ThreadOk(st, t) && st.made !in st.waiters && st.made !in st.semas;
    if st.items == [] { EnqueueSemas(st, t); } else { DeliverBooks(st, t, st.pcs[t].n); }
    hide Books;
    forall u | u in st.pcs ensures ThreadOk(Do(st, t, Try), u) {
      hide Semas;
      assert ThreadOk(st, u);
      TryOk(st, t, u);
    }
    hide ThreadOk;
    TryBooks(st, t);
  }

  lemma TryBooks<T>(st: State<T>, t: Tid)
    requires Can(st, t, Try) && Books(st) && (st.items != [] ==> Books(Deliver(st, t, st.pcs[t].n)))
    ensures Books(Do(st, t, Try))
  {
    hide Deliver;
  }

  lemma EnqueueSemas<T>(st: State<T>, t: Tid)
    requires Semas(st) && t in st.pcs && st.pcs[t].PollStart? && st.items == [] && st.made !in st.waiters && st.made !in st.semas
    requires st.lock == Held(t) && !st.disposed
    ensures Semas(DoTry(st, t, st.pcs[t].n))
  {
    var st' := DoTry(st, t, st.pcs[t].n);
    forall s | s in st'.waiters ensures Used(st', s) {
      assert s in st.waiters || s == st.made;
    }
  }

  lemma TryOk<T>(st: State<T>, t: Tid, u: Tid)
    requires Can(st, t, Try) && u in st.pcs && ThreadOk(st, t) && ThreadOk(st, u)
    requires st.made !in st.waiters && st.made !in st.semas
    ensures ThreadOk(Do(st, t, Try), u)
  {}

  lemma ReleaseKeeps<T>(st: State<T>, t: Tid)
    requires Inv(st) && Can(st, t, Release)
    ensures Inv(Do(st, t, Release))
  {
    var st' := Do(st, t, Release);
    assert ThreadOk(st, t);
    forall u | u in st'.pcs ensures ThreadOk(st', u) {
      assert ThreadOk(st, u);
    }
  }

  lemma ReceiveKeeps<T>(st: State<T>, t: Tid)
    requires Inv(st) && Can(st, t, Receive)
    ensures Inv(Do(st, t, Receive))
  {
    assert ThreadOk(st, t) && (st.lock.Held? ==> st.lock.holder in st.pcs && ThreadOk(st, st.lock.holder));
    forall u | u in st.pcs ensures ThreadOk(Do(st, t, Receive), u) {
      hide Semas, Books;
      assert ThreadOk(st, u);
      ReceiveOk(st, t, u);
    }
    hide ThreadOk, Delivered;
  }

  lemma ReceiveOk<T>(st: State<T>, t: Tid, u: Tid)
    requires Can(st, t, Receive) && u in st.pcs && ThreadOk(st, t) && ThreadOk(st, u)
    requires st.lock.Held? ==> st.lock.holder in st.pcs && ThreadOk(st, st.lock.holder)
    ensures ThreadOk(Do(st, t, Receive), u)
  {}

  lemma TakeKeeps<T>(st: State<T>, t: Tid)
    requires Inv(st) && Can(st, t, Take)
    ensures Inv(Do(st, t, Take))
  {
    assert ThreadOk(st, t);
    if !st.disposed { DeliverBooks(st, t, st.pcs[t].n); }
    TakeBooks(st, t);
    hide Books;
    forall u | u in st.pcs ensures ThreadOk(Do(st, t, Take), u) {
      hide Semas;
      assert ThreadOk(st, u);
      TakeOk(st, t, u);
    }
    hide ThreadOk;
  }

  lemma TakeBooks<T>(st: State<T>, t: Tid)
    requires Can(st, t, Take) && Books(st) && (!st.disposed ==> Books(Deliver(st, t, st.pcs[t].n)))
    ensures Books(Do(st, t, Take))
  {
    hide Deliver;
  }

  lemma TakeOk<T>(st: State<T>, t: Tid, u: Tid)
    requires Can(st, t, Take) && u in st.pcs && ThreadOk(st, t) && ThreadOk(st, u)
    requires st.lock.Held? ==> st.lock.holder in st.pcs && ThreadOk(st, st.lock.holder)
    ensures ThreadOk(Do(st, t, Take), u)
  {}

  lemma DoneKeeps<T>(st: State<T>, t: Tid)
    requires Inv(st) && Can(st, t, Done)
    ensures Inv(Do(st, t, Done))
  {
    var st' := Do(st, t, Done);
    assert ThreadOk(st, t);
    forall u | u in st'.pcs ensures ThreadOk(st', u) {
      assert ThreadOk(st, u);
    }
  }

  lemma TimeoutKeeps<T>(st: State<T>, t: Tid)
    requires Inv(st) && Can(st, t, Timeout)
    ensures Inv(Do(st, t, Timeout))
  {
    assert ThreadOk(st, t);
    forall u | u in st.pcs ensures ThreadOk(Do(st, t, Timeout), u) {
      hide Semas;
      assert ThreadOk(st, u);
      TimeoutOk(st, t, u);
    }
    hide ThreadOk;
  }

  lemma TimeoutOk<T>(st: State<T>, t: Tid, u: Tid)
    requires Can(st, t, Timeout) && u in st.pcs && ThreadOk(st, t) && ThreadOk(st, u)
    ensures ThreadOk(Do(st, t, Timeout), u)
  {}

  lemma ExpireKeeps<T>(st: State<T>, t: Tid)
    requires Inv(st) && Can(st, t, Expire)
    ensures Inv(Do(st, t, Expire))
  {
    assert ThreadOk(st, t);
    if st.semas[st.pcs[t].s].ready { ExpireAnswers(st, t); } else { ExpireFirst(st, t); }
  }

  /** The timeout comes after Put's or Dispose's token: the poller owes the answer. */
  lemma ExpireAnswers<T>(st: State<T>, t: Tid)
    requires Inv(st) && Can(st, t, Expire) && st.semas[st.pcs[t].s].ready
    ensures Inv(Do(st, t, Expire))
  {
    assert ThreadOk(st, t) && (st.lock.Held? ==> st.lock.holder in st.pcs && ThreadOk(st, st.lock.holder));
    forall u | u in st.pcs ensures ThreadOk(Do(st, t, Expire), u) {
      hide Semas, Books;
      assert ThreadOk(st, u);
      ExpireAnswersOk(st, t, u);
    }
    hide ThreadOk, Delivered;
  }

  lemma ExpireAnswersOk<T>(st: State<T>, t: Tid, u: Tid)
    requires Can(st, t, Expire) && u in st.pcs && ThreadOk(st, t) && ThreadOk(st, u) && st.semas[st.pcs[t].s].ready
    requires st.lock.Held? ==> st.lock.holder in st.pcs && ThreadOk(st, st.lock.holder)
    ensures ThreadOk(Do(st, t, Expire), u)
  {}

  /** The timeout comes first: the poller's own token keeps Put from waiting for it. */
  lemma ExpireFirst<T>(st: State<T>, t: Tid)
    requires Inv(st) && Can(st, t, Expire) && !st.semas[st.pcs[t].s].ready
    ensures Inv(Do(st, t, Expire))
  {
    var s := st.pcs[t].s;
    assert ThreadOk(st, t) && Do(st, t, Expire) == Withdrawn(st, t, s);
    hide Do, Can, ThreadOk, Delivered;
    forall u | u in st.pcs ensures ThreadOk(Withdrawn(st, t, s), u) {
      hide Semas, Books;
      assert ThreadOk(st, u);
      WithdrawnOk(st, t, s, u);
    }
  }

  function Withdrawn<T>(st: State<T>, t: Tid, s: SemaId): State<T>
    requires s in st.semas
  {
    At(WithSema(st, s, st.semas[s].(ready := true)), t, PollRemove(s))
  }

  lemma WithdrawnOk<T>(st: State<T>, t: Tid, s: SemaId, u: Tid)
    requires t in st.pcs && u in st.pcs && ThreadOk(st, t) && ThreadOk(st, u)
    requires st.pcs[t] == PollExpired(s) && !st.semas[s].ready
    ensures ThreadOk(Withdrawn(st, t, s), u)
  {}

  lemma LockRemoveKeeps<T>(st: State<T>, t: Tid)
    requires Inv(st) && Can(st, t, LockRemove)
    ensures Inv(Do(st, t, LockRemove))
  {
    var st' := Do(st, t, LockRemove);
    assert ThreadOk(st, t);
    forall u | u in st'.pcs ensures ThreadOk(st', u) {
      assert ThreadOk(st, u);
    }
  }

  lemma RemoveKeeps<T>(st: State<T>, t: Tid)
    requires Inv(st) && Can(st, t, Remove)
    ensures Inv(Do(st, t, Remove))
  {
    var st' := Do(st, t, Remove);
    assert ThreadOk(st, t);
    WithoutExact(st.waiters, st.pcs[t].s);
    forall u | u in st'.pcs ensures ThreadOk(st', u) {
      assert ThreadOk(st, u);
    }
  }

  lemma NextReleaseKeeps<T>(st: State<T>, t: Tid)
    requires Inv(st) && Can(st, t, NextRelease)
    ensures Inv(Do(st, t, NextRelease))
  {
    assert ThreadOk(st, t);
    if Left(st) != [] {
      FirstWaiter(Left(st));
      assert Used(st, Left(st)[0]);
    }
    NextReleaseSemas(st, t);
    forall u | u in st.pcs ensures ThreadOk(Do(st, t, NextRelease), u) {
      assert ThreadOk(st, u);
      hide Semas, Books;
      NextReleaseOk(st, t, u);
    }
    hide ThreadOk, Semas;
  }

  lemma NextReleaseSemas<T>(st: State<T>, t: Tid)
    requires Semas(st) && Can(st, t, NextRelease) && st.lock == Held(t) && st.disposed
    requires Left(st) != [] ==> forall s :: s in Left(st) <==> s == Left(st)[0] || s in Left(st)[1..]
    requires Left(st) != [] ==> Distinct(Left(st)[1..])
    ensures Semas(Do(st, t, NextRelease))
  {}

  lemma NextReleaseOk<T>(st: State<T>, t: Tid, u: Tid)
    requires Can(st, t, NextRelease) && u in st.pcs && ThreadOk(st, t) && ThreadOk(st, u)
    requires Left(st) != [] ==> Used(st, Left(st)[0])
    requires Left(st) != [] ==> forall s :: s in Left(st) <==> s == Left(st)[0] || s in Left(st)[1..]
    requires Left(st) != [] ==> Left(st)[0] !in Left(st)[1..]
    ensures ThreadOk(Do(st, t, NextRelease), u)
  {}

  lemma OfferReleaseKeeps<T>(st: State<T>, t: Tid)
    requires Inv(st) && Can(st, t, OfferRelease)
    ensures Inv(Do(st, t, OfferRelease))
  {
    var st' := Do(st, t, OfferRelease);
    assert ThreadOk(st, t);
    forall u | u in st'.pcs ensures ThreadOk(st', u) {
      assert ThreadOk(st, u);
    }
  }

  lemma LeaveKeeps<T>(st: State<T>, t: Tid)
    requires Inv(st) && Can(st, t, Leave)
    ensures Inv(Do(st, t, Leave))
  {
    var st' := Do(st, t, Leave);
    assert ThreadOk(st, t);
    forall u | u in st'.pcs ensures ThreadOk(st', u) {
      assert ThreadOk(st, u);
    }
  }

  lemma StepKeeps<T>(st: State<T>, t: Tid, a: Action<T>)
    requires Inv(st) && Can(st, t, a)
    ensures Inv(Do(st, t, a))
  {
    hide Inv, Do;
    match a
    case LockPut(xs) => LockPutKeeps(st, t, xs);
    case LockPoll(n) => LockPollKeeps(st, t, n);
    case LockDispose => LockDisposeKeeps(st, t);
    case Append => AppendKeeps(st, t);
    case NextWaiter => NextWaiterKeeps(st, t);
    case Offer => OfferKeeps(st, t);
    case Resume => ResumeKeeps(st, t);
    case Test => TestKeeps(st, t);
    case Try => TryKeeps(st, t);
    case Release => ReleaseKeeps(st, t);
    case Receive => ReceiveKeeps(st, t);
    case Take => TakeKeeps(st, t);
    case Done => DoneKeeps(st, t);
    case Timeout => TimeoutKeeps(st, t);
    case Expire => ExpireKeeps(st, t);
    case LockRemove => LockRemoveKeeps(st, t);
    case Remove => RemoveKeeps(st, t);
    case NextRelease => NextReleaseKeeps(st, t);
    case OfferRelease => OfferReleaseKeeps(st, t);
    case Leave => LeaveKeeps(st, t);
  }

  lemma {:induction false} RunInv<T(!new)>(ss: seq<State<T>>, i: nat)
    requires Run(ss) && i < |ss|
    ensures Inv(ss[i])
  {
    hide Inv;
    if i == 0 {
      InitInv(ss[0]);
    } else {
      RunInv(ss, i - 1);
      assert Next(ss[i - 1], ss[i - 1 + 1]);
      var t: Tid, a: Action<T> :| Can(ss[i - 1], t, a) && ss[i] == Do(ss[i - 1], t, a);
      StepKeeps(ss[i - 1], t, a);
    }
  }

  lemma InitInv<T>(st: State<T>)
    requires Init(st)
    ensures Inv(st)
  {}

  // ---- what holds in every run ----

  /** About to read or change the items. */
  predicate Touching<T>(st: State<T>, t: Tid) {
    t in st.pcs && var pc := st.pcs[t];
    pc.PutStart? || pc.PutCheck? || pc.PollStart? || pc.Disposing? || (pc.PollWoken? && !st.disposed)
  }

  /** The items have one user at a time: the lock holder, or the one waiter a blocked Put waits for. */
  lemma Exclusive<T(!new)>(ss: seq<State<T>>, i: nat, t: Tid)
    requires Run(ss) && i < |ss| && Touching(ss[i], t)
    ensures var st := ss[i];
      && st.lock.Held? && (st.lock.holder == t || (st.pcs[t].PollWoken? && Awaited(st, st.pcs[t].s)))
      && forall u :: Touching(st, u) ==> u == t
  {
    RunInv(ss, i);
    var st := ss[i];
    assert ThreadOk(st, t);
    forall u | Touching(st, u) ensures u == t {
      assert ThreadOk(st, u) && ThreadOk(st, st.lock.holder);
    }
  }

  /** No lost wake-up: whenever the lock is free, no waiter is queued or there is nothing to deliver. */
  lemma NoLostWakeUp<T(!new)>(ss: seq<State<T>>, i: nat)
    requires Run(ss) && i < |ss| && ss[i].lock == Free
    ensures ss[i].waiters == [] || ss[i].items == []
  {
    RunInv(ss, i);
  }

  /** Nothing is lost, repeated or reordered: what was put is what was delivered, then what Dispose dropped, then what is left. */
  lemma Conserved<T(!new)>(ss: seq<State<T>>, i: nat)
    requires Run(ss) && i < |ss|
    ensures var st := ss[i];
      && st.put == Delivered(st.got) + st.dropped + st.items && (!st.disposed ==> st.put == Delivered(st.got) + st.items)
  {
    RunInv(ss, i);
  }

  /** Thread t makes step a from time i on. */
  ghost predicate Steps<T>(ss: seq<State<T>>, i: nat, t: Tid, a: Action<T>) {
    i + 1 < |ss| && Can(ss[i], t, a) && ss[i + 1] == Do(ss[i], t, a)
  }

  /** The step in which a poller is served: at once, or when woken outside disposal. */
  predicate Serves<T(==)>(st: State<T>, t: Tid, a: Action<T>) {
    t in st.pcs && ((a == Try && st.pcs[t].PollStart? && st.items != []) || (a == Take && st.pcs[t].PollWoken? && !st.disposed))
  }

  /** A poller that is served gets the first items, as many as it asked for or there are, and at least one. */
  lemma ServedExactly<T(!new)>(ss: seq<State<T>>, i: nat, t: Tid, a: Action<T>)
    requires Run(ss) && Steps(ss, i, t, a) && Serves(ss[i], t, a)
    ensures var st, st' := ss[i], ss[i + 1]; var n := st.pcs[t].n; var k := if n < |st.items| then n else |st.items|;
      && 1 <= k <= n && st'.got == st.got + [Delivery(t, n, st.items[..k])] && st'.items == st.items[k..]
      && st'.put == st.put && st'.dropped == st.dropped
  {
    hide Run;
    RunInv(ss, i);
    assert ThreadOk(ss[i], t);
  }

  /** Nothing else moves items: a Put adds what it was called with, Dispose takes what is left. */
  lemma OtherwiseKept<T(!new)>(ss: seq<State<T>>, i: nat, t: Tid, a: Action<T>)
    requires Steps(ss, i, t, a) && !Serves(ss[i], t, a)
    ensures var st, st' := ss[i], ss[i + 1];
      && st'.got == st.got
      && (if a == Append then st.pcs[t].PutStart? && st'.items == st.items + st.pcs[t].xs && st'.put == st.put + st.pcs[t].xs
          else st'.put == st.put)
      && (if a == NextRelease && st.pcs[t] == Disposing([]) then st'.items == [] && st'.dropped == st.dropped + st.items
          else st'.dropped == st.dropped && (a != Append ==> st'.items == st.items))
  {}

  /** A call goes in with its argument and keeps it; on a disposed queue it ends at once. */
  lemma CallsKeepArguments<T(!new)>(ss: seq<State<T>>, i: nat, t: Tid, a: Action<T>)
    requires Steps(ss, i, t, a)
    ensures a.LockPut? ==> if ss[i].disposed then ss[i + 1] == ss[i] else ss[i + 1].pcs[t] == PutStart(a.xs)
    ensures a.LockPoll? ==> if ss[i].disposed then ss[i + 1] == ss[i] else ss[i + 1].pcs[t] == PollStart(a.n)
    ensures var pc, pc' := ss[i].pcs[t], ss[i + 1].pcs[t];
      (pc'.PollEnqueued? || pc'.PollSelect? || pc'.PollWoken?) && (pc.PollStart? || pc.PollEnqueued? || pc.PollSelect?) ==> pc'.n == pc.n
    ensures forall u :: u in ss[i].pcs && u != t ==> u in ss[i + 1].pcs && ss[i + 1].pcs[u] == ss[i].pcs[u]
  {}

  /** Every poll served so far got between one item and as many as it asked for. */
  lemma ServedWithin<T(!new)>(ss: seq<State<T>>, i: nat, k: nat)
    requires Run(ss) && i < |ss| && k < |ss[i].got|
    ensures 1 <= |ss[i].got[k].xs| <= ss[i].got[k].asked
  {
    hide Run;
    RunInv(ss, i);
  }

  /** A blocked Put can go on, or the poller it waits for can take a step: receive, take, answer or expire. */
  lemma PutNeverStuck<T(!new)>(ss: seq<State<T>>, i: nat, t: Tid)
    requires Run(ss) && i < |ss| && t in ss[i].pcs && ss[i].pcs[t].PutWait?
    ensures var st := ss[i]; var s := st.pcs[t].s;
      && s in st.semas
      && (Can(st, t, Resume) || var o := st.semas[s].owner;
          Can(st, o, Receive) || Can(st, o, Take) || Can(st, o, Done) || Can(st, o, Expire))
  {
    RunInv(ss, i);
    var st := ss[i];
    assert ThreadOk(st, t);
    var s := st.pcs[t].s;
    if st.semas[s].response != 0 {
      assert ThreadOk(st, st.semas[s].owner);
    }
  }

  /** The lock is never stuck: its holder can take a step, or is a Put whose poller can. */
  lemma LockNeverStuck<T(!new)>(ss: seq<State<T>>, i: nat)
    requires Run(ss) && i < |ss| && ss[i].lock.Held?
    ensures var st := ss[i]; var t := st.lock.holder;
      && t in st.pcs
      && (exists u: Tid, a: Action<T> :: Can(st, u, a) && (u == t || (st.pcs[t].PutWait? && Own(st, u, st.pcs[t].s))))
  {
    RunInv(ss, i);
    var st, t := ss[i], ss[i].lock.holder;
    assert ThreadOk(st, t);
    if st.pcs[t].PutWait? && st.semas[st.pcs[t].s].response != 0 {
      PutNeverStuck(ss, i, t);
      var o := st.semas[st.pcs[t].s].owner;
      var a: Action<T> :| Can(st, o, a);
      assert Own(st, o, st.pcs[t].s);
    } else {
      var a := HolderStep(st, t);
      assert Can(st, t, a);
    }
  }

  /** The next step of a thread with the lock. */
  lemma HolderStep<T>(st: State<T>, t: Tid) returns (a: Action<T>)
    requires Inv(st) && t in st.pcs && Holds(st.pcs[t])
    requires st.pcs[t].PutWait? ==> st.pcs[t].s in st.semas && st.semas[st.pcs[t].s].response == 0
    ensures Can(st, t, a)
  {
    assert ThreadOk(st, t);
    if Left(st) != [] { assert Used(st, Left(st)[0]); }
    a := match st.pcs[t]
      case PutStart(_) => Append
      case PutLoop => NextWaiter
      case PutOffer(_) => Offer
      case PutWait(_) => Resume
      case PutCheck => Test
      case PollStart(_) => Try
      case PollEnqueued(_, _) => Release
      case PollRemoving(_) => Remove
      case Disposing(_) => NextRelease
      case DisposeOffer(_, _) => OfferRelease
      case _ => Leave;
  }

  /** Dispose releases every waiter: once it has given up the lock, each one still waiting can go on. */
  lemma DisposeReleases<T(!new)>(ss: seq<State<T>>, i: nat, t: Tid)
    requires Run(ss) && i < |ss| && ss[i].disposed && ss[i].lock == Free && t in ss[i].pcs && ss[i].pcs[t].PollSelect?
    ensures Can(ss[i], t, Receive)
  {
    RunInv(ss, i);
    assert ThreadOk(ss[i], t);
  }

  /** The timeout race never drives a wait group below zero, where the runtime panics. */
  lemma NeverNegative<T(!new)>(ss: seq<State<T>>, i: nat, s: SemaId)
    requires Run(ss) && i < |ss| && s in ss[i].semas
    ensures ss[i].semas[s].response >= 0
  {
    RunInv(ss, i);
  }

  // ---- the slices ----

  /** `items.get`: moves the first items into the caller's buffer. */
  method GetItems<T(0)>(items: seq<T>, number: nat, returnItems: array<T>) returns (rest: seq<T>, index: nat)
    requires (if number < |items| then number else |items|) <= returnItems.Length
    modifies returnItems
    ensures index == (if number < |items| then number else |items|) && rest == items[index..] && returnItems[..index] == items[..index]
    ensures returnItems[index..] == old(returnItems[index..])
  {
    index := 0;
    while index < number && index < |items|
      invariant index <= number && index <= |items| && returnItems[..index] == items[..index]
      invariant forall j :: index <= j < returnItems.Length ==> returnItems[j] == old(returnItems[j])
    {
      returnItems[index] := items[index];
      index := index + 1;
    }
    rest := items[index..];
  }

  /** `waiters.remove`: all but one semaphore, in their order. */
  method RemoveWaiter(ws: seq<SemaId>, s: SemaId) returns (r: seq<SemaId>)
    ensures r == Without(ws, s)
  {
    r := [];
    for i := 0 to |ws|
      invariant Without(ws, s) == r + Without(ws[i..], s)
    {
      assert ws[i..][1..] == ws[i + 1..];
      if ws[i] != s {
        r := r + [ws[i]];
      }
    }
  }
}
