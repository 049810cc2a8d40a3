/**
  When a bulk of module ImplicitProtocol cannot be refused.  If at its start there is index space for
  it, and malloc will answer all the calls that its blocks and the growth of the index may take, then it is
  published, whatever the consumers do meanwhile, as long as no other producer takes blocks.
*/
module ImplicitProtocolProvided {
  import opened Options
  import opened Words
  import opened Allocation
  import opened BlockIndex
  import opened BlockNumbers
  import opened ImplicitProtocol
  import opened ImplicitProtocolProducer
  import opened ImplicitProtocolRuns
  import opened ImplicitProtocolBulks

  // ---------------------------------------------------------------- free blocks

  function FreeCount(place: seq<Place>): nat {
    if place == [] then 0 else FreeCount(place[..|place| - 1]) + if place[|place| - 1].Free? then 1 else 0
  }

  lemma {:induction false} FreeCountUpdate(place: seq<Place>, x: nat, p: Place)
    requires x < |place|
    ensures FreeCount(place[x := p]) + (if place[x].Free? then 1 else 0) == FreeCount(place) + if p.Free? then 1 else 0
  {
    var n := |place| - 1;
    if x == n {
      assert place[x := p][..n] == place[..n];
    } else {
      FreeCountUpdate(place[..n], x, p);
      assert place[x := p][..n] == place[..n][x := p];
    }
  }

  lemma FreeCountAppend(place: seq<Place>, p: Place)
    ensures FreeCount(place + [p]) == FreeCount(place) + if p.Free? then 1 else 0
  {
    assert (place + [p])[..|place|] == place;
  }

  lemma {:induction false} FreeCountNone(place: seq<Place>)
    ensures FreeCount(place) == 0 <==> NoneFree(place)
  {
    if place != [] {
      var n := |place| - 1;
      FreeCountNone(place[..n]);
      assert NoneFree(place) <==> NoneFree(place[..n]) && !place[n].Free?;
    }
  }

  // ---------------------------------------------------------------- blocks that keep slots of the index

  /** The first of the blocks m to n that is in the index; n if there is none. */
  function Oldest(blockOf: map<nat, BlockId>, m: nat, n: nat): (r: nat)
    requires m <= n
    ensures m <= r <= n && (r < n ==> r in blockOf) && forall i | m <= i < r :: i !in blockOf
    decreases n - m
  {
    if m == n || m in blockOf then m else Oldest(blockOf, m + 1, n)
  }

  /** How many slots before that of block n may be in use. */
  function Span(blockOf: map<nat, BlockId>, n: nat): nat { n - Oldest(blockOf, 0, n) }

  lemma SpanLess(blockOf: map<nat, BlockId>, blockOf': map<nat, BlockId>, n: nat)
    requires forall i: nat | i < n && i in blockOf' :: i in blockOf
    ensures Span(blockOf', n) <= Span(blockOf, n)
  {}

  lemma {:induction false} OldestIs(blockOf: map<nat, BlockId>, m: nat, n: nat, r: nat)
    requires m <= r <= n && (r < n ==> r in blockOf) && forall i | m <= i < r :: i !in blockOf
    ensures Oldest(blockOf, m, n) == r
    decreases n - m
  {
    if m < r { OldestIs(blockOf, m + 1, n, r); }
  }

  lemma SpanNext(blockOf: map<nat, BlockId>, n: nat, b: BlockId)
    ensures Span(blockOf[n := b], n + 1) == Span(blockOf, n) + 1
  {
    OldestIs(blockOf[n := b], 0, n + 1, Oldest(blockOf, 0, n));
  }

  /** They fit the index, and the entry that the producer looks at is in use only if they fill it. */
  lemma SpanFits(ix: Index, st: Store)
    requires IndexOk(ix) && Bound(ix, st) && InsertReady(ix, st) && ix.lo <= NextBlock(ix)
    ensures var live := Span(st.blockOf, NextBlock(ix));
            live <= ix.Cur().Cap() && (st.values[Candidate(ix)].Some? && NextBlock(ix) !in st.blockOf ==> live == ix.Cur().Cap())
  {
    CandidateIs(ix);
    assert HeaderOk(ix, ix.Cur());
    hide IndexOk, HeaderOk, Pow2, And;
    var n := NextBlock(ix);
    var r := Oldest(st.blockOf, 0, n);
    if r < n { assert BoundAt(ix, st, r); }
    if st.values[Candidate(ix)].Some? && n !in st.blockOf {
      EntryOwner(ix, st, Candidate(ix));
      InUse(ix, st);
    }
  }

  /** An entry that is in use is that of a block in the index. */
  lemma EntryOwner(ix: Index, st: Store, e: EntryId)
    requires Bound(ix, st) && e < |st.values| && st.values[e].Some?
    ensures ix.keys[e].Some? && ix.keys[e].value in st.blockOf && ix.entryOf[ix.keys[e].value] == e && ix.lo <= ix.keys[e].value < ix.top
  {
    assert BoundAt(ix, st, ix.keys[e].value);
  }

  // ---------------------------------------------------------------- what a bulk may still ask of malloc

  function CapOf(ix: Index): (c: nat)
    ensures c > 0
  {
    if ix.headers == [] then 1 else ix.Cur().Cap()
  }

  /** The capacity is 2 to this. */
  function CapExp(ix: Index): nat { if ix.headers == [] then 0 else ix.Cur().c }

  function Short(m: int, free: nat): nat { if m <= free then 0 else m - free }

  /** The number of the block that the bulk allocates next, and how many it still wants. */
  function NextOf(s: State): nat
    requires !s.pp.PIdle?
  {
    Published(s.k, s.st) + |s.pp.chain|
  }

  function WantedBy(s: State): nat
    requires Pending(s.pp).Some?
  {
    Wanted(s.k, s.st, s.pp.xs)
  }

  function Missing(s: State): nat
    requires Pending(s.pp).Some?
  {
    if NextOf(s) <= WantedBy(s) then WantedBy(s) - NextOf(s) else 0
  }

  /** At most so many calls of malloc are still to come. */
  function Owed(s: State): nat
    requires Pending(s.pp).Some? && !s.pp.PWrite?
  {
    var free, cap, m, slots := FreeCount(s.st.place), CapOf(s.ix), Missing(s), Span(s.st.blockOf, NextOf(s)) + Missing(s);
    if s.pp.PGrow? then Short(m, free) + 1 + Doublings(2 * cap, slots)
    else if s.pp.PNew? then Short(m - 1, free) + 1 + Doublings(cap, slots)
    else if s.pp.PReset? || s.pp.PValue? then Short(m - 1, free) + Doublings(cap, slots)
    else Short(m, free) + Doublings(cap, slots)
  }

  /** So large are the blocks together, as a power of two, that the index may come to hold. */
  function Limit(s: State): nat
    requires Pending(s.pp).Some? && !s.pp.PWrite?
  {
    var cap, slots := CapOf(s.ix), Span(s.st.blockOf, NextOf(s)) + Missing(s);
    s.k + CapExp(s.ix) + if s.pp.PGrow? then 1 + Doublings(2 * cap, slots) else Doublings(cap, slots)
  }

  /** The bulk is allocating. */
  predicate Allocating(pp: Producer) { Pending(pp).Some? && !pp.PWrite? }

  /** There is index space for the whole bulk, the index need not outgrow its limit, and malloc answers all calls that may come. */
  ghost predicate Promise(s: State) {
    Allocating(s.pp) ==>
      && s.k <= 63 && Base(WantedBy(s), Pow2(s.k)) - s.st.head < HALF
      && Limit(s) <= 64 && Granted(s.malloc, s.calls, s.calls + Owed(s))
  }

  lemma {:induction false} DoublingsLess(cap: nat, m: nat, n: nat)
    requires cap > 0 && m <= n
    ensures Doublings(cap, m) <= Doublings(cap, n)
    decreases n - cap
  {
    if m > cap { DoublingsLess(2 * cap, m, n); }
  }

  /** What keeps the promise while the producer does not move: less is owed when blocks become free or leave the index. */
  ghost predicate Eases(s: State, s': State) {
    && s'.k == s.k && s'.pp == s.pp && s'.ix == s.ix && s'.st.log == s.st.log && s'.malloc == s.malloc && s'.calls == s.calls
    && s.st.head <= s'.st.head && FreeCount(s.st.place) <= FreeCount(s'.st.place)
    && forall n: nat | n in s'.st.blockOf :: n in s.st.blockOf
  }

  lemma EasesOwed(s: State, s': State)
    requires Eases(s, s') && Allocating(s.pp)
    ensures Owed(s') <= Owed(s) && Limit(s') <= Limit(s)
  {
    hide Doublings, Span, Oldest, FreeCount, CapOf;
    SpanLess(s.st.blockOf, s'.st.blockOf, NextOf(s));
    var m, l, l' := Missing(s), Span(s.st.blockOf, NextOf(s)), Span(s'.st.blockOf, NextOf(s));
    DoublingsLess(CapOf(s.ix), l' + m, l + m);
    DoublingsLess(2 * CapOf(s.ix), l' + m, l + m);
  }

  lemma EasesPromise(s: State, s': State)
    requires Eases(s, s') && Promise(s)
    ensures Promise(s')
  {
    hide Owed, Limit, Span, FreeCount, Missing, NextOf, WantedBy;
    if Allocating(s.pp) {
      EasesOwed(s, s');
      SameWanted(s, s');
    }
  }

  lemma SameWanted(s: State, s': State)
    requires s'.k == s.k && s'.pp == s.pp && s'.st.log == s.st.log && Pending(s.pp).Some?
    ensures WantedBy(s') == WantedBy(s)
  {}

  // ---- the consumers

  lemma {:induction false} FreeCountMore(place: seq<Place>, place': seq<Place>)
    requires |place| == |place'| && forall x | 0 <= x < |place| && place[x].Free? :: place'[x].Free?
    ensures FreeCount(place) <= FreeCount(place')
  {
    if place != [] { FreeCountMore(place[..|place| - 1], place'[..|place| - 1]); }
  }

  /** The block that a consumer counts is in the index. */
  lemma CountsLive(s: State, t: Tid)
    requires Inv(s) && t < |s.cs| && s.cs[t].Busy? && s.cs[t].at.Count?
    ensures s.cs[t].at.b < |s.st.place| && !s.st.place[s.cs[t].at.b].Free?
  {
    hide IndexOk, Counted, Claimed, Stored, ProducerOk, AllAttended;
    assert ConsumerOk(s.k, s.ix, s.st, s.cs[t], t);
    assert BoundAt(s.ix, s.st, Blk(s.cs[t].seg, Pow2(s.k)));
  }

  lemma StepEases(s: State, t: Tid)
    requires Inv(s) && t < |s.cs| && s.cs[t].Busy? && StepReady(s, t)
    ensures Eases(s, StepNext(s, t))
  {
    hide Inv, FreeCount, StepReady, StepNext, ConsumerOk;
    if s.cs[t].at.Count? { CountsLive(s, t); }
    InvBasics(s);
    StepChanges(s, t);
    FreeCountMore(s.st.place, StepNext(s, t).st.place);
  }

  lemma StepChanges(s: State, t: Tid)
    requires t < |s.cs| && s.cs[t].Busy? && StepReady(s, t) && ConsumerOk(s.k, s.ix, s.st, s.cs[t], t)
    requires s.cs[t].at.Count? ==> s.cs[t].at.b < |s.st.place| && !s.st.place[s.cs[t].at.b].Free?
    ensures var s' := StepNext(s, t);
            && s'.k == s.k && s'.pp == s.pp && s'.ix == s.ix && s'.st.log == s.st.log && s'.malloc == s.malloc && s'.calls == s.calls
            && s.st.head == s'.st.head && |s'.st.place| == |s.st.place| && (forall n: nat | n in s'.st.blockOf :: n in s.st.blockOf)
            && forall x | 0 <= x < |s.st.place| && s.st.place[x].Free? :: s'.st.place[x].Free?
  {
    hide Knows, RangeOk, HasBlock;
    match s.cs[t].at {
      case Count(_, _, _) => CountChanges(s, t);
      case _ =>
    }
  }

  lemma CountChanges(s: State, t: Tid)
    requires t < |s.cs| && s.cs[t].Busy? && StepReady(s, t) && s.cs[t].at.Count?
    requires s.cs[t].at.b < |s.st.place| && !s.st.place[s.cs[t].at.b].Free?
    ensures var s' := StepNext(s, t);
            && s'.k == s.k && s'.pp == s.pp && s'.ix == s.ix && s'.st.log == s.st.log && s'.malloc == s.malloc && s'.calls == s.calls
            && s.st.head == s'.st.head && |s'.st.place| == |s.st.place| && s'.st.blockOf == s.st.blockOf
            && forall x | 0 <= x < |s.st.place| && s.st.place[x].Free? :: s'.st.place[x].Free?
  {}

  // ---- the producer

  /** A bulk for which there is index space, in an index within its limit, and for whose needs malloc has answers. */
  ghost predicate Provided(s: State, xs: seq<Value>) {
    var b := Pow2(s.k);
    var p, w := Published(s.k, s.st), Wanted(s.k, s.st, xs);
    p < w ==>
      && Base(w, b) - s.st.head < HALF
      && s.k + CapExp(s.ix) + Doublings(CapOf(s.ix), Span(s.st.blockOf, p) + (w - p)) <= 64
      && Granted(s.malloc, s.calls, s.calls + Demand(CapOf(s.ix), FreeCount(s.st.place), Span(s.st.blockOf, p), w - p))
  }

  lemma StartPromises(s: State, xs: seq<Value>)
    requires Inv(s) && s.pp.PIdle? && Provided(s, xs)
    ensures Promise(Next(s, Start(xs)))
  {
    hide Inv, Span, FreeCount, Demand, Doublings, CapOf, Base;
    var s' := Next(s, Start(xs));
    NextInv(s, Start(xs));
    if Allocating(s'.pp) {
      CheckFits(s');
      DemandIs(CapOf(s.ix), FreeCount(s.st.place), Span(s.st.blockOf, NextOf(s')), Missing(s'));
      HeadBelow(s');
      BlockSmall(s.k, NextOf(s'), WantedBy(s'), s.st.head);
    }
  }

  /** A block for which there is index space takes less than half of it. */
  lemma BlockSmall(k: nat, n: nat, w: nat, head: nat)
    requires n < w && head <= Base(n, Pow2(k)) && Base(w, Pow2(k)) - head < HALF
    ensures k <= 63
  {
    WordIsPow2();
    BaseMonotone(n, w, Pow2(k));
    if k > 63 { Pow2Less(63, k); }
  }

  /** When the producer looks for an entry: the slots that may be in use, and that the entry is in use only if they all are. */
  lemma CheckFits(s: State)
    requires Inv(s) && s.pp.PCheck?
    ensures s.ix.headers != [] && InsertReady(s.ix, s.st) && NextBlock(s.ix) == NextOf(s) < WantedBy(s)
    ensures Span(s.st.blockOf, NextOf(s)) <= CapOf(s.ix)
    ensures s.st.values[Candidate(s.ix)].Some? ==> Span(s.st.blockOf, NextOf(s)) == CapOf(s.ix)
  {
    hide IndexOk, Bound, Counted, Stored, Claimed, Consumers, AllAttended, ContentOk, Span;
    InsertReadyOk(s.k, s.ix, s.st, s.pp);
    SpanFits(s.ix, s.st);
  }

  /** One block more, of those wanted, is not more than all of them. */
  lemma NextFits(s: State)
    requires Inv(s) && Promise(s) && s.pp.PCheck?
    ensures Space(s)
  {
    hide Inv, Span, Owed;
    CheckFits(s);
    HeadBelow(s);
    BaseUpTo(NextOf(s) + 1, WantedBy(s), Pow2(s.k));
    BaseUpTo(NextOf(s), WantedBy(s), Pow2(s.k));
    FullGuard(s.k, NextOf(s), s.st.head);
  }

  lemma HeadBelow(s: State)
    requires Inv(s) && !s.pp.PIdle?
    ensures s.st.head <= Base(NextOf(s), Pow2(s.k))
  {
    InvBasics(s);
    hide Inv, Pow2;
    TailFits(|s.st.log|, Pow2(s.k));
    BaseUpTo(Published(s.k, s.st), NextOf(s), Pow2(s.k));
  }

  /** If all slots are in use, the index with its blocks is not at its largest. */
  lemma MayGrow(s: State)
    requires Inv(s) && Promise(s) && s.pp.PCheck? && Span(s.st.blockOf, NextOf(s)) == CapOf(s.ix)
    ensures s.ix.headers != [] && s.k + s.ix.Cur().c < 64
  {
    hide Inv, Span, Owed, Granted;
    CheckFits(s);
  }

  lemma CheckPromise(s: State)
    requires Inv(s) && Promise(s) && s.pp.PCheck? && GoReady(s)
    ensures Promise(GoNext(s))
  {
    hide Inv, Span, Doublings, FreeCount, Base, Granted;
    CheckFits(s);
    if GoNext(s).pp.PGrow? {
      MayGrow(s);
      GrowOwed(s);
    }
  }

  lemma GrowOwed(s: State)
    requires s.pp.PCheck? && Span(s.st.blockOf, NextOf(s)) == CapOf(s.ix) && NextOf(s) < WantedBy(s)
    ensures var s' := s.(pp := PGrow(s.pp.xs, s.pp.chain)); Owed(s') == Owed(s) && Limit(s') == Limit(s)
  {
    hide Span, FreeCount;
  }

  /** The index has grown. */
  lemma GrowPromise(s: State)
    requires Promise(s) && s.pp.PGrow? && GoReady(s)
    ensures Promise(GoNext(s).(calls := s.calls + 1))
  {
    hide Span, FreeCount, Doublings, Base;
    GrowsCap(s.ix);
  }

  lemma GrowsCap(ix: Index)
    requires ix.headers != [] && |ix.Cur().index| == ix.Cur().Cap()
    ensures CapOf(Grow(ix)) == 2 * CapOf(ix) && CapExp(Grow(ix)) == CapExp(ix) + 1
  {}

  /** The entry is stored, and the pool is empty. */
  lemma EntryPromise(s: State)
    requires Promise(s) && (s.pp.PKey? || s.pp.PTail? || s.pp.PReset?) && GoReady(s)
    ensures Promise(GoNext(s))
  {
    hide Span, FreeCount, Doublings, Base;
    if s.pp.PKey? { KeyCap(s.ix); }
  }

  lemma KeyCap(ix: Index)
    requires ix.headers != [] && NewTail(ix.Cur()) < |ix.Cur().index| && Candidate(ix) < |ix.keys| && NextBlock(ix) >= 0
    ensures CapOf(StoreKey(ix)) == CapOf(ix) && CapExp(StoreKey(ix)) == CapExp(ix)
  {}

  lemma EmptyPromise(s: State)
    requires Promise(s) && s.pp.PTake? && GoReady(s) && NextOf(s) < WantedBy(s)
    ensures Promise(GoNext(s))
  {
    hide Span, Doublings, Base;
    FreeCountNone(s.st.place);
  }

  lemma ValuePromise(s: State)
    requires Promise(s) && s.pp.PValue? && GoReady(s) && s.ix.Cur().tn == NextOf(s) < WantedBy(s) && !s.st.place[s.pp.b].Free?
    ensures Promise(GoNext(s))
  {
    hide Span, FreeCount, Doublings, Base;
    SpanNext(s.st.blockOf, NextOf(s), s.pp.b);
    FreeCountUpdate(s.st.place, s.pp.b, Place.Live(s.ix.Cur().tn));
  }

  /** What the invariant says of a bulk that is allocating. */
  lemma StillMissing(s: State)
    requires Inv(s) && Allocating(s.pp)
    ensures NextOf(s) < WantedBy(s) && (s.pp.PValue? ==> s.ix.headers != [] && s.ix.Cur().tn == NextOf(s) && s.pp.b < |s.st.place| && !s.st.place[s.pp.b].Free?)
  {
    hide IndexOk, Bound, Counted, Stored, Claimed, Consumers, AllAttended, ContentOk;
  }

  lemma GoPromise(s: State)
    requires Inv(s) && Promise(s) && Enabled(s, Go)
    ensures Promise(Next(s, Go))
  {
    hide Inv, Promise, GoReady, GoNext;
    if Allocating(s.pp) { StillMissing(s); }
    match s.pp {
      case PCheck(_, _) => CheckPromise(s);
      case PGrow(_, _) => GrowPromise(s);
      case PKey(_, _, _) => EntryPromise(s);
      case PTail(_, _, _) => EntryPromise(s);
      case PTake(_, _, _) => EmptyPromise(s);
      case PNew(_, _, _) => NewWaits(s);
      case PReset(_, _, _, _) => EntryPromise(s);
      case PValue(_, _, _, _) => ValuePromise(s);
      case _ => NoPromise(s);
    }
    SameState(s);
  }

  /** A bulk that is not allocating does not begin to. */
  lemma NoPromise(s: State)
    requires GoReady(s) && !Allocating(s.pp)
    ensures Promise(GoNext(s))
  {}

  lemma SameState(s: State)
    requires Enabled(s, Go)
    ensures Next(s, Go) == if s.pp.PGrow? then GoNext(s).(calls := s.calls + 1) else GoNext(s)
  {
    GoSame(s);
    hide GoNext, GoReady;
  }

  lemma GoSame(s: State)
    requires GoReady(s)
    ensures GoNext(s).malloc == s.malloc && GoNext(s).calls == s.calls
  {}

  lemma TakePromise(s: State, b: BlockId)
    requires Inv(s) && Promise(s) && Enabled(s, Take(b))
    ensures Promise(Next(s, Take(b)))
  {
    hide Inv, Promise, Owed, TakeNext;
    StillMissing(s);
    TakeChanges(s, b);
    TakeOwed(s, b);
    TakesPromise(s, Next(s, Take(b)));
  }

  lemma TakeChanges(s: State, b: BlockId)
    requires Enabled(s, Take(b))
    ensures var s' := Next(s, Take(b));
            && s'.pp == PReset(s.pp.xs, s.pp.chain, s.pp.e, b) && s'.k == s.k && s'.ix == s.ix && s'.malloc == s.malloc
            && s'.calls == (if s.pp.PNew? then s.calls + 1 else s.calls)
            && s'.st.log == s.st.log && s'.st.head == s.st.head && s'.st.blockOf == s.st.blockOf
            && s'.st.place == if s.pp.PTake? then s.st.place[b := Mine] else s.st.place + [Mine]
  {}

  lemma TakeOwed(s: State, b: BlockId)
    requires Enabled(s, Take(b)) && NextOf(s) < WantedBy(s)
    ensures var s' := Next(s, Take(b));
            Pending(s'.pp).Some? && !s'.pp.PWrite? && s'.calls + Owed(s') == s.calls + Owed(s)
  {
    hide TakeNext, Span, FreeCount, Doublings;
    TakeChanges(s, b);
    if s.pp.PTake? { FreeCountUpdate(s.st.place, b, Mine); } else { FreeCountAppend(s.st.place, Mine); }
  }

  /** The promise goes with the sum of what was asked for and what is owed. */
  lemma TakesPromise(s: State, s': State)
    requires Promise(s) && Allocating(s.pp) && s'.pp.PReset? && s'.pp.xs == s.pp.xs && s'.pp.chain == s.pp.chain
    requires s'.k == s.k && s'.ix == s.ix && s'.malloc == s.malloc && s'.st.log == s.st.log && s'.st.head == s.st.head && s'.st.blockOf == s.st.blockOf
    requires s'.calls + Owed(s') == s.calls + Owed(s) && s.calls <= s'.calls
    ensures Promise(s')
  {
    hide Owed, Span, Base;
  }

  lemma FirstGranted(malloc: nat -> bool, a: nat, b: nat)
    requires Granted(malloc, a, b) && a < b
    ensures malloc(a)
  {}

  /** A promise excludes giving up. */
  lemma PromiseSucceeds(s: State)
    requires Inv(s) && Promise(s)
    ensures !Enabled(s, Fail)
  {
    hide Inv, Span, FreeCount, Doublings, Base, Granted;
    if s.pp.PCheck? { NextFits(s); }
    if s.pp.PGrow? || s.pp.PNew? { FirstGranted(s.malloc, s.calls, s.calls + Owed(s)); }
  }

  /** Whatever the others do short of taking blocks, the promise is kept. */
  lemma PromiseKept(s: State, a: Action)
    requires Inv(s) && Promise(s) && Enabled(s, a) && (a.Start? ==> Provided(s, a.xs)) && (a.Borrow? ==> s.pp.PIdle?)
    ensures !a.Fail? && Promise(Next(s, a))
  {
    hide Inv, Promise, Provided, StepNext, StepReady, GoNext, GoReady, TakeNext, ClaimNext;
    match a {
      case Start(xs) => StartPromises(s, xs);
      case Go => GoPromise(s);
      case Fail => PromiseSucceeds(s);
      case Take(b) => TakePromise(s, b);
      case ClaimRange(t, count) => ClaimEases(s, t, count); EasesPromise(s, Next(s, a));
      case Step(t) => BusySteps(s, t); StepEases(s, t); EasesPromise(s, StepNext(s, t)); StepSame(s, t);
      case Borrow(b) => IdlePromise(Next(s, a));
      case Restore(b) => RestoreEases(s, b); EasesPromise(s, Next(s, a));
    }
  }

  lemma IdlePromise(s: State)
    requires s.pp.PIdle?
    ensures Promise(s)
  {}

  lemma ClaimEases(s: State, t: Tid, count: nat)
    requires Enabled(s, ClaimRange(t, count))
    ensures Eases(s, Next(s, ClaimRange(t, count)))
  {
    hide FreeCount;
  }

  lemma RestoreEases(s: State, b: BlockId)
    requires Enabled(s, Restore(b))
    ensures Eases(s, Next(s, Restore(b)))
  {
    FreeCountUpdate(s.st.place, b, Free);
    hide FreeCount;
  }

  lemma StepSame(s: State, t: Tid)
    requires StepReady(s, t)
    ensures Next(s, Step(t)) == StepNext(s, t)
  {
    StepPp(s, t);
    hide StepNext, StepReady;
  }

  lemma StepPp(s: State, t: Tid)
    requires StepReady(s, t)
    ensures StepNext(s, t).pp == s.pp && StepNext(s, t).calls == s.calls
  {}

  // ---------------------------------------------------------------- provided bulks are published

  /** From a state in which a promise holds on, none fails. */
  lemma {:induction false} PromisedRun(ss: seq<State>, acts: seq<Action>, i: nat, n: nat)
    requires IsRun(ss, acts) && AllClaim(acts, 1) && i <= n < |ss| && Promise(ss[i])
    requires forall m | i <= m < n :: (acts[m].Start? ==> Provided(ss[m], acts[m].xs)) && (acts[m].Borrow? ==> ss[m].pp.PIdle?)
    ensures Promise(ss[n]) && forall m | i <= m < n :: !acts[m].Fail?
  {
    hide Init, AllClaim, Inv, Enabled, Next, Promise, Provided;
    if i < n {
      PromisedRun(ss, acts, i, n - 1);
      RunInvariant(ss, acts, n - 1);
      PromiseKept(ss[n - 1], acts[n - 1]);
    }
  }

  /**
    A bulk that is provided for when it begins, in state i, and during which no other producer takes
    blocks, has published all its elements when it is over, in state j.
   */
  lemma ProvidedPublishes(ss: seq<State>, acts: seq<Action>, i: nat, j: nat)
    requires IsRun(ss, acts) && AllClaim(acts, 1) && i < j < |ss| && acts[i].Start? && Provided(ss[i], acts[i].xs)
    requires ss[j].pp.PIdle? && forall m | i < m < j :: !ss[m].pp.PIdle? && !acts[m].Borrow?
    ensures ss[j].st.log == ss[i].st.log + acts[i].xs
  {
    hide Init, AllClaim, Inv, Enabled, Next, Promise, Provided, OnlyChain, Different, Published, TakenIn, FreedIn;
    ContentsChange(ss[i], acts[i]);
    IdlePromise(ss[i]);
    forall m | i < m < j ensures !acts[m].Start? { ContentsChange(ss[m], acts[m]); }
    PromisedRun(ss, acts, i, j);
    BulkWholeOrNot(ss, acts, i, j);
  }

  /** The bulk begun last was provided for then, and no other producer has taken a block since. */
  ghost predicate Backed(ss: seq<State>, acts: seq<Action>)
    requires |ss| == |acts| + 1
  {
    acts != [] &&
      var n := |acts| - 1;
      if acts[n].Start? then Provided(ss[n], acts[n].xs) else !acts[n].Borrow? && Backed(ss[..n + 1], acts[..n])
  }

  /** That, of every bulk that is over, at its end. */
  ghost function BackedOf(ss: seq<State>, acts: seq<Action>): (r: seq<bool>)
    requires |ss| == |acts| + 1
    ensures |r| == |Finished(ss, acts)|
  {
    if acts == [] then []
    else
      var n := |acts| - 1;
      BackedOf(ss[..n + 1], acts[..n])
      + if !ss[n].pp.PIdle? && ss[n + 1].pp.PIdle? then [Backed(ss[..n + 1], acts[..n])] else []
  }

  /** In every run the bulks that are backed succeed, whatever happens to others. */
  lemma {:induction false} BackedSucceed(ss: seq<State>, acts: seq<Action>)
    requires IsRun(ss, acts) && AllClaim(acts, 1)
    ensures forall m | 0 <= m < |Finished(ss, acts)| && BackedOf(ss, acts)[m] :: Finished(ss, acts)[m].ok
  {
    hide Init, AllClaim, Inv, Enabled, Next, Promise, Provided, Backed, Publishes;
    if acts != [] {
      var n := |acts| - 1;
      ShorterRun(ss, acts, n);
      BackedSucceed(ss[..n + 1], acts[..n]);
      if !ss[n].pp.PIdle? && ss[n + 1].pp.PIdle? && Backed(ss[..n + 1], acts[..n]) {
        BackedPromise(ss[..n + 1], acts[..n]);
        RunInvariant(ss, acts, n);
        PromiseSucceeds(ss[n]);
        EndsHow(ss[n], acts[n]);
      }
    }
  }

  /** While it is in progress it has a promise, and has not given up. */
  lemma {:induction false} BackedPromise(ss: seq<State>, acts: seq<Action>)
    requires IsRun(ss, acts) && AllClaim(acts, 1) && Backed(ss, acts)
    ensures ss[|acts|].pp.PIdle? || (Promise(ss[|acts|]) && Pending(ss[|acts|].pp).Some?)
  {
    hide Init, AllClaim, Inv, Enabled, Next, Promise, Provided, Pending, Publishes;
    var n := |acts| - 1;
    RunInvariant(ss, acts, n);
    ContentsChange(ss[n], acts[n]);
    BulkEnds(ss[n], acts[n]);
    if !acts[n].Start? {
      ShorterRun(ss, acts, n);
      BackedPromise(ss[..n + 1], acts[..n]);
      if ss[n].pp.PIdle? { IdlePromise(ss[n]); }
    } else {
      IdlePromise(ss[n]);
    }
    PromiseKept(ss[n], acts[n]);
  }
}
