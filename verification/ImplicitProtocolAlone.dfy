/**
  A bulk of module ImplicitProtocol that no other thread overlaps is published exactly if it is provided for:
  what is needed of index space, of the index and of malloc at its start is just what its steps take.  And in
  every run the indices stay so close together that the test for space means what it says.
*/
module ImplicitProtocolAlone {
  import opened Options
  import opened Words
  import opened Allocation
  import opened BlockIndex
  import opened BlockNumbers
  import opened ImplicitProtocol
  import opened ImplicitProtocolProducer
  import opened ImplicitProtocolRuns
  import opened ImplicitProtocolBulks
  import opened ImplicitProtocolProvided

  // ---------------------------------------------------------------- the indices stay close

  /** A block has passed the test for space, and is not in the chain yet. */
  predicate Admitted(pp: Producer) { pp.PGrow? || pp.PKey? || pp.PTail? || pp.PTake? || pp.PNew? || pp.PReset? || pp.PValue? }

  /** The blocks that are published or have passed the test. */
  function TopOf(k: nat, st: Store, pp: Producer): nat {
    Published(k, st) + if Admitted(pp) then |pp.chain| + 1 else if pp.PCheck? || pp.PWrite? then |pp.chain| else 0
  }

  ghost predicate Near(s: State) { s.k <= 63 && Base(TopOf(s.k, s.st, s.pp), Pow2(s.k)) - s.st.head < HALF }

  lemma GoTop(s: State)
    requires GoReady(s) && !s.pp.PCheck? && (s.pp.PWrite? ==> Published(s.k, s.st) + |s.pp.chain| == Wanted(s.k, s.st, s.pp.xs))
    ensures var s' := GoNext(s); s'.k == s.k && s'.st.head == s.st.head && TopOf(s'.k, s'.st, s'.pp) == TopOf(s.k, s.st, s.pp)
  {
    hide And, NewTail, CanFind, Found, Grow, StoreKey, StoreTail, Rewind, Blocks, Pow2;
  }

  lemma WritesAll(s: State)
    requires Inv(s) && s.pp.PWrite?
    ensures Published(s.k, s.st) + |s.pp.chain| == Wanted(s.k, s.st, s.pp.xs)
  {
    hide IndexOk, Bound, Counted, Stored, Claimed, Consumers, AllAttended, ContentOk;
  }

  lemma GoNear(s: State)
    requires Inv(s) && Near(s) && Enabled(s, Go)
    ensures Near(Next(s, Go))
  {
    hide Inv, GoReady, GoNext, Base, Blocks;
    SameState(s);
    if s.pp.PCheck? {
      HeadBelow(s);
      FullGuard(s.k, NextOf(s), s.st.head);
      CheckTop(s);
    } else {
      if s.pp.PWrite? { WritesAll(s); }
      GoTop(s);
    }
  }

  lemma CheckTop(s: State)
    requires GoReady(s) && s.pp.PCheck?
    ensures GoNext(s).k == s.k && GoNext(s).st == s.st && TopOf(s.k, s.st, GoNext(s).pp) == NextOf(s) + 1 == TopOf(s.k, s.st, s.pp) + 1
  {}

  lemma FailNear(s: State)
    requires Near(s) && Enabled(s, Fail)
    ensures Near(Next(s, Fail))
  {
    hide Base, Blocks;
    BaseUpTo(TopOf(s.k, s.st, Next(s, Fail).pp), TopOf(s.k, s.st, s.pp), Pow2(s.k));
  }

  lemma StartNear(s: State, xs: seq<Value>)
    requires Near(s) && Enabled(s, Start(xs))
    ensures Near(Next(s, Start(xs)))
  {
    hide Base, Blocks;
  }

  lemma TakeNear(s: State, b: BlockId)
    requires Near(s) && Enabled(s, Take(b))
    ensures Near(Next(s, Take(b)))
  {
    hide Base, Blocks, TakeNext;
    TakeChanges(s, b);
  }

  /** What only lets the head go on, or moves blocks. */
  lemma EasesNear(s: State, s': State)
    requires Near(s) && s'.k == s.k && s'.pp == s.pp && s'.st.log == s.st.log && s.st.head <= s'.st.head
    ensures Near(s')
  {
    hide Base, Blocks;
  }

  lemma NearKept(s: State, a: Action)
    requires Inv(s) && Near(s) && Enabled(s, a)
    ensures Near(Next(s, a))
  {
    hide Inv, Near, StepNext, StepReady, GoNext, GoReady, TakeNext, ClaimNext;
    match a {
      case Start(xs) => StartNear(s, xs);
      case Go => GoNear(s);
      case Fail => FailNear(s);
      case Take(b) => TakeNear(s, b);
      case ClaimRange(t, count) => ClaimEases(s, t, count); EasesNear(s, Next(s, a));
      case Step(t) => BusySteps(s, t); StepEases(s, t); StepSame(s, t); EasesNear(s, Next(s, a));
      case Borrow(b) => EasesNear(s, Next(s, a));
      case Restore(b) => EasesNear(s, Next(s, a));
    }
  }

  lemma {:induction false} RunNear(ss: seq<State>, acts: seq<Action>, n: nat)
    requires IsRun(ss, acts) && AllClaim(acts, 1) && ss[0].k <= 63 && n < |ss|
    ensures Near(ss[n])
  {
    hide Inv, Enabled, Next, Near, AllClaim;
    if n == 0 {
      BeginsNear(ss[0]);
    } else {
      RunNear(ss, acts, n - 1);
      RunInvariant(ss, acts, n - 1);
      NearKept(ss[n - 1], acts[n - 1]);
    }
  }

  lemma BeginsNear(s: State)
    requires exists c: nat :: Init(s, c)
    ensures s.k <= 63 ==> Near(s)
  {}

  /** In every state of every run headIndex and tailIndex are less than 2^63 apart. */
  lemma AlwaysClose(ss: seq<State>, acts: seq<Action>, n: nat)
    requires IsRun(ss, acts) && AllClaim(acts, 1) && ss[0].k <= 63 && n < |ss|
    ensures ss[n].st.head <= |ss[n].st.log| < ss[n].st.head + HALF
  {
    hide Inv, Init, Enabled, Next, AllClaim, Base, Blocks, Pow2;
    RunNear(ss, acts, n);
    RunInvariant(ss, acts, n);
    InvBasics(ss[n]);
    var s := ss[n];
    TailFits(|s.st.log|, Pow2(s.k));
    BaseUpTo(Published(s.k, s.st), TopOf(s.k, s.st, s.pp), Pow2(s.k));
  }

  // ---------------------------------------------------------------- a slot for the block that was admitted

  /** If all slots are in use then so is the entry that the producer looks at. */
  lemma FullEntry(ix: Index, st: Store)
    requires IndexOk(ix) && Bound(ix, st) && InsertReady(ix, st) && ix.lo <= NextBlock(ix) && Span(st.blockOf, NextBlock(ix)) == CapOf(ix)
    ensures ix.keys[Candidate(ix)].Some? && st.values[Candidate(ix)].Some?
  {
    CandidateIs(ix);
    assert HeaderOk(ix, ix.Cur());
    var n := NextBlock(ix);
    var r := Oldest(st.blockOf, 0, n);
    assert BoundAt(ix, st, r);
    hide IndexOk, HeaderOk, Pow2, And, Bound;
    assert r == ix.lo && n == ix.top;
  }

  /** The slots before the next block leave one for it, or the index grows. */
  ghost predicate Roomy(s: State) {
    && (s.pp.PGrow? ==> Span(s.st.blockOf, NextOf(s)) <= CapOf(s.ix))
    && (Admitted(s.pp) && !s.pp.PGrow? ==> Span(s.st.blockOf, NextOf(s)) < CapOf(s.ix))
  }

  lemma CheckRoomy(s: State)
    requires Inv(s) && s.pp.PCheck? && GoReady(s)
    ensures Roomy(GoNext(s))
  {
    hide Counted, Stored, Claimed, Consumers, AllAttended, ContentOk, Span, CapOf, IndexOk, Bound;
    CheckFits(s);
    InsertReadyOk(s.k, s.ix, s.st, s.pp);
    if Span(s.st.blockOf, NextOf(s)) == CapOf(s.ix) { FullEntry(s.ix, s.st); }
  }

  lemma GoRoomy(s: State)
    requires GoReady(s) && !s.pp.PCheck? && Roomy(s)
    ensures Roomy(GoNext(s))
  {
    hide Span, AfterChain, And, CanFind, Found, Rewind;
    if s.pp.PGrow? { GrowsCap(s.ix); }
    if s.pp.PKey? { KeyCap(s.ix); }
    if s.pp.PValue? { ChainStage(s); }
  }

  lemma ChainStage(s: State)
    requires GoReady(s) && s.pp.PValue?
    ensures !Admitted(GoNext(s).pp)
  {}

  /** What the producer does when nobody overlaps it. */
  predicate Own(a: Action) { a.Go? || a.Fail? || a.Take? }

  lemma OwnRoomy(s: State, a: Action)
    requires Inv(s) && Roomy(s) && Enabled(s, a) && (Own(a) || a.Start?)
    ensures Roomy(Next(s, a))
  {
    hide Inv, GoReady, GoNext, TakeNext, Span, CapOf;
    match a {
      case Start(xs) =>
      case Go => SameState(s); if s.pp.PCheck? { CheckRoomy(s); } else { GoRoomy(s); }
      case Fail =>
      case Take(b) => TakeChanges(s, b);
      case _ =>
    }
  }

  // ---------------------------------------------------------------- what was there was needed

  /** The producer's own step takes away from the promise just what it was for. */
  lemma OwnBack(s: State, a: Action)
    requires Inv(s) && Near(s) && Roomy(s) && Enabled(s, a) && (a.Go? || a.Take?) && Promise(Next(s, a))
    ensures Promise(s)
  {
    hide Inv, Promise, Near, Roomy, GoReady, GoNext, TakeNext;
    if !Allocating(s.pp) {
      NotAllocating(s);
    } else if a.Take? {
      StillMissing(s);
      TakeBack(s, a.b);
    } else {
      StillMissing(s);
      SameState(s);
      match s.pp {
        case PCheck(_, _) => CheckBack(s);
        case PGrow(_, _) => GrowBack(s);
        case PTake(_, _, _) => EmptyBack(s);
        case PValue(_, _, _, _) => ValueBack(s);
        case PNew(_, _, _) => NewWaits(s);
        case _ => EntryBack(s);
      }
    }
  }

  lemma NotAllocating(s: State)
    requires !Allocating(s.pp)
    ensures Promise(s)
  {}

  lemma CheckBack(s: State)
    requires Inv(s) && s.pp.PCheck? && GoReady(s) && Promise(GoNext(s))
    ensures Promise(s)
  {
    hide Inv, Span, Doublings, FreeCount, Base, Granted;
    CheckFits(s);
    if GoNext(s).pp.PGrow? { GrowOwed(s); }
  }

  lemma GrowBack(s: State)
    requires s.pp.PGrow? && GoReady(s) && s.malloc(s.calls) && Promise(GoNext(s).(calls := s.calls + 1))
    ensures Promise(s)
  {
    hide Span, FreeCount, Doublings, Base;
    GrowsCap(s.ix);
  }

  lemma EntryBack(s: State)
    requires (s.pp.PKey? || s.pp.PTail? || s.pp.PReset?) && GoReady(s) && Promise(GoNext(s))
    ensures Promise(s)
  {
    hide Span, FreeCount, Doublings, Base;
    if s.pp.PKey? { KeyCap(s.ix); }
  }

  lemma EmptyBack(s: State)
    requires s.pp.PTake? && GoReady(s) && NextOf(s) < WantedBy(s) && Promise(GoNext(s))
    ensures Promise(s)
  {
    hide Span, Doublings, Base;
    FreeCountNone(s.st.place);
  }

  lemma TakeBack(s: State, b: BlockId)
    requires Allocating(s.pp) && NextOf(s) < WantedBy(s) && Enabled(s, Take(b)) && Promise(Next(s, Take(b)))
    ensures Promise(s)
  {
    hide Owed, Limit, TakeNext;
    TakeChanges(s, b);
    TakeOwed(s, b);
    TakeSame(s, Next(s, Take(b)));
  }

  lemma TakeSame(s: State, s': State)
    requires Allocating(s.pp) && (s.pp.PTake? || s.pp.PNew?) && Promise(s') && s'.pp.PReset? && s'.pp.xs == s.pp.xs && s'.pp.chain == s.pp.chain
    requires s'.k == s.k && s'.ix == s.ix && s'.malloc == s.malloc && s'.st.log == s.st.log && s'.st.head == s.st.head && s'.st.blockOf == s.st.blockOf
    requires s'.calls + Owed(s') == s.calls + Owed(s) && s'.calls == (if s.pp.PNew? then s.calls + 1 else s.calls) && (s.pp.PNew? ==> s.malloc(s.calls))
    ensures Promise(s)
  {
    hide Owed, Span, Base, Doublings;
  }

  /** The last block had all that it needed: index space, a slot, and itself. */
  lemma ValueBack(s: State)
    requires Inv(s) && Near(s) && Roomy(s) && s.pp.PValue? && GoReady(s) && s.ix.Cur().tn == NextOf(s) < WantedBy(s) && !s.st.place[s.pp.b].Free?
    requires Promise(GoNext(s))
    ensures Promise(s)
  {
    hide Inv, Span, FreeCount, Base, Blocks, Pow2;
    SpanNext(s.st.blockOf, NextOf(s), s.pp.b);
    FreeCountUpdate(s.st.place, s.pp.b, Place.Live(s.ix.Cur().tn));
    InIndex(s);
  }

  lemma InIndex(s: State)
    requires Inv(s) && s.pp.PValue?
    ensures s.k + CapExp(s.ix) <= 64
  {
    hide IndexOk, Bound, Counted, Stored, Claimed, Consumers, AllAttended, ContentOk;
  }

  lemma StartBack(s: State, xs: seq<Value>)
    requires Inv(s) && s.pp.PIdle? && Promise(Next(s, Start(xs)))
    ensures Provided(s, xs)
  {
    hide Inv, Span, FreeCount, Demand, Doublings, CapOf, Base;
    var s' := Next(s, Start(xs));
    NextInv(s, Start(xs));
    if Allocating(s'.pp) {
      CheckFits(s');
      DemandIs(CapOf(s.ix), FreeCount(s.st.place), Span(s.st.blockOf, NextOf(s')), ImplicitProtocolProvided.Missing(s'));
    }
  }

  // ---------------------------------------------------------------- a whole bulk

  lemma {:induction false} RunRoomy(ss: seq<State>, acts: seq<Action>, i: nat, n: nat)
    requires IsRun(ss, acts) && AllClaim(acts, 1) && i < n < |ss| && acts[i].Start? && forall m | i < m < n :: Own(acts[m])
    ensures Roomy(ss[n])
  {
    hide Inv, Enabled, Next, Roomy, AllClaim, Init;
    RunInvariant(ss, acts, n - 1);
    if n == i + 1 {
      ContentsChange(ss[i], acts[i]);
      IdleRoomy(ss[i]);
    } else {
      RunRoomy(ss, acts, i, n - 1);
    }
    OwnRoomy(ss[n - 1], acts[n - 1]);
  }

  lemma IdleRoomy(s: State)
    requires s.pp.PIdle?
    ensures Roomy(s)
  {}

  /** If nothing failed up to state n then all that it took had been promised from the start. */
  lemma {:induction false} RunBack(ss: seq<State>, acts: seq<Action>, i: nat, n: nat)
    requires IsRun(ss, acts) && AllClaim(acts, 1) && ss[0].k <= 63 && i < n < |ss| && acts[i].Start? && Promise(ss[n])
    requires forall m | i < m < n :: Own(acts[m]) && !acts[m].Fail?
    ensures Promise(ss[i + 1])
    decreases n
  {
    hide Inv, Enabled, Next, Roomy, Near, Promise, AllClaim, Init;
    if n > i + 1 {
      RunInvariant(ss, acts, n - 1);
      RunNear(ss, acts, n - 1);
      RunRoomy(ss, acts, i, n - 1);
      OwnBack(ss[n - 1], acts[n - 1]);
      RunBack(ss, acts, i, n - 1);
    }
  }

  /**
    A bulk that begins in state i and is over in state j, without steps of other threads in between: it has
    published its elements exactly if it was provided for when it began.
   */
  lemma AloneExactly(ss: seq<State>, acts: seq<Action>, i: nat, j: nat)
    requires IsRun(ss, acts) && AllClaim(acts, 1) && ss[0].k <= 63 && i < j < |ss| && acts[i].Start?
    requires ss[j].pp.PIdle? && forall m | i < m < j :: !ss[m].pp.PIdle? && Own(acts[m])
    ensures ss[j].st.log == ss[i].st.log + acts[i].xs <==> Provided(ss[i], acts[i].xs)
  {
    hide Init, AllClaim, Inv, Enabled, Next, Promise, Provided, OnlyChain, Different, Published, TakenIn, FreedIn;
    RunInvariant(ss, acts, i);
    ContentsChange(ss[i], acts[i]);
    if Provided(ss[i], acts[i].xs) {
      ProvidedPublishes(ss, acts, i, j);
    } else {
      BulkWholeOrNot(ss, acts, i, j);
      if acts[i].xs == [] {
        NothingWanted(ss[i]);
      } else if !Refused(acts, i, j) {
        IdlePromise(ss[j]);
        RunBack(ss, acts, i, j);
        StartBack(ss[i], acts[i].xs);
      }
    }
  }

  lemma NothingWanted(s: State)
    ensures Provided(s, [])
  {}
}
