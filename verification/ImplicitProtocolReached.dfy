/**
  States that runs of module ImplicitProtocol reach: extending runs, a state with two elements
  published, and that no block is left when all elements are consumed and the last block was full.
*/
module ImplicitProtocolReached {
  import opened Jobs
  import opened Options
  import opened Words
  import opened BlockIndex
  import opened BlockNumbers
  import opened ImplicitProtocol
  import Production = ImplicitProtocolProducer
  import opened ImplicitProtocolRuns
  import opened ImplicitProtocolBlocks
  import opened ImplicitProtocolProvided
  import Writing = ImplicitProtocolBulks

  /** Some run with claims of at least `min` elements ends in s. */
  ghost predicate Reached(s: State, min: nat) {
    exists ss, acts | IsRun(ss, acts) && AllClaim(acts, min) :: ss[|acts|] == s
  }

  /** And a run that began a bulk of xs in state c and has not ended it. */
  ghost predicate Since(s: State, c: State, xs: seq<Value>) {
    exists ss, acts, i: nat | IsRun(ss, acts) && AllClaim(acts, 1) && i < |acts| :: UnderWay(ss, acts, i, c, xs) && ss[|acts|] == s
  }

  /** The bulk begun in state i is not over at the end of the run, and no other producer has taken blocks. */
  ghost predicate UnderWay(ss: seq<State>, acts: seq<Action>, i: nat, c: State, xs: seq<Value>)
    requires |ss| == |acts| + 1 && i < |acts|
  {
    ss[i] == c && acts[i] == Start(xs) && forall m | i < m <= |acts| :: !ss[m].pp.PIdle? && (m < |acts| ==> !acts[m].Borrow?)
  }

  datatype Origin = Anywhere | Bulk(c: State, xs: seq<Value>)

  ghost predicate Path(s: State, o: Origin) { if o.Anywhere? then Reached(s, 1) else Since(s, o.c, o.xs) }

  /** In state s the next step of consumer t finds no entry or no block. */
  predicate Stuck(s: State, t: Tid) { t < |s.cs| && s.cs[t].Busy? && !Enabled(s, Step(t)) }

  lemma InitReached(s: State, c: nat, min: nat)
    requires Init(s, c)
    ensures Reached(s, min)
  {
    hide Init, Enabled, Next;
    var ss, acts: seq<Action> := [s], [];
    assert Init(ss[0], c);
    assert IsRun(ss, acts) && AllClaim(acts, min) && ss[|acts|] == s;
  }

  lemma Extend(s: State, a: Action, min: nat)
    requires Reached(s, min) && Enabled(s, a) && Claims(a, min)
    ensures Reached(Next(s, a), min)
  {
    hide Init, Enabled, Next;
    var ss, acts :| IsRun(ss, acts) && AllClaim(acts, min) && ss[|acts|] == s;
    ExtendRun(ss, acts, a);
    assert (ss + [Next(s, a)])[|acts + [a]|] == Next(s, a);
    assert AllClaim(acts + [a], min);
  }

  lemma ExtendRun(ss: seq<State>, acts: seq<Action>, a: Action)
    requires IsRun(ss, acts) && Enabled(ss[|acts|], a)
    ensures IsRun(ss + [Next(ss[|acts|], a)], acts + [a])
  {
    hide Init, Enabled, Next;
    var ss', acts' := ss + [Next(ss[|acts|], a)], acts + [a];
    forall i | 0 <= i < |acts'| ensures Enabled(ss'[i], acts'[i]) && ss'[i + 1] == Next(ss'[i], acts'[i]) {
      if i < |acts| { assert Enabled(ss[i], acts[i]) && ss[i + 1] == Next(ss[i], acts[i]); }
    }
    assert ss'[0] == ss[0];
  }

  lemma ReachedOk(s: State)
    requires Reached(s, 1)
    ensures Inv(s) && OwnersBusy(s.st.owner, s.cs)
  {
    hide Inv, OwnersBusy, Init, Enabled, Next, AllClaim;
    var ss, acts :| IsRun(ss, acts) && AllClaim(acts, 1) && ss[|acts|] == s;
    RunInvariant(ss, acts, |acts|);
    RunBusy(ss, acts, |acts|);
  }

  /** Claims of more elements are claims of fewer. */
  lemma ReachedLess(s: State)
    requires Reached(s, 1)
    ensures Reached(s, 0)
  {
    hide Init, Enabled, Next;
    var ss, acts :| IsRun(ss, acts) && AllClaim(acts, 1) && ss[|acts|] == s;
    assert AllClaim(acts, 0);
  }

  // ---------------------------------------------------------------- a consumer on its way

  /** Only consumer t has moved. */
  predicate OnlyMoved(s: State, s': State, t: Tid) {
    && s'.k == s.k && s'.pp == s.pp && s'.st.log == s.st.log && s'.st.head == s.st.head && |s'.cs| == |s.cs|
    && forall u | 0 <= u < |s.cs| && u != t :: s'.cs[u] == s.cs[u]
  }

  lemma StepMoves(s: State, t: Tid)
    requires StepReady(s, t)
    ensures OnlyMoved(s, StepNext(s, t), t)
  {}

  // ---------------------------------------------------------------- when everything is consumed

  /** No block is in the index. */
  predicate NoBlock(st: Store) { forall e | 0 <= e < |st.values| :: st.values[e] == None }

  /** When all elements are consumed and the last block was full, no block is left. */
  lemma AllConsumed(s: State)
    requires Inv(s) && OwnersBusy(s.st.owner, s.cs) && Quiet(s) && s.st.head == |s.st.log| && Pos(|s.st.log|, Pow2(s.k)) == 0
    ensures NoBlock(s.st)
  {
    hide Inv, OwnersBusy, Conserved, Indexed;
    QuietConserved(s);
    InvIndexed(s);
    var b := Pow2(s.k);
    PosIn(|s.st.log|, b);
    BlocksAt(|s.st.log|, b);
    forall n: nat ensures !InUse(s.k, s.st, n) {
      if n < Published(s.k, s.st) { BaseMonotone(n, Published(s.k, s.st), b); }
    }
    NoneLeft(s);
  }

  lemma NoneLeft(s: State)
    requires Conserved(s) && Indexed(s) && forall n: nat :: !InUse(s.k, s.st, n)
    ensures NoBlock(s.st)
  {
    hide InUse;
  }

  // ---------------------------------------------------------------- going on

  lemma PathReached(s: State, o: Origin)
    requires Path(s, o)
    ensures Reached(s, 1)
  {
    hide Init, Enabled, Next, AllClaim;
    if o.Bulk? {
      var ss, acts, i: nat :| IsRun(ss, acts) && AllClaim(acts, 1) && i < |acts| && UnderWay(ss, acts, i, o.c, o.xs) && ss[|acts|] == s;
      assert IsRun(ss, acts) && AllClaim(acts, 1) && ss[|acts|] == s;
    }
  }

  lemma PathOn(s: State, a: Action, o: Origin)
    requires Path(s, o) && Enabled(s, a) && Claims(a, 1) && (o.Bulk? ==> !Next(s, a).pp.PIdle? && !a.Borrow?)
    ensures Path(Next(s, a), o)
  {
    hide Init, Enabled, Next, Reached;
    if o.Anywhere? { Extend(s, a, 1); } else { SinceOn(s, a, o.c, o.xs); }
  }

  lemma SinceOn(s: State, a: Action, c: State, xs: seq<Value>)
    requires Since(s, c, xs) && Enabled(s, a) && Claims(a, 1) && !Next(s, a).pp.PIdle? && !a.Borrow?
    ensures Since(Next(s, a), c, xs)
  {
    hide Init, Enabled, Next;
    var ss, acts, i: nat :| IsRun(ss, acts) && AllClaim(acts, 1) && i < |acts| && UnderWay(ss, acts, i, c, xs) && ss[|acts|] == s;
    var ss', acts' := ss + [Next(s, a)], acts + [a];
    ExtendRun(ss, acts, a);
    assert AllClaim(acts', 1);
    assert UnderWay(ss', acts', i, c, xs) && ss'[|acts'|] == Next(s, a);
  }

  lemma SinceBegins(s: State, xs: seq<Value>)
    requires Reached(s, 1) && Enabled(s, Start(xs)) && !Next(s, Start(xs)).pp.PIdle?
    ensures Since(Next(s, Start(xs)), s, xs)
  {
    hide Init, Enabled, Next;
    var ss, acts :| IsRun(ss, acts) && AllClaim(acts, 1) && ss[|acts|] == s;
    var ss', acts' := ss + [Next(s, Start(xs))], acts + [Start(xs)];
    ExtendRun(ss, acts, Start(xs));
    assert AllClaim(acts', 1);
    assert UnderWay(ss', acts', |acts|, s, xs) && ss'[|acts'|] == Next(s, Start(xs));
  }

  // ---------------------------------------------------------------- two elements are published

  /** malloc has memory for one block. */
  function OneCall(): nat -> bool { i => i == 0 }

  /** Blocks of two elements, an index of two entries, no block yet, two consumers. */
  function Fresh(): State {
    State(1, FirstIndex(1), Store(seq(Pow2(1), _ => None), [], [], None, 0, [], map[], map[], {}, map[]), PIdle, [Idle, Idle], OneCall(), 0)
  }

  lemma FreshReached()
    ensures Reached(Fresh(), 1)
  {
    InitReached(Fresh(), 1, 1);
  }

  /** The producer has come to pp, and but for its own doing all is as in state c: two elements published, or none. */
  ghost predicate Producing(s: State, o: Origin, c: State, pp: Producer) {
    && Path(s, o) && s.k == 1 && s.pp == pp && s.cs == c.cs && s.malloc == OneCall() && s.calls == c.calls && CapOf(s.ix) == 2
    && s.st.log == c.st.log && s.st.head == c.st.head && |s.st.log| == s.st.head && (|s.st.log| == 0 || |s.st.log| == 2)
    && |s.st.place| == |c.st.place|
  }

  lemma ProducingOk(s: State, o: Origin, c: State, pp: Producer)
    requires Producing(s, o, c, pp)
    ensures Inv(s)
  {
    hide Path, Reached, Inv, OwnersBusy, CapOf;
    PathReached(s, o);
    ReachedOk(s);
  }

  /** The steps of the producer here. */
  predicate Simple(pp: Producer) {
    (pp.PCheck? && |pp.xs| == 2 && pp.chain == []) || pp.PKey? || pp.PTail? || pp.PReset? || (pp.PValue? && |pp.xs| == 2 && pp.chain == [])
    || (pp.PWrite? && pp.j < |pp.xs|)
  }

  lemma Goes(s: State, o: Origin, c: State, pp: Producer)
    requires Producing(s, o, c, pp) && Simple(pp)
    ensures GoReady(s) && Enabled(s, Go) && Next(s, Go) == GoNext(s) && (GoNext(s).pp.PIdle? || Producing(GoNext(s), o, c, GoNext(s).pp))
  {
    hide Path, GoReady, GoNext, Inv, CapOf;
    ProducingOk(s, o, c, pp);
    Production.GoInv(s);
    if pp.PCheck? { SpaceHere(s); }
    SameState(s);
    if !GoNext(s).pp.PIdle? {
      PathOn(s, Go, o);
      GoKeeps(s);
      GoSame(s);
      GoPool(s);
      Writing.GoContents(s);
    }
  }

  lemma SpaceHere(s: State)
    requires s.k == 1 && s.pp.PCheck? && s.pp.chain == [] && |s.st.log| == s.st.head && (|s.st.log| == 0 || |s.st.log| == 2)
    ensures Space(s)
  {
    assert Pow2(1) == 2;
    CircularLessIsLess(s.st.head, Base(Published(s.k, s.st) + |s.pp.chain|, Pow2(s.k)) + Pow2(s.k));
  }

  /** No block comes or goes, and the index keeps its slots, unless it is replaced. */
  lemma GoPool(s: State)
    requires GoReady(s) && !s.pp.PGrow?
    ensures |GoNext(s).st.place| == |s.st.place| && CapOf(GoNext(s).ix) == CapOf(s.ix)
  {
    GoCap(s);
    hide CapOf, AfterChain, Blocks, And, NewTail, Found, StoreKey, StoreTail, Rewind;
  }

  lemma GoCap(s: State)
    requires GoReady(s) && !s.pp.PGrow?
    ensures CapOf(GoNext(s).ix) == CapOf(s.ix)
  {
    hide AfterChain, Blocks, Found;
  }

  /** Where the producer goes on, if its one block is all that the bulk needs. */
  function After(pp: Producer, e: EntryId): Producer {
    match pp
    case PCheck(xs, chain) => PKey(xs, chain, e)
    case PKey(xs, chain, _) => PTail(xs, chain, e)
    case PTail(xs, chain, _) => PTake(xs, chain, e)
    case PReset(xs, chain, _, b) => PValue(xs, chain, e, b)
    case PValue(xs, chain, _, b) => PWrite(xs, chain + [b], 0)
    case PWrite(xs, chain, j) => PWrite(xs, chain, j + 1)
    case _ => pp
  }

  lemma GoesOn(s: State, o: Origin, c: State, pp: Producer, e: EntryId)
    requires Producing(s, o, c, pp) && Simple(pp)
    requires (pp.PKey? || pp.PTail? || pp.PReset? || pp.PValue? ==> pp.e == e) && (pp.PCheck? ==> s.ix.headers != [] && InsertReady(s.ix, s.st) && Candidate(s.ix) == e)
    ensures GoReady(s) && Producing(GoNext(s), o, c, After(pp, e))
  {
    Goes(s, o, c, pp);
    if pp.PCheck? { ProducingOk(s, o, c, pp); EntryFree(s); }
    Stages(s, e);
    if pp.PValue? { OneBlockEnough(s.st); }
  }

  /** With at most one block before it, and two slots, the producer finds its entry free. */
  lemma EntryFree(s: State)
    requires Inv(s) && s.k == 1 && s.pp.PCheck? && s.pp.chain == [] && |s.st.log| <= 2 && CapOf(s.ix) == 2
    ensures s.ix.headers != [] && InsertReady(s.ix, s.st) && s.st.values[Candidate(s.ix)] == None
  {
    hide Inv, CapOf;
    CheckFits(s);
    assert Pow2(1) == 2;
  }

  lemma Stages(s: State, e: EntryId)
    requires GoReady(s) && Simple(s.pp) && (s.pp.PKey? || s.pp.PTail? || s.pp.PReset? || s.pp.PValue? ==> s.pp.e == e)
    requires s.pp.PCheck? ==> Candidate(s.ix) == e && s.st.values[e] == None
    ensures GoNext(s).pp == if s.pp.PValue? then AfterChain(s.k, s.st, s.pp.xs, s.pp.chain + [s.pp.b]) else After(s.pp, e)
  {
    hide AfterChain;
  }

  lemma OneBlockEnough(st: Store)
    requires |st.log| == 0 || |st.log| == 2
    ensures forall xs: seq<Value>, b: BlockId | |xs| == 2 :: AfterChain(1, st, xs, [] + [b]) == PWrite(xs, [] + [b], 0)
  {
    assert Pow2(1) == 2;
  }

  /** From the test for space to the pool. */
  lemma ToPool(s: State, o: Origin, c: State, xs: seq<Value>) returns (s': State, e: EntryId)
    requires |xs| == 2 && Producing(s, o, c, PCheck(xs, []))
    ensures Producing(s', o, c, PTake(xs, [], e))
  {
    hide GoNext, GoReady, Producing, CapOf;
    CheckHas(s, o, c, xs);
    e := Candidate(s.ix);
    GoesOn(s, o, c, PCheck(xs, []), e);
    s' := GoNext(s);
    GoesOn(s', o, c, PKey(xs, [], e), e);
    s' := GoNext(s');
    GoesOn(s', o, c, PTail(xs, [], e), e);
    s' := GoNext(s');
  }

  lemma CheckHas(s: State, o: Origin, c: State, xs: seq<Value>)
    requires Producing(s, o, c, PCheck(xs, []))
    ensures s.ix.headers != [] && InsertReady(s.ix, s.st)
  {
    hide Path, Inv, CapOf;
    ProducingOk(s, o, c, PCheck(xs, []));
    CheckFits(s);
  }

  /** From the block to the last write. */
  lemma ToWritten(s: State, o: Origin, c: State, xs: seq<Value>, e: EntryId, b: BlockId) returns (s': State)
    requires |xs| == 2 && Producing(s, o, c, PReset(xs, [], e, b))
    ensures Producing(s', o, c, PWrite(xs, [b], 2))
  {
    hide GoNext, GoReady, Producing;
    assert [] + [b] == [b];
    GoesOn(s, o, c, PReset(xs, [], e, b), e);
    s' := GoNext(s);
    GoesOn(s', o, c, PValue(xs, [], e, b), e);
    s' := GoNext(s');
    GoesOn(s', o, c, PWrite(xs, [b], 0), e);
    s' := GoNext(s');
    GoesOn(s', o, c, PWrite(xs, [b], 1), e);
    s' := GoNext(s');
  }

  /** The pool is empty, and malloc has a block. */
  lemma TakesNew(s: State, o: Origin, c: State, xs: seq<Value>, e: EntryId) returns (s': State)
    requires Producing(s, o, c, PTake(xs, [], e)) && c.calls == 0 && c.st.place == []
    ensures exists b :: Producing(s', o, s', PReset(xs, [], e, b))
    ensures s'.st.log == s.st.log && s'.st.head == s.st.head && s'.cs == s.cs && s'.calls == 1 && |s'.st.place| == 1
  {
    hide Path, Reached, Inv, CapOf;
    ProducingOk(s, o, c, PTake(xs, [], e));
    SamePool(s);
    PathOn(s, Go, o);
    var s1 := Next(s, Go);
    PathOn(s1, Take(0), o);
    s' := Next(s1, Take(0));
    assert Producing(s', o, s', PReset(xs, [], e, 0));
  }

  /** Two elements are published, in the only block that there is. */
  lemma PublishesBoth(xs: seq<Value>) returns (s: State)
    requires |xs| == 2
    ensures Reached(s, 1) && s.k == 1 && s.pp.PIdle? && s.st.log == xs && s.st.head == 0 && s.cs == [Idle, Idle]
    ensures s.malloc == OneCall() && s.calls == 1 && |s.st.place| == 1 && CapOf(s.ix) == 2
  {
    hide Reached, GoReady, GoNext, Inv;
    FreshReached();
    Extend(Fresh(), Start(xs), 1);
    var s0 := Next(Fresh(), Start(xs));
    assert Pow2(1) == 2 && Producing(s0, Anywhere, Fresh(), PCheck(xs, []));
    var s1, e := ToPool(s0, Anywhere, Fresh(), xs);
    var s2 := TakesNew(s1, Anywhere, Fresh(), xs, e);
    var b :| Producing(s2, Anywhere, s2, PReset(xs, [], e, b));
    var s3 := ToWritten(s2, Anywhere, s2, xs, e, b);
    s := Published2(s3, Anywhere, s2, xs, b);
    Extend(s3, Go, 1);
  }

  /** The last step of the bulk. */
  lemma Published2(s: State, o: Origin, c: State, xs: seq<Value>, b: BlockId) returns (s': State)
    requires |xs| == 2 && Producing(s, o, c, PWrite(xs, [b], 2))
    ensures Enabled(s, Go) && s' == Next(s, Go) && s'.k == 1 && s'.pp.PIdle? && s'.st.log == c.st.log + xs && s'.st.head == c.st.head && s'.cs == c.cs
    ensures s'.malloc == OneCall() && s'.calls == c.calls && |s'.st.place| == |c.st.place| && CapOf(s'.ix) == 2
  {
    hide Path, Inv, GoNext, GoReady, CapOf;
    ProducingOk(s, o, c, PWrite(xs, [b], 2));
    Production.GoInv(s);
    SameState(s);
    GoKeeps(s);
    GoSame(s);
    GoPool(s);
    Writing.GoContents(s);
    s' := Next(s, Go);
  }

  /** When both are consumed no block is left. */
  lemma NothingLeft(s: State)
    requires Reached(s, 1) && s.k == 1 && s.pp.PIdle? && |s.st.log| == 2 == s.st.head && forall t | 0 <= t < |s.cs| :: s.cs[t].Idle?
    ensures Reached(s, 0) && s.ix.headers != [] && NoBlock(s.st)
  {
    hide Reached, Inv, OwnersBusy, NoBlock;
    ReachedOk(s);
    assert Pow2(1) == 2 && Pos(2, 2) == Pos(0, 2) == 0;
    AllConsumed(s);
    InvBasics(s);
    ReachedLess(s);
  }
}
