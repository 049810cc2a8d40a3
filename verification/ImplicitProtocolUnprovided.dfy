/**
  A bulk of module ImplicitProtocol that nothing provides for, and that is published nevertheless: when it
  begins no block is free and malloc has none, but before it comes to the pool a consumer releases one.
*/
module ImplicitProtocolUnprovided {
  import opened Jobs
  import opened Words
  import opened Allocation
  import opened BlockIndex
  import opened BlockNumbers
  import opened ImplicitProtocol
  import Production = ImplicitProtocolProducer
  import opened ImplicitProtocolRuns
  import opened ImplicitProtocolProvided
  import opened ImplicitProtocolReached

  // ---------------------------------------------------------------- a consumer that empties the block

  /** The two elements of the only block are claimed, malloc has no more, and the producer rests. */
  ghost predicate Serving(s: State, xs: seq<Value>) {
    && Reached(s, 1) && s.k == 1 && s.pp.PIdle? && s.st.log == xs && |xs| == 2 == s.st.head && |s.cs| == 2
    && s.cs[1].Busy? && AllInOne(s.cs[1])
    && s.malloc == OneCall() && s.calls == 1 && |s.st.place| == 1 && CapOf(s.ix) == 2
  }

  /** The consumer is on its only block. */
  predicate AllInOne(c: Consumer) { c.Busy? && (c.at.Clear? || c.at.Release? || (c.first == 0 && c.count == 2 && c.seg == 0)) }

  lemma ServingOk(s: State, xs: seq<Value>)
    requires Serving(s, xs)
    ensures Inv(s) && StepReady(s, 1) && Enabled(s, Step(1)) && Next(s, Step(1)) == StepNext(s, 1)
  {
    hide Reached, Inv, StepReady, StepNext, CapOf, AllInOne;
    ReachedOk(s);
    StepInv(s, 1);
    StepSame(s, 1);
  }

  lemma ServesOn(s: State, xs: seq<Value>)
    requires Serving(s, xs) && !s.cs[1].at.Release?
    ensures StepReady(s, 1) && Serving(StepNext(s, 1), xs) && 0 <= StepsLeft(StepNext(s, 1).cs[1]) < StepsLeft(s.cs[1])
  {
    hide Reached, Inv, StepReady, StepNext, CapOf, StepsLeft;
    ServingOk(s, xs);
    Extend(s, Step(1), 1);
    StepAdvances(s, 1);
    StepMoves(s, 1);
    StepEases(s, 1);
    StepPool(s, 1);
    StaysInOne(s);
  }

  lemma StepPool(s: State, t: Tid)
    requires StepReady(s, t)
    ensures |StepNext(s, t).st.place| == |s.st.place|
  {}

  /** It counts both elements in one go, and then clears the entry. */
  lemma StaysInOne(s: State)
    requires Inv(s) && s.k == 1 && |s.cs| == 2 && AllInOne(s.cs[1]) && !s.cs[1].at.Release? && StepReady(s, 1)
    ensures var cs := StepNext(s, 1).cs; |cs| == 2 && AllInOne(cs[1])
  {
    hide Inv;
    assert Pow2(1) == 2;
    if s.cs[1].at.Count? { NothingCounted(s); }
  }

  lemma NothingCounted(s: State)
    requires Inv(s) && s.k == 1 && |s.cs| == 2 && AllInOne(s.cs[1]) && s.cs[1].at.Count?
    ensures s.cs[1].pos == 2 && s.cs[1].at.b < |s.st.blocks| && s.st.blocks[s.cs[1].at.b].emptied == 0
  {
    hide IndexOk, Bound, Stored, ProducerOk, AllAttended, CountIn;
    var c := s.cs[1];
    assert ConsumerOk(s.k, s.ix, s.st, c, 1);
    assert Pow2(1) == 2 && Blk(0, 2) == 0 == Base(0, 2);
    assert CountedAt(s.st, 2, 0);
    forall i | 0 <= i < 2 ensures i !in s.st.done { assert i in s.st.owner; }
    Production.CountNone(s.st.done, 0, 2);
  }

  lemma {:induction false} ToRelease(s: State, xs: seq<Value>) returns (s': State)
    requires Serving(s, xs)
    ensures Serving(s', xs) && s'.cs[1].at.Release?
    decreases StepsLeft(s.cs[1])
  {
    hide Reached, AllInOne, CapOf, StepReady, StepNext, StepsLeft;
    s' := s;
    if !s.cs[1].at.Release? {
      ServesOn(s, xs);
      s' := ToRelease(StepNext(s, 1), xs);
    }
  }

  // ---------------------------------------------------------------- a bulk that nothing provides for

  /** No block is free: the only one is about to be released. */
  lemma NotProvided(s: State, xs: seq<Value>, ys: seq<Value>)
    requires Serving(s, xs) && s.cs[1].at.Release? && |ys| == 2
    ensures !Provided(s, ys) && Next(s, Start(ys)).pp == PCheck(ys, [])
  {
    hide Reached, Inv, CapOf, Span, Demand, Base;
    ServingOk(s, xs);
    ReleaseHolds(s, 1);
    assert Pow2(1) == 2 && Blocks(2, 2) == 1 && Blocks(4, 2) == 2;
    FreeCountNone(s.st.place);
    DemandFirst(CapOf(s.ix), 0, Span(s.st.blockOf, 1), 1);
    assert !OneCall()(1);
  }

  lemma ReleaseHolds(s: State, t: Tid)
    requires Inv(s) && t < |s.cs| && s.cs[t].Busy? && s.cs[t].at.Release?
    ensures s.cs[t].at.b < |s.st.place| && s.st.place[s.cs[t].at.b] == Returning(t)
  {
    hide IndexOk, Bound, Counted, Claimed, Stored, ProducerOk, AllAttended, Knows, AtEnd;
    assert ConsumerOk(s.k, s.ix, s.st, s.cs[t], t);
  }

  /** The consumer releases the block, and the producer takes it. */
  lemma Released(s: State, o: Origin, c: State, xs: seq<Value>, e: EntryId) returns (s': State)
    requires Producing(s, o, c, PTake(xs, [], e)) && |s.st.place| == 1 && |s.cs| == 2 && s.cs[1].Busy? && s.cs[1].at.Release?
    ensures Producing(s', o, s', PReset(xs, [], e, 0)) && s'.st.log == s.st.log
  {
    hide Path, Reached, Inv, CapOf, StepReady;
    ProducingOk(s, o, c, PTake(xs, [], e));
    StepInv(s, 1);
    ReleaseHolds(s, 1);
    PathOn(s, Step(1), o);
    var s1 := Next(s, Step(1));
    SamePool(s1);
    PathOn(s1, Take(0), o);
    s' := Next(s1, Take(0));
  }

  /** A bulk begun in state i, for which nothing provides, is over in state j, and its elements are published. */
  ghost predicate AcceptedUnprovided(ss: seq<State>, acts: seq<Action>, i: nat, j: nat)
    requires |ss| == |acts| + 1
  {
    && i < j < |ss| && acts[i].Start? && !Provided(ss[i], acts[i].xs) && ss[j].st.log == ss[i].st.log + acts[i].xs
    && ss[j].pp.PIdle? && forall m | i < m < j :: !ss[m].pp.PIdle? && !acts[m].Borrow?
  }

  lemma LastStep(s: State, c: State, xs: seq<Value>)
    requires Since(s, c, xs) && Enabled(s, Go) && Next(s, Go).pp.PIdle? && Next(s, Go).st.log == c.st.log + xs && !Provided(c, xs)
    ensures exists ss, acts, i, j :: IsRun(ss, acts) && AllClaim(acts, 1) && AcceptedUnprovided(ss, acts, i, j)
  {
    hide Init, Enabled, Next, Provided;
    var ss, acts, i: nat :| IsRun(ss, acts) && AllClaim(acts, 1) && i < |acts| && UnderWay(ss, acts, i, c, xs) && ss[|acts|] == s;
    var ss', acts' := ss + [Next(s, Go)], acts + [Go];
    ExtendRun(ss, acts, Go);
    assert AllClaim(acts', 1);
    assert AcceptedUnprovided(ss', acts', i, |acts'|);
  }

  /**
    Being provided for is not necessary: with blocks of two elements and memory for one block, a second bulk of
    two elements is published, although no block is free when it begins.
   */
  lemma UnprovidedAccepted()
    ensures exists ss, acts, i, j :: IsRun(ss, acts) && AllClaim(acts, 1) && AcceptedUnprovided(ss, acts, i, j)
  {
    hide Reached, Since, Enabled, Next, CapOf, Provided, Inv;
    var xs, ys := [Socks(5, 6, 0), Socks(7, 8, 0)], [Socks(9, 10, 0), Socks(11, 12, 0)];
    var s := PublishesBoth(xs);
    var s0 := ClaimsBoth(s, xs);
    var r := ToRelease(s0, xs);
    NotProvided(r, xs, ys);
    var s1 := Begins(r, xs, ys);
    var s2, e := ToPool(s1, Bulk(r, ys), r, ys);
    var s3 := Released(s2, Bulk(r, ys), r, ys, e);
    var s4 := ToWritten(s3, Bulk(r, ys), s3, ys, e, 0);
    var s5 := Published2(s4, Bulk(r, ys), s3, ys, 0);
    LastStep(s4, r, ys);
  }

  lemma ClaimsBoth(s: State, xs: seq<Value>) returns (s': State)
    requires Reached(s, 1) && s.k == 1 && s.pp.PIdle? && s.st.log == xs && |xs| == 2 && s.st.head == 0 && s.cs == [Idle, Idle]
    requires s.malloc == OneCall() && s.calls == 1 && |s.st.place| == 1 && CapOf(s.ix) == 2
    ensures Serving(s', xs)
  {
    hide Reached, CapOf;
    Extend(s, ClaimRange(1, 2), 1);
    s' := Next(s, ClaimRange(1, 2));
  }

  lemma Begins(s: State, xs: seq<Value>, ys: seq<Value>) returns (s': State)
    requires Serving(s, xs) && Next(s, Start(ys)).pp == PCheck(ys, [])
    ensures Producing(s', Bulk(s, ys), s, PCheck(ys, []))
  {
    hide Reached, Since, CapOf;
    SinceBegins(s, ys);
    s' := Next(s, Start(ys));
  }
}
