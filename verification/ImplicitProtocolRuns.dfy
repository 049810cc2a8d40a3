/**
  What every run of module ImplicitProtocol keeps as long as claims are of at least one element:
  nobody is ever stuck on a missing entry or block, every element reaches exactly the consumer that
  claimed its index, and a consumer is done after so many steps of its own.
*/
module ImplicitProtocolRuns {
  import opened Options
  import opened Words
  import opened BlockIndex
  import opened BlockNumbers
  import opened ImplicitProtocol
  import opened ImplicitProtocolProducer

  // ---------------------------------------------------------------- every step keeps the invariant

  /** Every load, store and fetch_add of a busy consumer finds what it dereferences. */
  lemma StepInv(s: State, t: Tid)
    requires Inv(s) && t < |s.cs| && s.cs[t].Busy?
    ensures StepReady(s, t) && Inv(StepNext(s, t))
  {
    hide Inv, StepReady, StepNext;
    match s.cs[t].at {
      case Read(_, _, _) => if s.cs[t].pos < EndOf(s.cs[t], Pow2(s.k)) { ReadElementInv(s, t); } else { ReadDoneInv(s, t); }
      case Count(_, _, _) => CountStepInv(s, t);
      case Clear(_, _, _, _) => ClearStepInv(s, t);
      case Release(_, _, _) => ReleaseStepInv(s, t);
      case _ => LoadInv(s, t);
    }
  }

  /** The caller of dequeue_bulk asks for at least `min` elements, and so does not claim fewer. */
  predicate Claims(a: Action, min: nat) { a.ClaimRange? ==> min <= a.count }

  lemma NextInv(s: State, a: Action)
    requires Inv(s) && Enabled(s, a) && Claims(a, 1)
    ensures Inv(Next(s, a))
  {
    hide Inv, Moved;
    MovedInv(s, a);
    CallsInv(Moved(s, a), if AsksMalloc(s, a) then s.calls + 1 else s.calls);
  }

  /** The invariant has nothing to do with malloc. */
  lemma CallsInv(s: State, calls: nat)
    requires Inv(s)
    ensures Inv(s.(calls := calls))
  {
    hide IndexOk, Bound, Counted, Stored, Claimed, ShapeOk, ContentOk, Consumers, AllAttended;
  }

  lemma MovedInv(s: State, a: Action)
    requires Inv(s) && Enabled(s, a) && Claims(a, 1)
    ensures Inv(Moved(s, a))
  {
    hide Inv, GoReady, StepReady, GoNext, StepNext, TakeNext, FailNext, ClaimNext;
    match a {
      case Start(xs) => ImplicitProtocolProducer.StartInv(s, xs);
      case Go => ProducerGoes(s); GoInv(s);
      case Fail => FailInv(s);
      case Take(b) => TakeInv(s, b);
      case ClaimRange(t, count) => ClaimInv(s, t, count);
      case Step(t) => BusySteps(s, t); StepInv(s, t);
      case Borrow(b) => PoolInv(s, b, Elsewhere);
      case Restore(b) => PoolInv(s, b, Free);
    }
  }

  lemma ProducerGoes(s: State)
    requires GoReady(s)
    ensures !s.pp.PIdle?
  {}

  lemma BusySteps(s: State, t: Tid)
    requires StepReady(s, t)
    ensures t < |s.cs| && s.cs[t].Busy?
  {}

  /** A producer that has begun can go on, take a block, or give up because the queue is full or malloc fails. */
  lemma ProducerNotStuck(s: State)
    requires Inv(s) && !s.pp.PIdle?
    ensures Enabled(s, Go) || Enabled(s, Fail) || exists b :: Enabled(s, Take(b))
  {
    hide Inv, GoReady, NoneFree;
    SamePool(s);
    if s.pp.PTake? {
      FreeOrNot(s);
      if x :| 0 <= x < |s.st.place| && s.st.place[x].Free? { assert Enabled(s, Take(x)); }
    } else if s.pp.PNew? {
      assert Enabled(s, Fail) || Enabled(s, Take(|s.st.blocks|));
    } else {
      GoInv(s);
      if s.pp.PGrow? { GrowsSome(s); }
    }
  }

  lemma GrowsSome(s: State)
    requires Inv(s)
    ensures s.ix.headers != []
  {}

  lemma FreeOrNot(s: State)
    requires s.pp.PTake?
    ensures Enabled(s, Go) || exists x :: 0 <= x < |s.st.place| && s.st.place[x].Free?
  {}

  lemma SamePool(s: State)
    requires Inv(s)
    ensures |s.st.blocks| == |s.st.place|
  {}

  /** A consumer that has claimed elements can always go on. */
  lemma ConsumerNotStuck(s: State, t: Tid)
    requires Inv(s) && t < |s.cs| && s.cs[t].Busy?
    ensures Enabled(s, Step(t))
  {
    hide Inv, StepReady;
    StepInv(s, t);
  }

  /** A bound on the steps that a consumer still takes, whatever the others do. */
  function StepsLeft(c: Consumer): int {
    if c.Idle? then 0
    else 6 * (c.first + c.count - c.seg) + (c.first + c.count - c.pos) +
         match c.at
         case LoadIndex => 6
         case LoadTail(_) => 5
         case LoadKey(_, _, _) => 4
         case LoadValue(_, _) => 3
         case Read(_, _, _) => 2
         case Count(_, _, _) => 1
         case Clear(_, _, _, _) => 5
         case Release(_, _, _) => 4
  }

  /** Each step of a consumer brings it nearer to its end, and only its own steps change it. */
  lemma StepAdvances(s: State, t: Tid)
    requires Inv(s) && t < |s.cs| && s.cs[t].Busy?
    ensures StepReady(s, t)
    ensures |StepNext(s, t).cs| == |s.cs| && 0 <= StepsLeft(StepNext(s, t).cs[t]) < StepsLeft(s.cs[t]) <= 7 * s.cs[t].count + 6
  {
    hide StepReady, StepNext, Inv, ConsumerOk;
    StepInv(s, t);
    OneConsumer(s, t);
    StepLeft(s, t);
    OneConsumer(StepNext(s, t), t);
  }

  lemma OneConsumer(s: State, t: Tid)
    requires Inv(s) && t < |s.cs|
    ensures ConsumerOk(s.k, s.ix, s.st, s.cs[t], t) && 0 <= StepsLeft(s.cs[t]) && (s.cs[t].Busy? ==> StepsLeft(s.cs[t]) <= 7 * s.cs[t].count + 6)
  {
    hide IndexOk, Bound, Counted, Stored, Claimed, ProducerOk, AllAttended;
    assert ConsumerOk(s.k, s.ix, s.st, s.cs[t], t);
    RangeLeft(s.k, s.ix, s.st, s.cs[t], t);
  }

  lemma RangeLeft(k: nat, ix: Index, st: Store, c: Consumer, t: Tid)
    requires ConsumerOk(k, ix, st, c, t)
    ensures 0 <= StepsLeft(c) && (c.Busy? ==> StepsLeft(c) <= 7 * c.count + 6)
  {}

  lemma StepLeft(s: State, t: Tid)
    requires t < |s.cs| && s.cs[t].Busy? && StepReady(s, t) && ConsumerOk(s.k, s.ix, s.st, s.cs[t], t)
    ensures |StepNext(s, t).cs| == |s.cs| && StepsLeft(StepNext(s, t).cs[t]) < StepsLeft(s.cs[t])
  {
    hide Knows, HasBlock, RangeOk, Pow2;
    match s.cs[t].at {
      case Count(_, _, _) => EndIsIn(s.cs[t], Pow2(s.k)); CountLeft(s, t);
      case _ =>
    }
  }

  lemma CountLeft(s: State, t: Tid)
    requires t < |s.cs| && s.cs[t].Busy? && StepReady(s, t) && s.cs[t].at.Count?
    requires s.cs[t].seg < s.cs[t].pos <= s.cs[t].first + s.cs[t].count
    ensures |StepNext(s, t).cs| == |s.cs| && StepsLeft(StepNext(s, t).cs[t]) < StepsLeft(s.cs[t])
  {}


  // ---------------------------------------------------------------- runs

  /** A queue without elements: an index of 2^c free entries, a pool of blocks of 2^k cells. */
  ghost predicate Init(s: State, c: nat) {
    && s.k + c <= 64
    && s.ix == FirstIndex(c)
    && s.st.values == seq(Pow2(c), _ => None)
    && |s.st.place| == |s.st.blocks|
    && (forall x | 0 <= x < |s.st.blocks| :: |s.st.blocks[x].cells| == Pow2(s.k) && (s.st.place[x].Free? || s.st.place[x].Elsewhere?))
    && s.st.tailBlock == None && s.st.head == 0 && s.st.log == []
    && s.st.blockOf == map[] && s.st.owner == map[] && s.st.done == {} && s.st.delivered == map[]
    && s.pp.PIdle?
    && (forall t | 0 <= t < |s.cs| :: s.cs[t].Idle?)
  }

  lemma InitInv(s: State, c: nat)
    requires Init(s, c)
    ensures Inv(s)
  {
    FirstIndexOk(c);
    BlkPos(0, Pow2(s.k));
    hide IndexOk;
    assert Bound(s.ix, s.st) && Counted(s.st, Pow2(s.k)) && Stored(s.st, Pow2(s.k), 0);
  }

  ghost predicate IsRun(ss: seq<State>, acts: seq<Action>) {
    && |ss| == |acts| + 1 && (exists c: nat :: Init(ss[0], c))
    && forall i | 0 <= i < |acts| :: Enabled(ss[i], acts[i]) && ss[i + 1] == Next(ss[i], acts[i])
  }

  predicate AllClaim(acts: seq<Action>, min: nat) { forall i | 0 <= i < |acts| :: Claims(acts[i], min) }

  lemma {:induction false} RunInvariant(ss: seq<State>, acts: seq<Action>, i: nat)
    requires IsRun(ss, acts) && AllClaim(acts, 1) && i < |ss|
    ensures Inv(ss[i])
  {
    hide Inv, Enabled, Next;
    if i == 0 {
      var c: nat :| Init(ss[0], c);
      InitInv(ss[0], c);
    } else {
      RunInvariant(ss, acts, i - 1);
      NextInv(ss[i - 1], acts[i - 1]);
    }
  }

  // ---------------------------------------------------------------- each element once, to its consumer

  /** What is handed out is what was enqueued at that index, and its claim is below the tail. */
  ghost predicate FirstInFirstOut(s: State) {
    && s.st.head <= |s.st.log|
    && (forall i <- s.st.delivered :: i < s.st.head && s.st.delivered[i] == s.st.log[i])
    && (forall t | 0 <= t < |s.cs| && s.cs[t].Busy? :: Served(s.st, s.cs[t]))
  }

  /** A consumer has read exactly the elements of its claim before its position. */
  ghost predicate Served(st: Store, c: Consumer)
    requires c.Busy?
  {
    forall i: nat | c.seg <= i < c.first + c.count :: i in st.delivered <==> i < c.pos
  }

  lemma InvFifo(s: State)
    requires Inv(s)
    ensures FirstInFirstOut(s)
  {
    forall t | 0 <= t < |s.cs| && s.cs[t].Busy? ensures Served(s.st, s.cs[t]) { assert ConsumerOk(s.k, s.ix, s.st, s.cs[t], t); }
  }

  lemma AlwaysFifo(ss: seq<State>, acts: seq<Action>)
    requires IsRun(ss, acts) && AllClaim(acts, 1)
    ensures forall i | 0 <= i < |ss| :: FirstInFirstOut(ss[i])
  {
    hide IsRun, AllClaim, Inv, FirstInFirstOut;
    forall i | 0 <= i < |ss| ensures FirstInFirstOut(ss[i]) {
      RunInvariant(ss, acts, i);
      InvFifo(ss[i]);
    }
  }

  /** The consumer whose step reads an element, if the step does. */
  predicate Reads(s: State, a: Action) {
    a.Step? && a.t < |s.cs| && s.cs[a.t].Busy? && s.cs[a.t].at.Read? && s.cs[a.t].pos < EndOf(s.cs[a.t], Pow2(s.k))
  }

  /** An element is handed out by one step of the consumer that owns its index, and never again. */
  lemma HandedOutOnce(s: State, a: Action)
    requires Inv(s) && Enabled(s, a)
    ensures !Reads(s, a) ==> Next(s, a).st.delivered == s.st.delivered
    ensures Reads(s, a) ==>
              var i := s.cs[a.t].pos;
              && i !in s.st.delivered && i < |s.st.log| && i in s.st.owner && s.st.owner[i] == a.t
              && Next(s, a).st.delivered == s.st.delivered[i := s.st.log[i]]
  {
    hide Inv, StepNext, StepReady, GoNext, GoReady, TakeNext;
    match a {
      case Go => GoKeeps(s);
      case Step(t) =>
        if Reads(s, a) {
          ReadReady(s, t);
          ReadElementInv(s, t);
        } else {
          StepKeeps(s, t);
        }
      case Take(b) => TakeKeeps(s, b);
      case _ =>
    }
  }

  lemma StepKeeps(s: State, t: Tid)
    requires StepReady(s, t) && !Reads(s, Step(t))
    ensures StepNext(s, t).st.delivered == s.st.delivered
  {}

  lemma TakeKeeps(s: State, b: BlockId)
    requires Enabled(s, Take(b))
    ensures var s' := Next(s, Take(b));
            s'.cs == s.cs && s'.st.owner == s.st.owner && s'.st.done == s.st.done && s'.st.delivered == s.st.delivered && s'.st.head == s.st.head && s'.k == s.k
  {}

  /** The producer leaves the consumers' side alone. */
  lemma GoKeeps(s: State)
    requires GoReady(s)
    ensures var s' := GoNext(s);
            s'.cs == s.cs && s'.st.owner == s.st.owner && s'.st.done == s.st.done && s'.st.delivered == s.st.delivered && s'.st.head == s.st.head && s'.k == s.k
  {}

  // ---------------------------------------------------------------- a claim is served in a bounded number of steps

  /** How many of the actions from i on are steps of consumer t. */
  function StepsOf(acts: seq<Action>, t: Tid, i: nat, j: nat): nat
    requires i <= j <= |acts|
  {
    if i == j then 0 else StepsOf(acts, t, i, j - 1) + if acts[j - 1] == Step(t) then 1 else 0
  }

  lemma OthersWait(s: State, a: Action, t: Tid)
    requires Enabled(s, a) && t < |s.cs| && s.cs[t].Busy? && a != Step(t)
    ensures |Next(s, a).cs| == |s.cs| && Next(s, a).cs[t] == s.cs[t]
  {
    hide StepNext, StepReady, GoNext, GoReady, TakeNext;
    match a {
      case Go => GoKeeps(s);
      case Take(b) => TakeKeeps(s, b);
      case Step(u) => BusySteps(s, u); StepOthers(s, u);
      case _ =>
    }
  }

  lemma StepOthers(s: State, t: Tid)
    requires t < |s.cs| && StepReady(s, t)
    ensures var s' := StepNext(s, t); |s'.cs| == |s.cs| && forall u | 0 <= u < |s.cs| && u != t :: s'.cs[u] == s.cs[u]
  {}

  /** A consumer is done after at most 7 * count + 6 steps of its own, however the others run in between. */
  lemma {:induction false} WaitFree(ss: seq<State>, acts: seq<Action>, t: Tid, i: nat, j: nat)
    requires IsRun(ss, acts) && AllClaim(acts, 1) && i <= j < |ss|
    requires t < |ss[i].cs| && forall m | i <= m < j :: t < |ss[m].cs| && ss[m].cs[t].Busy?
    ensures t < |ss[j].cs| && StepsOf(acts, t, i, j) + StepsLeft(ss[j].cs[t]) <= StepsLeft(ss[i].cs[t])
    ensures 0 <= StepsLeft(ss[j].cs[t]) && (ss[i].cs[t].Busy? ==> StepsOf(acts, t, i, j) <= 7 * ss[i].cs[t].count + 6)
  {
    hide Inv, Enabled, Next, StepsLeft, AllClaim;
    RunInvariant(ss, acts, i);
    OneConsumer(ss[i], t);
    if i < j {
      WaitFree(ss, acts, t, i, j - 1);
      RunInvariant(ss, acts, j - 1);
      if acts[j - 1] == Step(t) { OneStep(ss[j - 1], t); } else { OthersWait(ss[j - 1], acts[j - 1], t); }
    }
  }

  lemma OneStep(s: State, t: Tid)
    requires Inv(s) && t < |s.cs| && s.cs[t].Busy? && Enabled(s, Step(t))
    ensures |Next(s, Step(t)).cs| == |s.cs| && 0 <= StepsLeft(Next(s, Step(t)).cs[t]) < StepsLeft(s.cs[t])
  {
    hide Inv, StepNext, StepReady, StepsLeft;
    StepAdvances(s, t);
  }
}
