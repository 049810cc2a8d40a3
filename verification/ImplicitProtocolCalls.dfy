/**
  Whole calls in runs of module ImplicitProtocol: a claim that is over has handed out and counted all its
  elements, and a bulk is over after a bounded number of steps of the producer.
*/
module ImplicitProtocolCalls {
  import opened Options
  import opened Words
  import opened BlockIndex
  import opened BlockNumbers
  import opened ImplicitProtocol
  import opened ImplicitProtocolRuns
  import opened ImplicitProtocolBulks

  // ---------------------------------------------------------------- a claim is served

  /** Of the claim of n elements from `first` on, what lies before `seg` is counted, and before `pos` handed out. */
  ghost predicate ServedTo(st: Store, first: nat, seg: nat, pos: nat) {
    (forall x: nat | first <= x < seg :: x in st.done) && (forall x: nat | first <= x < pos :: x in st.delivered)
  }

  ghost predicate Serving(s: State, t: Tid, first: nat, count: nat) {
    && t < |s.cs|
    && if s.cs[t].Busy? then s.cs[t].first == first && s.cs[t].count == count && ServedTo(s.st, first, s.cs[t].seg, s.cs[t].pos)
       else ServedTo(s.st, first, first + count, first + count)
  }

  /** What is handed out and counted remains so. */
  ghost predicate Growing(st: Store, st': Store) {
    (forall x <- st.done :: x in st'.done) && (forall x <- st.delivered :: x in st'.delivered)
  }

  lemma StoreGrows(s: State, a: Action)
    requires Enabled(s, a)
    ensures Growing(s.st, Next(s, a).st)
  {
    hide StepNext, StepReady, GoNext, GoReady, TakeNext;
    match a {
      case Go => GoKeeps(s);
      case Take(b) => TakeKeeps(s, b);
      case Step(t) => StepGrows(s, t);
      case _ =>
    }
  }

  lemma StepGrows(s: State, t: Tid)
    requires StepReady(s, t)
    ensures Growing(s.st, StepNext(s, t).st)
  {}

  lemma OthersServing(s: State, a: Action, t: Tid, first: nat, count: nat)
    requires Enabled(s, a) && a != Step(t) && Serving(s, t, first, count) && s.cs[t].Busy?
    ensures Serving(Next(s, a), t, first, count)
  {
    hide Enabled, Next;
    StoreGrows(s, a);
    OthersWait(s, a, t);
  }

  /** A consumer's own step. */
  lemma OwnServing(s: State, t: Tid, first: nat, count: nat)
    requires Enabled(s, Step(t)) && Serving(s, t, first, count) && s.cs[t].Busy? && ConsumerOk(s.k, s.ix, s.st, s.cs[t], t)
    ensures Serving(Next(s, Step(t)), t, first, count)
  {
    hide Knows, HasBlock, Pow2, Blk, Header.SlotOf, Img;
    match s.cs[t].at {
      case Read(_, _, _) =>
      case Count(_, _, _) =>
      case Clear(_, _, _, _) =>
      case Release(_, _, _) =>
      case _ =>
    }
  }

  lemma ClaimBegins(s: State, t: Tid, count: nat)
    requires Enabled(s, ClaimRange(t, count))
    ensures Serving(Next(s, ClaimRange(t, count)), t, s.st.head, count) && Next(s, ClaimRange(t, count)).cs[t].Busy?
  {}

  lemma {:induction false} ServingRun(ss: seq<State>, acts: seq<Action>, i: nat, j: nat, t: Tid, count: nat)
    requires IsRun(ss, acts) && AllClaim(acts, 1) && i < j < |ss| && acts[i] == ClaimRange(t, count)
    requires forall m | i < m < j :: t < |ss[m].cs| && ss[m].cs[t].Busy?
    ensures Serving(ss[j], t, ss[i].st.head, count)
  {
    hide Inv, Init, Enabled, Next, AllClaim, Serving, ConsumerOk;
    if j == i + 1 {
      ClaimBegins(ss[i], t, count);
    } else {
      ServingRun(ss, acts, i, j - 1, t, count);
      if acts[j - 1] == Step(t) {
        RunInvariant(ss, acts, j - 1);
        OneConsumer(ss[j - 1], t);
        OwnServing(ss[j - 1], t, ss[i].st.head, count);
      } else {
        OthersServing(ss[j - 1], acts[j - 1], t, ss[i].st.head, count);
      }
    }
  }

  /**
    A claim made in step i is over in state j: each of its elements has been handed out in between, as it was
    enqueued, and is counted as consumed.
   */
  lemma ClaimServed(ss: seq<State>, acts: seq<Action>, i: nat, j: nat, t: Tid, count: nat)
    requires IsRun(ss, acts) && AllClaim(acts, 1) && i < j < |ss| && acts[i] == ClaimRange(t, count)
    requires t < |ss[j].cs| && ss[j].cs[t].Idle? && forall m | i < m < j :: t < |ss[m].cs| && ss[m].cs[t].Busy?
    ensures forall x: nat | ss[i].st.head <= x < ss[i].st.head + count ::
              && x !in ss[i].st.delivered && x in ss[j].st.delivered && x < |ss[j].st.log| && ss[j].st.delivered[x] == ss[j].st.log[x]
              && x in ss[j].st.done
  {
    hide IsRun, AllClaim, FirstInFirstOut, Serving;
    ServingRun(ss, acts, i, j, t, count);
    AlwaysFifo(ss, acts);
    assert FirstInFirstOut(ss[i]) && FirstInFirstOut(ss[j]);
    AllServed(ss[i], ss[j], t, count);
  }

  lemma AllServed(s: State, s': State, t: Tid, count: nat)
    requires FirstInFirstOut(s) && FirstInFirstOut(s') && Serving(s', t, s.st.head, count) && s'.cs[t].Idle?
    ensures forall x: nat | s.st.head <= x < s.st.head + count ::
              && x !in s.st.delivered && x in s'.st.delivered && x < |s'.st.log| && s'.st.delivered[x] == s'.st.log[x]
              && x in s'.st.done
  {
    hide Served;
    forall x: nat | s.st.head <= x < s.st.head + count
      ensures && x !in s.st.delivered && x in s'.st.delivered && x < |s'.st.log| && s'.st.delivered[x] == s'.st.log[x] && x in s'.st.done
    {
      assert ServedTo(s'.st, s.st.head, s.st.head + count, s.st.head + count);
      assert x in s'.st.delivered;
      assert x < s'.st.head;
    }
  }

  // ---------------------------------------------------------------- a bulk ends

  /** How many new blocks the bulk xs needs. */
  function NewBlocks(k: nat, len: nat, n: nat): int { Blocks(len + n, Pow2(k)) - Blocks(len, Pow2(k)) }

  /** How many steps the producer still takes at most: eight for each block that is missing, then the elements, or three for each block that goes back. */
  function BulkLeft(k: nat, len: nat, pp: Producer): int {
    match pp
    case PIdle => 0
    case PCheck(xs, chain) => Forward(k, len, |xs|, |chain|)
    case PGrow(xs, chain) => Forward(k, len, |xs|, |chain|) - 1
    case PKey(xs, chain, _) => Forward(k, len, |xs|, |chain|) - 2
    case PTail(xs, chain, _) => Forward(k, len, |xs|, |chain|) - 3
    case PTake(xs, chain, _) => Forward(k, len, |xs|, |chain|) - 4
    case PNew(xs, chain, _) => Forward(k, len, |xs|, |chain|) - 5
    case PReset(xs, chain, _, _) => Forward(k, len, |xs|, |chain|) - 6
    case PValue(xs, chain, _, _) => Forward(k, len, |xs|, |chain|) - 7
    case PWrite(xs, _, j) => |xs| - j + 1
    case PUndoTail(chain, _) => 3 * |chain| + 2
    case PUndoValue(chain, _) => 3 * |chain| + 1
    case PRollValue(chain, j) => 3 * |chain| - 2 * j
    case PRollTail(chain, j) => 3 * |chain| - 2 * j - 1
    case PRollFree(chain, j) => |chain| - j
  }

  function Forward(k: nat, len: nat, n: nat, chain: nat): int { 8 * (NewBlocks(k, len, n) - chain) + 3 * NewBlocks(k, len, n) + n + 4 }

  predicate OfProducer(a: Action) { a.Go? || a.Fail? || a.Take? }

  /** What the steps of a bulk need to be counted. */
  predicate Counts(k: nat, len: nat, pp: Producer) {
    match pp
    case PIdle => true
    case PWrite(xs, _, j) => j <= |xs|
    case PUndoTail(_, _) => true
    case PUndoValue(_, _) => true
    case PRollValue(chain, j) => j < |chain|
    case PRollTail(chain, j) => j < |chain|
    case PRollFree(chain, j) => j < |chain|
    case _ => |pp.chain| < NewBlocks(k, len, |pp.xs|)
  }

  lemma InvCounts(s: State)
    requires Inv(s)
    ensures Counts(s.k, |s.st.log|, s.pp)
  {
    hide IndexOk, Bound, Counted, Stored, Claimed, Consumers, AllAttended, Blocks, Pow2, Chained, OnlyChain, HasEntry, InHand, Rolling;
  }

  lemma CountsLeft(k: nat, len: nat, pp: Producer)
    requires Counts(k, len, pp)
    ensures BulkLeft(k, len, pp) >= 0 && (BulkLeft(k, len, pp) == 0 <==> pp.PIdle?)
  {
    hide NewBlocks;
  }

  lemma GoLeft(s: State)
    requires GoReady(s) && Counts(s.k, |s.st.log|, s.pp)
    ensures BulkLeft(s.k, |GoNext(s).st.log|, GoNext(s).pp) < BulkLeft(s.k, |s.st.log|, s.pp) && GoNext(s).k == s.k
  {
    hide Counts, GoNext, BulkLeft, InsertReady, NoneFree, Target, CanFind, Pow2;
    match s.pp {
      case PWrite(_, _, _) => GoWrites(s);
      case PValue(_, _, _, _) => GoStores(s);
      case PUndoTail(_, _) => GoUndoes(s);
      case PUndoValue(_, _) => GoUndoes(s);
      case PRollValue(_, _) => GoUndoes(s);
      case PRollTail(_, _) => GoUndoes(s);
      case PRollFree(_, _) => GoUndoes(s);
      case _ => GoInserts(s);
    }
  }

  lemma GoWrites(s: State)
    requires s.pp.PWrite? && GoReady(s) && Counts(s.k, |s.st.log|, s.pp)
    ensures BulkLeft(s.k, |GoNext(s).st.log|, GoNext(s).pp) < BulkLeft(s.k, |s.st.log|, s.pp) && GoNext(s).k == s.k
  {
    hide NewBlocks, Target, SetCell, Blk, Pos, Pow2;
  }

  lemma GoStores(s: State)
    requires s.pp.PValue? && GoReady(s) && Counts(s.k, |s.st.log|, s.pp)
    ensures BulkLeft(s.k, |GoNext(s).st.log|, GoNext(s).pp) < BulkLeft(s.k, |s.st.log|, s.pp) && GoNext(s).k == s.k
  {
    hide Pow2, Blocks;
  }

  lemma GoUndoes(s: State)
    requires (s.pp.PUndoTail? || s.pp.PUndoValue? || s.pp.PRollValue? || s.pp.PRollTail? || s.pp.PRollFree?) && GoReady(s) && Counts(s.k, |s.st.log|, s.pp)
    ensures BulkLeft(s.k, |GoNext(s).st.log|, GoNext(s).pp) < BulkLeft(s.k, |s.st.log|, s.pp) && GoNext(s).k == s.k
  {
    hide NewBlocks, Rewind, Found, CanFind, Pow2, Base, Published;
  }

  lemma GoInserts(s: State)
    requires (s.pp.PCheck? || s.pp.PGrow? || s.pp.PKey? || s.pp.PTail? || s.pp.PTake? || s.pp.PReset?) && GoReady(s) && Counts(s.k, |s.st.log|, s.pp)
    ensures BulkLeft(s.k, |GoNext(s).st.log|, GoNext(s).pp) < BulkLeft(s.k, |s.st.log|, s.pp) && GoNext(s).k == s.k
  {
    hide NewBlocks, Grow, StoreKey, StoreTail, Candidate, NewTail, NextBlock, NoneFree;
  }

  lemma FailLeft(s: State)
    requires (s.pp.PCheck? || s.pp.PGrow? || s.pp.PNew?) && Counts(s.k, |s.st.log|, s.pp)
    ensures BulkLeft(s.k, |FailNext(s).st.log|, FailNext(s).pp) < BulkLeft(s.k, |s.st.log|, s.pp) && FailNext(s).k == s.k
  {
    hide NewBlocks;
  }

  lemma OwnLeft(s: State, a: Action)
    requires Inv(s) && Enabled(s, a) && OfProducer(a)
    ensures var s' := Next(s, a); s'.k == s.k && BulkLeft(s.k, |s'.st.log|, s'.pp) < BulkLeft(s.k, |s.st.log|, s.pp)
  {
    hide Inv, GoReady, GoNext, FailNext, BulkLeft, NoneFree, Space;
    InvCounts(s);
    match a {
      case Go => GoLeft(s);
      case Fail => FailLeft(s);
      case Take(b) => TakeLeft(s, b);
    }
  }

  lemma TakeLeft(s: State, b: BlockId)
    requires (s.pp.PTake? || s.pp.PNew?) && b <= |s.st.blocks| == |s.st.place|
    ensures var s' := TakeNext(s, b); s'.k == s.k && BulkLeft(s.k, |s'.st.log|, s'.pp) < BulkLeft(s.k, |s.st.log|, s.pp)
  {
    hide NewBlocks, Pow2;
  }

  /** Nobody else has a part in a bulk that has begun. */
  lemma OthersLeave(s: State, a: Action)
    requires Enabled(s, a) && !OfProducer(a) && !s.pp.PIdle?
    ensures Next(s, a).k == s.k && Next(s, a).pp == s.pp && Next(s, a).st.log == s.st.log
  {
    hide StepNext, StepReady;
    if a.Step? { StepBulk(s, a.t); }
  }

  lemma StepBulk(s: State, t: Tid)
    requires StepReady(s, t)
    ensures StepNext(s, t).k == s.k && StepNext(s, t).pp == s.pp && StepNext(s, t).st.log == s.st.log
  {}

  lemma StartLeft(s: State, a: Action)
    requires Enabled(s, a) && a.Start?
    ensures var s' := Next(s, a);
            s'.k == s.k && BulkLeft(s.k, |s'.st.log|, s'.pp) <= 11 * NewBlocks(s.k, |s.st.log|, |a.xs|) + |a.xs| + 4
  {
    hide Pow2;
    BlocksGrow(|s.st.log|, |a.xs|, Pow2(s.k));
  }

  lemma BlocksGrow(len: nat, n: nat, b: nat)
    requires b > 0
    ensures Blocks(len, b) <= Blocks(len + n, b)
  {
    BlocksMonotone(len, len + n, b);
  }

  /** The steps of the producer between i and j. */
  function ProducerSteps(acts: seq<Action>, i: nat, j: nat): nat
    requires i <= j <= |acts|
  {
    if i == j then 0 else ProducerSteps(acts, i, j - 1) + if OfProducer(acts[j - 1]) then 1 else 0
  }

  /**
    A bulk of n elements that needs w new blocks is over after at most 11 w + n + 4 steps of the producer,
    whatever consumers and other producers do: enqueueing is wait-free but for the pool.
   */
  lemma {:induction false} BulkWaitFree(ss: seq<State>, acts: seq<Action>, i: nat, j: nat)
    requires IsRun(ss, acts) && AllClaim(acts, 1) && i < j < |ss| && acts[i].Start? && forall m | i < m < j :: !ss[m].pp.PIdle?
    ensures ss[j].k == ss[i].k
    ensures var w, n := NewBlocks(ss[i].k, |ss[i].st.log|, |acts[i].xs|), |acts[i].xs|;
            && ProducerSteps(acts, i + 1, j) + BulkLeft(ss[j].k, |ss[j].st.log|, ss[j].pp) <= 11 * w + n + 4
            && ProducerSteps(acts, i + 1, j) <= 11 * w + n + 4
            && (ProducerSteps(acts, i + 1, j) == 11 * w + n + 4 ==> ss[j].pp.PIdle?)
  {
    hide Inv, Init, Enabled, Next, AllClaim, BulkLeft, NewBlocks, OfProducer, Counts;
    RunInvariant(ss, acts, j);
    InvCounts(ss[j]);
    CountsLeft(ss[j].k, |ss[j].st.log|, ss[j].pp);
    if j == i + 1 {
      StartLeft(ss[i], acts[i]);
    } else {
      BulkWaitFree(ss, acts, i, j - 1);
      RunInvariant(ss, acts, j - 1);
      if OfProducer(acts[j - 1]) { OwnLeft(ss[j - 1], acts[j - 1]); } else { OthersLeave(ss[j - 1], acts[j - 1]); }
    }
  }
}
