/**
  Blocks in runs of module ImplicitProtocol: where every block is and who will see to it, that a
  block leaves the index once, when all its elements are consumed, and that none is ever lost.
*/
module ImplicitProtocolBlocks {
  import opened Options
  import opened Words
  import opened BlockIndex
  import opened BlockNumbers
  import opened ImplicitProtocol
  import opened ImplicitProtocolRuns

  // ---------------------------------------------------------------- where every block is

  /** Block x is at its place, and the thread that has to move it on is about to. */
  ghost predicate Housed(s: State, x: BlockId)
    requires x < |s.st.place|
  {
    match s.st.place[x]
    case Free => true
    case Elsewhere => true
    case Mine => InProducer(s.pp, x)
    case Live(n) => n in s.st.blockOf && s.st.blockOf[n] == x && exists i: nat :: Blk(i, Pow2(s.k)) == n && i !in s.st.done
    case Draining(n, t) =>
      && n in s.st.blockOf && s.st.blockOf[n] == x && (forall i: nat | Blk(i, Pow2(s.k)) == n :: i in s.st.done)
      && t < |s.cs| && s.cs[t].Busy? && s.cs[t].at.Clear? && s.cs[t].at.b == x && s.cs[t].at.n == n
    case Returning(t) => t < |s.cs| && s.cs[t].Busy? && s.cs[t].at.Release? && s.cs[t].at.b == x
  }

  /** The index has a block for every published element that is not consumed, and the entry of each of its blocks leads there. */
  ghost predicate Indexed(s: State) {
    && (forall i: nat | i < |s.st.log| && i !in s.st.done :: Blk(i, Pow2(s.k)) in s.st.blockOf)
    && (forall n <- s.st.blockOf ::
          && s.st.blockOf[n] < |s.st.place| && (s.st.place[s.st.blockOf[n]].Live? || s.st.place[s.st.blockOf[n]].Draining?)
          && s.st.place[s.st.blockOf[n]].n == n
          && n in s.ix.entryOf && s.ix.entryOf[n] < |s.st.values| && s.st.values[s.ix.entryOf[n]] == Some(s.st.blockOf[n]))
    && (forall e | 0 <= e < |s.st.values| && s.st.values[e].Some? :: exists n :: n in s.st.blockOf && n in s.ix.entryOf && s.ix.entryOf[n] == e)
  }

  lemma InvIndexed(s: State)
    requires Inv(s)
    ensures Indexed(s)
  {
    hide IndexOk, Counted, ProducerOk, Consumers, AllAttended;
    forall i: nat | i < |s.st.log| && i !in s.st.done ensures Blk(i, Pow2(s.k)) in s.st.blockOf { BlocksCover(i, |s.st.log|, Pow2(s.k)); }
    forall n | n in s.st.blockOf ensures BoundAt(s.ix, s.st, n) {}
    forall e | 0 <= e < |s.st.values| && s.st.values[e].Some? ensures exists n :: n in s.st.blockOf && n in s.ix.entryOf && s.ix.entryOf[n] == e {
      assert BoundAt(s.ix, s.st, s.ix.keys[e].value);
    }
  }

  /** A block is full of counted elements exactly if it is being drained. */
  lemma FullOrNot(s: State, n: nat)
    requires Counted(s.st, Pow2(s.k)) && n in s.st.blockOf
    ensures s.st.blockOf[n] < |s.st.place|
    ensures s.st.place[s.st.blockOf[n]].Draining? <==> forall i: nat | Blk(i, Pow2(s.k)) == n :: i in s.st.done
    ensures !s.st.place[s.st.blockOf[n]].Draining? ==> exists i: nat :: Blk(i, Pow2(s.k)) == n && i !in s.st.done
  {
    var b := Pow2(s.k);
    assert CountedAt(s.st, b, n);
    CountFull(s.st.done, Base(n, b), b);
    if s.st.place[s.st.blockOf[n]].Draining? {
      forall i: nat | Blk(i, b) == n ensures i in s.st.done { InBlock(i, n, b); }
    } else {
      var i: nat :| Base(n, b) <= i < Base(n, b) + b && i !in s.st.done;
      InBlock(i, n, b);
    }
  }
  lemma InvHoused(s: State, x: BlockId)
    requires Inv(s) && x < |s.st.place|
    ensures Housed(s, x)
  {
    hide IndexOk, Bound, Counted, Claimed, Stored, ProducerOk, Consumers, AllAttended, InProducer;
    InBound(s.ix, s.st, x);
    InHands(s.st.place, s.pp, s.cs, x);
    match s.st.place[x] {
      case Live(n) => FullOrNot(s, n);
      case Draining(n, t) => FullOrNot(s, n); DrainsIt(s, t, x);
      case _ =>
    }
  }

  lemma InBound(ix: Index, st: Store, x: BlockId)
    requires Bound(ix, st) && x < |st.place|
    ensures st.place[x].Live? || st.place[x].Draining? ==> st.place[x].n in st.blockOf && st.blockOf[st.place[x].n] == x
  {
    assert PlaceAt(st, x);
  }

  lemma InHands(place: seq<Place>, pp: Producer, cs: seq<Consumer>, x: BlockId)
    requires AllAttended(place, pp, cs) && x < |place|
    ensures Attended(place[x], pp, cs, x)
  {}

  /** The consumer at a draining block clears the entry of that block. */
  lemma DrainsIt(s: State, t: Tid, x: BlockId)
    requires Consumers(s.k, s.ix, s.st, s.cs) && x < |s.st.place| && s.st.place[x].Draining?
    requires t < |s.cs| && s.cs[t].Busy? && s.cs[t].at.Clear? && s.cs[t].at.b == x
    ensures s.cs[t].at.n == s.st.place[x].n
  {
    assert ConsumerOk(s.k, s.ix, s.st, s.cs[t], t);
  }

  /** In every state of every run, quiet or not. */
  lemma AlwaysHoused(ss: seq<State>, acts: seq<Action>)
    requires IsRun(ss, acts) && AllClaim(acts, 1)
    ensures forall i | 0 <= i < |ss| :: Indexed(ss[i]) && forall x | 0 <= x < |ss[i].st.place| :: Housed(ss[i], x)
  {
    hide IsRun, AllClaim, Inv, Housed, Indexed;
    forall i | 0 <= i < |ss| ensures Indexed(ss[i]) && forall x | 0 <= x < |ss[i].st.place| :: Housed(ss[i], x) {
      RunInvariant(ss, acts, i);
      InvIndexed(ss[i]);
      forall x | 0 <= x < |ss[i].st.place| ensures Housed(ss[i], x) { InvHoused(ss[i], x); }
    }
  }

  // ---------------------------------------------------------------- a block leaves the index once

  /** The consumer's step clears the entry of a block. */
  predicate Clears(s: State, a: Action) { a.Step? && a.t < |s.cs| && s.cs[a.t].Busy? && s.cs[a.t].at.Clear? }

  /** The consumer's step gives a cleared block to the free list. */
  predicate Releases(s: State, a: Action) { a.Step? && a.t < |s.cs| && s.cs[a.t].Busy? && s.cs[a.t].at.Release? }

  /**
    The step that clears an entry: the entry held the block, all elements of the block were handed out
    and counted, and the block is out of the index and with the consumer who will release it.
   */
  lemma ClearedWhenConsumed(s: State, a: Action)
    requires Inv(s) && Enabled(s, a) && Clears(s, a)
    ensures var at, s' := s.cs[a.t].at, Next(s, a);
            && at.n < Published(s.k, s.st) && at.n in s.st.blockOf && s.st.blockOf[at.n] == at.b < |s.st.place| && s.st.place[at.b] == Draining(at.n, a.t)
            && (forall i: nat | Blk(i, Pow2(s.k)) == at.n :: i in s.st.done && i in s.st.delivered && i !in s.st.owner)
            && at.n in s.ix.entryOf && s.ix.entryOf[at.n] < |s.st.values|
            && s.st.values[s.ix.entryOf[at.n]] == Some(at.b) && s'.st.values == s.st.values[s.ix.entryOf[at.n] := None]
            && s'.st.blockOf == s.st.blockOf - {at.n} && s'.st.place == s.st.place[at.b := Returning(a.t)]
  {
    hide Inv, StepReady, StepNext, Housed, ConsumerOk, Holds;
    var t := a.t;
    var at := s.cs[t].at;
    ClearStarts(s, t);
    ClearNext(s, t);
    AllCounted(s, at.n);
  }

  lemma ClearStarts(s: State, t: Tid)
    requires Inv(s) && t < |s.cs| && s.cs[t].Busy? && s.cs[t].at.Clear?
    ensures var Clear(h, slot, x, n) := s.cs[t].at;
            && h < |s.ix.headers| && slot < |s.ix.headers[h].index| && s.ix.headers[h].index[slot] < |s.st.values| && x < |s.st.place| && n < Published(s.k, s.st)
            && n in s.st.blockOf && s.st.blockOf[n] == x && s.st.place[x] == Draining(n, t)
            && n in s.ix.entryOf && s.ix.entryOf[n] == s.ix.headers[h].index[slot] && s.st.values[s.ix.entryOf[n]] == Some(x)
  {
    InvBasics(s);
    hide IndexOk, Counted, Claimed, Stored, ProducerOk, Consumers, AllAttended, ConsumerOk;
    ClearReady(s.k, s.ix, s.st, s.cs[t], t);
    assert BoundAt(s.ix, s.st, s.cs[t].at.n);
  }

  lemma AllCounted(s: State, n: nat)
    requires Inv(s) && n in s.st.blockOf && s.st.blockOf[n] < |s.st.place| && s.st.place[s.st.blockOf[n]].Draining?
    ensures forall i: nat | Blk(i, Pow2(s.k)) == n :: i in s.st.done && i in s.st.delivered && i !in s.st.owner
  {
    hide IndexOk, Bound, Counted, Stored, ProducerOk, Consumers, AllAttended;
    FullOrNot(s, n);
  }

  /** Nothing else takes a published block out of the index or makes a block free, and no step puts one back in. */
  lemma OnlyTheseRelease(s: State, a: Action)
    requires Inv(s) && Enabled(s, a)
    ensures forall n: nat | n < Published(s.k, s.st) :: n in Next(s, a).st.blockOf <==> n in s.st.blockOf && !(Clears(s, a) && n == s.cs[a.t].at.n)
    ensures forall n: nat | n < Published(s.k, s.st) && n in Next(s, a).st.blockOf :: n in s.st.blockOf && Next(s, a).st.blockOf[n] == s.st.blockOf[n]
    ensures |s.st.place| <= |Next(s, a).st.place|
    ensures forall x | 0 <= x < |s.st.place| && Next(s, a).st.place[x].Free? && !s.st.place[x].Free? ::
              || (Releases(s, a) && s.cs[a.t].at.b == x && s.st.place[x] == Returning(a.t))
              || (a.Go? && s.pp.PRollFree? && s.pp.chain[s.pp.j] == x && s.st.place[x].Mine?)
              || (a == Restore(x) && s.st.place[x].Elsewhere?)
  {
    hide Inv, StepReady, StepNext, GoNext, GoReady, TakeNext, ConsumerOk, ShapeOk;
    InvBasics(s);
    InvShape(s);
    match a {
      case Go => GoBlocks(s);
      case Take(b) => TakeBlocks(s, b);
      case Step(t) => BusySteps(s, t); StepBlocks(s, t);
      case _ =>
    }
  }

  lemma InvShape(s: State)
    requires Inv(s)
    ensures ShapeOk(s.k, s.ix, |s.st.log|, s.st.blockOf, s.st.values, s.st.place, s.pp)
  {}

  /** Block numbers below `published` are as before. */
  ghost predicate SameBelow(blockOf: map<nat, BlockId>, blockOf': map<nat, BlockId>, published: nat) {
    forall n: nat | n < published :: (n in blockOf' <==> n in blockOf) && (n in blockOf ==> blockOf'[n] == blockOf[n])
  }

  /** No block but x becomes free. */
  ghost predicate FreesOnly(place: seq<Place>, place': seq<Place>, x: int) {
    |place| <= |place'| && forall y | 0 <= y < |place| && place'[y].Free? && !place[y].Free? :: y == x
  }

  lemma GoBlocks(s: State)
    requires GoReady(s) && ShapeOk(s.k, s.ix, |s.st.log|, s.st.blockOf, s.st.values, s.st.place, s.pp)
    ensures SameBelow(s.st.blockOf, GoNext(s).st.blockOf, Published(s.k, s.st))
    ensures FreesOnly(s.st.place, GoNext(s).st.place, if s.pp.PRollFree? then s.pp.chain[s.pp.j] else -1)
    ensures s.pp.PRollFree? ==> s.pp.chain[s.pp.j] < |s.st.place| && s.st.place[s.pp.chain[s.pp.j]].Mine?
  {
    hide GoNext, GoReady;
    match s.pp {
      case PValue(_, _, _, _) => GoValue(s);
      case PRollFree(_, _) => GoFree(s);
      case _ => GoElse(s);
    }
  }

  lemma GoValue(s: State)
    requires GoReady(s) && ShapeOk(s.k, s.ix, |s.st.log|, s.st.blockOf, s.st.values, s.st.place, s.pp) && s.pp.PValue?
    ensures SameBelow(s.st.blockOf, GoNext(s).st.blockOf, Published(s.k, s.st)) && FreesOnly(s.st.place, GoNext(s).st.place, -1)
  {
    hide AfterChain;
  }

  lemma GoFree(s: State)
    requires GoReady(s) && ShapeOk(s.k, s.ix, |s.st.log|, s.st.blockOf, s.st.values, s.st.place, s.pp) && s.pp.PRollFree?
    ensures GoNext(s).st.blockOf == s.st.blockOf && FreesOnly(s.st.place, GoNext(s).st.place, s.pp.chain[s.pp.j])
    ensures s.pp.chain[s.pp.j] < |s.st.place| && s.st.place[s.pp.chain[s.pp.j]].Mine?
  {}

  lemma GoElse(s: State)
    requires GoReady(s) && !s.pp.PValue? && !s.pp.PRollFree?
    ensures SameBelow(s.st.blockOf, GoNext(s).st.blockOf, Published(s.k, s.st)) && FreesOnly(s.st.place, GoNext(s).st.place, -1)
  {
    hide AfterChain, Blocks, Pow2, And, NewTail, InsertReady, CanFind, Found, Grow, StoreKey, StoreTail, Rewind;
    if !s.pp.PRollValue? { GoNoBlock(s); }
  }

  lemma GoNoBlock(s: State)
    requires GoReady(s) && !s.pp.PValue? && !s.pp.PRollFree? && !s.pp.PRollValue?
    ensures GoNext(s).st.blockOf == s.st.blockOf && GoNext(s).st.place == s.st.place
  {
    hide AfterChain, Blocks, Pow2, And, NewTail, InsertReady, CanFind, Found, Grow, StoreKey, StoreTail, Rewind;
  }

  lemma TakeBlocks(s: State, b: BlockId)
    requires Enabled(s, Take(b))
    ensures TakeNext(s, b).st.blockOf == s.st.blockOf && FreesOnly(s.st.place, TakeNext(s, b).st.place, -1)
  {}

  lemma StepBlocks(s: State, t: Tid)
    requires t < |s.cs| && s.cs[t].Busy? && StepReady(s, t) && ConsumerOk(s.k, s.ix, s.st, s.cs[t], t)
    ensures StepNext(s, t).st.blockOf == s.st.blockOf - if s.cs[t].at.Clear? then {s.cs[t].at.n} else {}
    ensures FreesOnly(s.st.place, StepNext(s, t).st.place, if s.cs[t].at.Release? then s.cs[t].at.b else -1)
    ensures s.cs[t].at.Release? ==> s.cs[t].at.b < |s.st.place| && s.st.place[s.cs[t].at.b] == Returning(t)
  {
    hide Knows, RangeOk, HasBlock;
    if s.cs[t].at.Count? { CountBlocks(s, t); }
  }

  lemma CountBlocks(s: State, t: Tid)
    requires t < |s.cs| && s.cs[t].Busy? && StepReady(s, t) && s.cs[t].at.Count?
    ensures StepNext(s, t).st.blockOf == s.st.blockOf && FreesOnly(s.st.place, StepNext(s, t).st.place, -1)
  {}

  lemma LogGrows(s: State, a: Action)
    requires Enabled(s, a)
    ensures |s.st.log| <= |Next(s, a).st.log| && Next(s, a).k == s.k
  {
    hide StepNext, StepReady, GoNext, GoReady;
    match a {
      case Go => GoLog(s);
      case Step(t) => StepLog(s, t);
      case _ =>
    }
  }

  lemma GoLog(s: State)
    requires GoReady(s)
    ensures |s.st.log| <= |GoNext(s).st.log| && GoNext(s).k == s.k
  {}

  lemma StepLog(s: State, t: Tid)
    requires StepReady(s, t)
    ensures StepNext(s, t).st.log == s.st.log && StepNext(s, t).k == s.k
  {}

  /** A published block that has left the index never comes back. */
  lemma {:induction false} GoneStays(ss: seq<State>, acts: seq<Action>, i: nat, j: nat, n: nat)
    requires IsRun(ss, acts) && AllClaim(acts, 1) && i <= j < |ss|
    requires n < Published(ss[i].k, ss[i].st) && n !in ss[i].st.blockOf
    ensures n < Published(ss[j].k, ss[j].st) && n !in ss[j].st.blockOf
  {
    hide Init, AllClaim, Inv, Enabled, Next;
    if i < j {
      GoneStays(ss, acts, i, j - 1, n);
      RunInvariant(ss, acts, j - 1);
      OnlyTheseRelease(ss[j - 1], acts[j - 1]);
      LogGrows(ss[j - 1], acts[j - 1]);
      BlocksMonotone(|ss[j - 1].st.log|, |ss[j].st.log|, Pow2(ss[j].k));
    }
  }

  /** No block of the queue is cleared, and so released, twice: there is one step that clears block n. */
  lemma ClearedOnce(ss: seq<State>, acts: seq<Action>, i: nat, j: nat)
    requires IsRun(ss, acts) && AllClaim(acts, 1) && i < |acts| && j < |acts|
    requires Clears(ss[i], acts[i]) && Clears(ss[j], acts[j]) && ss[i].cs[acts[i].t].at.n == ss[j].cs[acts[j].t].at.n
    ensures i == j
  {
    hide Init, AllClaim, Inv, Enabled, Next;
    if i < j { ClearedEarlier(ss, acts, i, j); }
    if j < i { ClearedEarlier(ss, acts, j, i); }
  }

  lemma ClearedEarlier(ss: seq<State>, acts: seq<Action>, i: nat, j: nat)
    requires IsRun(ss, acts) && AllClaim(acts, 1) && i < j < |acts|
    requires Clears(ss[i], acts[i]) && Clears(ss[j], acts[j])
    ensures ss[i].cs[acts[i].t].at.n != ss[j].cs[acts[j].t].at.n
  {
    hide Init, AllClaim, Inv, Enabled, Next;
    var n := ss[i].cs[acts[i].t].at.n;
    RunInvariant(ss, acts, i);
    ClearedWhenConsumed(ss[i], acts[i]);
    LogGrows(ss[i], acts[i]);
    BlocksMonotone(|ss[i].st.log|, |ss[i + 1].st.log|, Pow2(ss[i].k));
    GoneStays(ss, acts, i + 1, j, n);
    RunInvariant(ss, acts, j);
    ClearedWhenConsumed(ss[j], acts[j]);
  }

  // ---------------------------------------------------------------- nothing claimed is forgotten

  /** The owner of a claimed element that is not counted yet is still busy with it. */
  ghost predicate OwnersBusy(owner: map<nat, Tid>, cs: seq<Consumer>) {
    forall i <- owner :: owner[i] < |cs| && InClaim(cs[owner[i]], i)
  }

  predicate InClaim(c: Consumer, i: nat) { c.Busy? && c.seg <= i < c.first + c.count }

  lemma ClaimBusy(s: State, t: Tid, count: nat)
    requires OwnersBusy(s.st.owner, s.cs) && Enabled(s, ClaimRange(t, count))
    ensures OwnersBusy(ClaimNext(s, t, count).st.owner, ClaimNext(s, t, count).cs)
  {}

  lemma StepBusy(s: State, t: Tid)
    requires OwnersBusy(s.st.owner, s.cs) && StepReady(s, t) && ConsumerOk(s.k, s.ix, s.st, s.cs[t], t)
    ensures OwnersBusy(StepNext(s, t).st.owner, StepNext(s, t).cs)
  {
    hide StepNext, StepReady, ConsumerOk;
    StepClaim(s, t);
    var s' := StepNext(s, t);
    forall i | i in s'.st.owner ensures s'.st.owner[i] < |s'.cs| && InClaim(s'.cs[s'.st.owner[i]], i) { assert InClaim(s.cs[s.st.owner[i]], i); }
  }

  /** A consumer's claim shrinks only by what it counts. */
  lemma StepClaim(s: State, t: Tid)
    requires StepReady(s, t) && ConsumerOk(s.k, s.ix, s.st, s.cs[t], t)
    ensures var s' := StepNext(s, t);
            && |s'.cs| == |s.cs| && (forall u | 0 <= u < |s.cs| && u != t :: s'.cs[u] == s.cs[u])
            && (forall i <- s'.st.owner :: i in s.st.owner && s'.st.owner[i] == s.st.owner[i])
            && (forall i: nat | InClaim(s.cs[t], i) && i in s'.st.owner :: InClaim(s'.cs[t], i))
  {
    if s.cs[t].at.Count? { StepClaimCount(s, t); }
  }

  lemma StepClaimCount(s: State, t: Tid)
    requires StepReady(s, t) && ConsumerOk(s.k, s.ix, s.st, s.cs[t], t) && s.cs[t].at.Count?
    ensures StepNext(s, t).st.owner == s.st.owner - Range(s.cs[t].seg, s.cs[t].pos)
    ensures var c' := StepNext(s, t).cs[t]; forall i: nat | s.cs[t].pos <= i < s.cs[t].first + s.cs[t].count :: InClaim(c', i)
  {}

  lemma NextBusy(s: State, a: Action)
    requires Inv(s) && Enabled(s, a) && OwnersBusy(s.st.owner, s.cs)
    ensures OwnersBusy(Next(s, a).st.owner, Next(s, a).cs)
  {
    hide Inv, StepNext, StepReady, GoNext, GoReady, TakeNext, OwnersBusy, ConsumerOk, ClaimNext;
    InvBasics(s);
    match a {
      case Go => GoKeeps(s);
      case Take(b) => TakeKeeps(s, b);
      case ClaimRange(t, count) => ClaimBusy(s, t, count);
      case Step(t) => BusySteps(s, t); StepBusy(s, t);
      case _ =>
    }
  }

  lemma {:induction false} RunBusy(ss: seq<State>, acts: seq<Action>, i: nat)
    requires IsRun(ss, acts) && AllClaim(acts, 1) && i < |ss|
    ensures OwnersBusy(ss[i].st.owner, ss[i].cs)
  {
    hide Inv, Enabled, Next;
    if i > 0 {
      RunBusy(ss, acts, i - 1);
      RunInvariant(ss, acts, i - 1);
      NextBusy(ss[i - 1], acts[i - 1]);
    }
  }

  // ---------------------------------------------------------------- blocks are conserved

  /** Nobody is in the middle of anything. */
  predicate Quiet(s: State) { s.pp.PIdle? && forall t | 0 <= t < |s.cs| :: s.cs[t].Idle? }

  /** Block n holds an element that is not consumed, or will hold the next one enqueued. */
  predicate InUse(k: nat, st: Store, n: nat) { n < Published(k, st) && Base(n, Pow2(k)) + Pow2(k) > st.head }

  /**
    Everything claimed has been handed out and counted; every block is in the pool, with another
    producer, or in the index; and those in the index are exactly the blocks in use, each once.
   */
  ghost predicate Conserved(s: State) {
    && (forall i: nat :: i in s.st.done <==> i < s.st.head)
    && (forall i: nat :: i in s.st.delivered <==> i < s.st.head)
    && (forall x | 0 <= x < |s.st.place| :: s.st.place[x].Free? || s.st.place[x].Elsewhere? || s.st.place[x].Live?)
    && (forall n: nat :: n in s.st.blockOf <==> InUse(s.k, s.st, n))
    && (forall n <- s.st.blockOf :: s.st.blockOf[n] < |s.st.place| && s.st.place[s.st.blockOf[n]] == Live(n))
    && (forall x | 0 <= x < |s.st.place| && s.st.place[x].Live? :: s.st.place[x].n in s.st.blockOf && s.st.blockOf[s.st.place[x].n] == x)
  }

  lemma QuietDone(s: State)
    requires Claimed(s.st) && OwnersBusy(s.st.owner, s.cs) && Quiet(s)
    ensures (forall i: nat :: i in s.st.done <==> i < s.st.head) && (forall i: nat :: i in s.st.delivered <==> i < s.st.head)
  {}

  lemma QuietPlaces(s: State)
    requires AllAttended(s.st.place, s.pp, s.cs) && Quiet(s)
    ensures forall x | 0 <= x < |s.st.place| :: s.st.place[x].Free? || s.st.place[x].Elsewhere? || s.st.place[x].Live?
  {
    forall x | 0 <= x < |s.st.place| ensures s.st.place[x].Free? || s.st.place[x].Elsewhere? || s.st.place[x].Live? {
      assert Attended(s.st.place[x], s.pp, s.cs, x);
    }
  }

  /** A block all of whose elements are consumed has left the index; the others are there. */
  lemma QuietBlocks(s: State, n: nat)
    requires Counted(s.st, Pow2(s.k)) && Stored(s.st, Pow2(s.k), Published(s.k, s.st)) && OnlyChain(s.st.blockOf, Published(s.k, s.st), 0)
    requires forall i: nat :: i in s.st.done <==> i < s.st.head
    requires forall x | 0 <= x < |s.st.place| :: !s.st.place[x].Draining?
    ensures n in s.st.blockOf <==> InUse(s.k, s.st, n)
  {
    var b := Pow2(s.k);
    if n in s.st.blockOf {
      assert CountedAt(s.st, b, n);
      CountFull(s.st.done, Base(n, b), b);
    }
    if InUse(s.k, s.st, n) {
      var i := if s.st.head < Base(n, b) then Base(n, b) else s.st.head;
      InBlock(i, n, b);
    }
  }

  lemma QuietConserved(s: State)
    requires Inv(s) && OwnersBusy(s.st.owner, s.cs) && Quiet(s)
    ensures Conserved(s)
  {
    hide IndexOk, Bound, Counted, Claimed, Stored, Consumers, AllAttended, ProducerOk, OnlyChain, OwnersBusy, InUse, Quiet;
    QuietDone(s);
    QuietPlaces(s);
    QuietShape(s);
    QuietInUse(s);
    QuietLive(s.ix, s.st);
  }

  lemma QuietInUse(s: State)
    requires Counted(s.st, Pow2(s.k)) && Stored(s.st, Pow2(s.k), Published(s.k, s.st)) && OnlyChain(s.st.blockOf, Published(s.k, s.st), 0)
    requires forall i: nat :: i in s.st.done <==> i < s.st.head
    requires forall x | 0 <= x < |s.st.place| :: s.st.place[x].Free? || s.st.place[x].Elsewhere? || s.st.place[x].Live?
    ensures forall n: nat :: n in s.st.blockOf <==> InUse(s.k, s.st, n)
  {
    hide Counted, Stored, OnlyChain, InUse;
    forall n: nat ensures n in s.st.blockOf <==> InUse(s.k, s.st, n) { QuietBlocks(s, n); }
  }

  lemma QuietShape(s: State)
    requires ProducerOk(s.k, s.ix, s.st, s.pp) && Quiet(s)
    ensures OnlyChain(s.st.blockOf, Published(s.k, s.st), 0)
  {}

  lemma QuietLive(ix: Index, st: Store)
    requires Bound(ix, st) && forall x | 0 <= x < |st.place| :: !st.place[x].Draining?
    ensures forall n <- st.blockOf :: st.blockOf[n] < |st.place| && st.place[st.blockOf[n]] == Live(n)
    ensures forall x | 0 <= x < |st.place| && st.place[x].Live? :: st.place[x].n in st.blockOf && st.blockOf[st.place[x].n] == x
  {
    forall n | n in st.blockOf ensures st.blockOf[n] < |st.place| && st.place[st.blockOf[n]] == Live(n) { assert BoundAt(ix, st, n); }
    forall x | 0 <= x < |st.place| && st.place[x].Live? ensures st.place[x].n in st.blockOf && st.blockOf[st.place[x].n] == x { assert PlaceAt(st, x); }
  }

  /** In every quiet state of every run. */
  lemma BlocksConserved(ss: seq<State>, acts: seq<Action>)
    requires IsRun(ss, acts) && AllClaim(acts, 1)
    ensures forall i | 0 <= i < |ss| && Quiet(ss[i]) :: Conserved(ss[i])
  {
    hide IsRun, AllClaim, Inv, Conserved, OwnersBusy, Quiet;
    forall i | 0 <= i < |ss| && Quiet(ss[i]) ensures Conserved(ss[i]) {
      RunInvariant(ss, acts, i);
      RunBusy(ss, acts, i);
      QuietConserved(ss[i]);
    }
  }
}
