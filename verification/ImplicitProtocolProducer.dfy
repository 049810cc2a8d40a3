/**
  The producer's steps of module ImplicitProtocol keep its invariant: allocating blocks and index
  entries for a bulk, rolling back when one of them is refused, writing the elements, publishing.
*/
module ImplicitProtocolProducer {
  import opened Options
  import opened Words
  import opened BlockIndex
  import opened BlockNumbers
  import opened ImplicitProtocol

  // ---------------------------------------------------------------- steps that touch only the index, the entries or the locals

  ghost predicate Keeps(place: seq<Place>, pp: Producer, pp': Producer) {
    forall x | 0 <= x < |place| && place[x].Mine? && InProducer(pp, x) :: InProducer(pp', x)
  }

  lemma KeepsAttended(place: seq<Place>, pp: Producer, pp': Producer, cs: seq<Consumer>)
    requires AllAttended(place, pp, cs) && Keeps(place, pp, pp')
    ensures AllAttended(place, pp', cs)
  {
    forall x | 0 <= x < |place| ensures Attended(place[x], pp', cs, x) { assert Attended(place[x], pp, cs, x); }
  }

  function SetIndex(s: State, ix: Index, values: seq<Option<BlockId>>, pp: Producer): State {
    s.(ix := ix, st := s.st.(values := values), pp := pp)
  }

  lemma SetValuesStore(k: nat, ix: Index, ix': Index, st: Store, values: seq<Option<BlockId>>, cs: seq<Consumer>)
    requires Counted(st, Pow2(k)) && Claimed(st) && Stored(st, Pow2(k), Published(k, st)) && Consumers(k, ix, st, cs)
    requires IndexFrame(ix, ix', Published(k, st))
    ensures var st' := st.(values := values);
            Counted(st', Pow2(k)) && Claimed(st') && Stored(st', Pow2(k), Published(k, st)) && Consumers(k, ix', st', cs)
  {
    hide IndexFrame, ConsumerOk, Stored, Consumers, Pow2;
    var st' := st.(values := values);
    forall n | n in st.blockOf ensures CountedAt(st', Pow2(k), n) { assert CountedAt(st, Pow2(k), n); }
    SameCells(k, st, st', PIdle);
    OthersOk(k, ix, ix', st, st', cs, -1, Idle);
  }

  lemma SameContent(k: nat, st: Store, values: seq<Option<BlockId>>, pp: Producer)
    requires ContentOk(k, st, pp)
    ensures ContentOk(k, st.(values := values), pp)
  {
    if pp.PWrite? {
      forall i | 0 <= i < pp.j && i < |pp.xs| ensures CellIs(st.(values := values), Pow2(k), |st.log| + i, pp.xs[i]) {
        assert CellIs(st, Pow2(k), |st.log| + i, pp.xs[i]);
      }
    }
  }

  lemma SetIndexInv(s: State, ix: Index, values: seq<Option<BlockId>>, pp: Producer)
    requires Inv(s) && IndexOk(ix) && Bound(ix, s.st.(values := values)) && IndexFrame(s.ix, ix, Published(s.k, s.st))
    requires ShapeOk(s.k, ix, |s.st.log|, s.st.blockOf, values, s.st.place, pp) && ContentOk(s.k, s.st, pp)
    requires Keeps(s.st.place, s.pp, pp)
    ensures Inv(SetIndex(s, ix, values, pp))
  {
    hide IndexOk, Bound, Counted, Stored, Claimed, ShapeOk, ContentOk, Consumers, AllAttended, ConsumerOk, IndexFrame, Keeps;
    SetValuesStore(s.k, s.ix, ix, s.st, values, s.cs);
    SameContent(s.k, s.st, values, pp);
    KeepsAttended(s.st.place, s.pp, pp, s.cs);
  }

  lemma SameValues(s: State, pp: Producer)
    ensures SetIndex(s, s.ix, s.st.values, pp) == s.(pp := pp)
  {}

  /** The step moves the producer only. */
  lemma MoveProducerInv(s: State, pp: Producer)
    requires Inv(s)
    requires ShapeOk(s.k, s.ix, |s.st.log|, s.st.blockOf, s.st.values, s.st.place, pp) && ContentOk(s.k, s.st, pp)
    requires Keeps(s.st.place, s.pp, pp)
    ensures Inv(s.(pp := pp))
  {
    hide IndexOk, Bound, Counted, Stored, Claimed, ShapeOk, ContentOk, Consumers, AllAttended, ConsumerOk, Keeps;
    SameValues(s, pp);
    assert IndexFrame(s.ix, s.ix, Published(s.k, s.st));
    SetIndexInv(s, s.ix, s.st.values, pp);
  }

  // ---- the bulk begins

  lemma StartInv(s: State, xs: seq<Value>)
    requires Inv(s) && s.pp.PIdle?
    ensures Inv(Moved(s, Start(xs)))
  {
    hide IndexOk, Bound, Counted, Stored, Claimed, Consumers, AllAttended;
    BlocksMonotone(|s.st.log|, |s.st.log| + |xs|, Pow2(s.k));
    MoveProducerInv(s, AfterChain(s.k, s.st, xs, []));
  }

  // ---- it looks at the next entry of the index

  lemma InsertReadyOk(k: nat, ix: Index, st: Store, pp: Producer)
    requires IndexOk(ix) && Bound(ix, st) && ShapeOk(k, ix, |st.log|, st.blockOf, st.values, st.place, pp) && (pp.PCheck? || pp.PKey?)
    ensures InsertReady(ix, st) && ix.lo <= NextBlock(ix)
  {
    hide IndexOk;
    CandidateIs(ix);
  }

  /** If the entry is in use then it is the oldest block's, and the new block is new to the index. */
  lemma InUse(ix: Index, st: Store)
    requires IndexOk(ix) && Bound(ix, st) && InsertReady(ix, st) && ix.lo <= NextBlock(ix)
    requires st.values[Candidate(ix)].Some? && NextBlock(ix) !in st.blockOf
    ensures NextBlock(ix) == ix.top
  {
    CandidateIs(ix);
  }

  lemma CheckInv(s: State)
    requires Inv(s) && s.pp.PCheck?
    ensures GoReady(s) && Inv(GoNext(s))
  {
    hide IndexOk, Counted, Stored, Claimed, Consumers, AllAttended;
    InsertReadyOk(s.k, s.ix, s.st, s.pp);
    var PCheck(xs, chain) := s.pp;
    var e := Candidate(s.ix);
    if s.ix.keys[e] == None || s.st.values[e] == None {
      MoveProducerInv(s, PKey(xs, chain, e));
    } else {
      InUse(s.ix, s.st);
      MoveProducerInv(s, PGrow(xs, chain));
    }
  }

  // ---- it replaces the index by a larger one

  lemma GrowBound(ix: Index, st: Store)
    requires IndexOk(ix) && Bound(ix, st) && |ix.Cur().index| == ix.Cur().Cap() && ix.Cur().tn == ix.top - 1
    ensures Bound(Grow(ix), st.(values := st.values + seq(ix.Cur().Cap(), _ => None)))
  {
    var ix', st' := Grow(ix), st.(values := st.values + seq(ix.Cur().Cap(), _ => None));
    assert ix'.lo == ix.lo && ix'.top == ix.top && ix'.entryOf == ix.entryOf;
    forall n | n in st.blockOf ensures BoundAt(ix', st', n) { assert BoundAt(ix, st, n); }
    forall b | 0 <= b < |st.place| ensures PlaceAt(st', b) { assert PlaceAt(st, b); }
  }

  lemma GrowFrame(ix: Index, published: nat)
    requires ix.headers != [] && |ix.Cur().index| == ix.Cur().Cap()
    ensures IndexFrame(ix, Grow(ix), published)
  {}

  lemma CurCap(ix: Index)
    requires IndexOk(ix)
    ensures |ix.Cur().index| == ix.Cur().Cap() && ix.Cur().tail == ix.Cur().SlotOf(ix.Cur().tn) && ix.Cur().tn < ix.top == ix.Cur().hi
  {
    assert HeaderOk(ix, ix.Cur());
  }

  lemma GrowShape(k: nat, ix: Index, st: Store, pp: Producer)
    requires IndexOk(ix) && |st.values| == |ix.keys| && ShapeOk(k, ix, |st.log|, st.blockOf, st.values, st.place, pp) && pp.PGrow?
    requires k + ix.Cur().c < 64 && |ix.Cur().index| == ix.Cur().Cap()
    ensures ShapeOk(k, Grow(ix), |st.log|, st.blockOf, st.values + seq(ix.Cur().Cap(), _ => None), st.place, PKey(pp.xs, pp.chain, |ix.keys|))
  {
    hide IndexOk;
    GrowOk(ix);
  }

  lemma GrowInv(s: State)
    requires Inv(s) && s.pp.PGrow?
    ensures GoReady(s) && (s.k + s.ix.Cur().c < 64 ==> Inv(GoNext(s)))
  {
    hide IndexOk, Bound, Counted, Stored, Claimed, Consumers, AllAttended, Grow;
    InvBasics(s);
    CurCap(s.ix);
    if s.k + s.ix.Cur().c < 64 {
      GrowOk(s.ix);
      GrowBound(s.ix, s.st);
      GrowFrame(s.ix, Published(s.k, s.st));
      GrowShape(s.k, s.ix, s.st, s.pp);
      SetIndexInv(s, Grow(s.ix), s.st.values + seq(s.ix.Cur().Cap(), _ => None), PKey(s.pp.xs, s.pp.chain, |s.ix.keys|));
    }
  }

  // ---- it stores the key, and then the tail

  /** The oldest block gives way to the new one only when it has left the index. */
  lemma OldestGone(ix: Index, st: Store)
    requires IndexOk(ix) && Bound(ix, st) && InsertReady(ix, st) && ix.lo <= NextBlock(ix) && st.values[Candidate(ix)] == None
    ensures StoreKey(ix).lo > ix.lo ==> StoreKey(ix).lo == ix.lo + 1 && ix.lo !in st.blockOf
  {
    CandidateIs(ix);
    CurCap(ix);
    assert HeaderOk(ix, ix.Cur());
    if ix.lo in st.blockOf { assert BoundAt(ix, st, ix.lo); }
  }

  lemma KeyBound(ix: Index, st: Store)
    requires IndexOk(ix) && Bound(ix, st) && InsertReady(ix, st) && ix.lo <= NextBlock(ix) && st.values[Candidate(ix)] == None
    requires NextBlock(ix) !in st.blockOf
    ensures Bound(StoreKey(ix), st)
  {
    hide IndexOk, Pow2, And;
    OldestGone(ix, st);
    var ix' := StoreKey(ix);
    forall n | n in st.blockOf ensures BoundAt(ix', st, n) { assert BoundAt(ix, st, n); }
  }

  lemma KeyFrame(ix: Index, st: Store, published: nat)
    requires IndexOk(ix) && InsertReady(ix, st)
    ensures IndexFrame(ix, StoreKey(ix), published)
  {
    CurCap(ix);
  }

  lemma KeyShape(k: nat, ix: Index, st: Store, pp: Producer)
    requires IndexOk(ix) && Bound(ix, st) && InsertReady(ix, st) && ShapeOk(k, ix, |st.log|, st.blockOf, st.values, st.place, pp) && pp.PKey?
    requires ix.lo <= NextBlock(ix)
    ensures ShapeOk(k, StoreKey(ix), |st.log|, st.blockOf, st.values, st.place, PTail(pp.xs, pp.chain, pp.e))
  {
    hide IndexOk, Bound;
    OldestGone(ix, st);
    StoreKeyOk(ix);
    CurCap(ix);
    CurCap(StoreKey(ix));
    var first := Blocks(|st.log|, Pow2(k));
    assert |pp.chain| > 0 ==> first in st.blockOf;
    assert StoreKey(ix).lo <= first;
  }

  lemma KeyInv(s: State)
    requires Inv(s) && s.pp.PKey?
    ensures GoReady(s) && Inv(GoNext(s))
  {
    hide IndexOk, Bound, Counted, Stored, Claimed, Consumers, AllAttended, StoreKey;
    InvBasics(s);
    InsertReadyOk(s.k, s.ix, s.st, s.pp);
    StoreKeyOk(s.ix);
    KeyBound(s.ix, s.st);
    KeyFrame(s.ix, s.st, Published(s.k, s.st));
    KeyShape(s.k, s.ix, s.st, s.pp);
    SetIndexInv(s, StoreKey(s.ix), s.st.values, PTail(s.pp.xs, s.pp.chain, s.pp.e));
  }

  /** A new tail of the current header leaves the window alone. */
  ghost predicate OnlyTail(ix: Index, ix': Index) {
    && ix.headers != [] && |ix'.headers| == |ix.headers| && ix'.(headers := []) == ix.(headers := [])
    && ix'.Cur() == ix.Cur().(tail := ix'.Cur().tail, tn := ix'.Cur().tn)
    && forall i | 0 <= i < |ix.headers| - 1 :: ix'.headers[i] == ix.headers[i]
  }

  lemma TailBound(ix: Index, ix': Index, st: Store)
    requires OnlyTail(ix, ix') && Bound(ix, st)
    ensures Bound(ix', st)
  {
    forall n | n in st.blockOf ensures BoundAt(ix', st, n) { assert BoundAt(ix, st, n); }
  }

  lemma TailFrame(ix: Index, ix': Index, published: nat)
    requires OnlyTail(ix, ix') && published - 1 <= ix'.Cur().tn
    ensures IndexFrame(ix, ix', published)
  {}

  lemma SetTailInv(s: State, ix: Index, pp: Producer)
    requires Inv(s) && IndexOk(ix) && OnlyTail(s.ix, ix) && Published(s.k, s.st) - 1 <= ix.Cur().tn
    requires ShapeOk(s.k, ix, |s.st.log|, s.st.blockOf, s.st.values, s.st.place, pp) && ContentOk(s.k, s.st, pp) && Keeps(s.st.place, s.pp, pp)
    ensures Inv(s.(ix := ix, pp := pp))
  {
    hide IndexOk, Bound, Counted, Stored, Claimed, Consumers, AllAttended, OnlyTail, ShapeOk, ContentOk, Keeps, IndexFrame;
    TailBound(s.ix, ix, s.st);
    TailFrame(s.ix, ix, Published(s.k, s.st));
    assert s.st.(values := s.st.values) == s.st;
    SetIndexInv(s, ix, s.st.values, pp);
  }

  lemma StoreTailShape(k: nat, ix: Index, st: Store, pp: Producer)
    requires ShapeOk(k, ix, |st.log|, st.blockOf, st.values, st.place, pp) && pp.PTail?
    ensures ShapeOk(k, StoreTail(ix), |st.log|, st.blockOf, st.values, st.place, PTake(pp.xs, pp.chain, pp.e))
    ensures NextBlock(ix) < ix.top && Blocks(|st.log|, Pow2(k)) - 1 <= StoreTail(ix).Cur().tn && OnlyTail(ix, StoreTail(ix))
  {}

  lemma TailInv(s: State)
    requires Inv(s) && s.pp.PTail?
    ensures GoReady(s) && Inv(GoNext(s))
  {
    hide IndexOk, Bound, Counted, Stored, Claimed, Consumers, AllAttended, OnlyTail, ShapeOk, StoreTail;
    InvBasics(s);
    StoreTailShape(s.k, s.ix, s.st, s.pp);
    StoreTailOk(s.ix);
    SetTailInv(s, StoreTail(s.ix), PTake(s.pp.xs, s.pp.chain, s.pp.e));
  }

  // ---- it takes a block from the pool, or a new one

  lemma HandAttended(place: seq<Place>, pp: Producer, pp': Producer, cs: seq<Consumer>, x: BlockId, p: Place)
    requires AllAttended(place, pp, cs) && x < |place| && (p.Free? || p.Elsewhere? || p.Live? || (p.Mine? && InProducer(pp', x)))
    requires forall y | 0 <= y < |place| && y != x && place[y].Mine? && InProducer(pp, y) :: InProducer(pp', y)
    ensures AllAttended(place[x := p], pp', cs)
  {
    var place' := place[x := p];
    forall y | 0 <= y < |place'| ensures Attended(place'[y], pp', cs, y) { assert Attended(place[y], pp, cs, y); }
  }

  /** A block outside the index goes from hand to hand, and the producer moves. */
  lemma HandInv(s: State, x: BlockId, p: Place, pp: Producer)
    requires Inv(s) && x < |s.st.place| && Outside(s.st.place[x]) && Outside(p) && !s.st.place[x].Returning?
    requires p.Free? || p.Elsewhere? || (p.Mine? && InProducer(pp, x))
    requires ShapeOk(s.k, s.ix, |s.st.log|, s.st.blockOf, s.st.values, s.st.place[x := p], pp)
    requires ContentOk(s.k, Hand(s.st, x, p), pp)
    requires forall y | 0 <= y < |s.st.place| && y != x && s.st.place[y].Mine? && InProducer(s.pp, y) :: InProducer(pp, y)
    ensures Inv(s.(st := Hand(s.st, x, p), pp := pp))
  {
    hide IndexOk, Bound, Counted, Stored, Claimed, ShapeOk, ContentOk, Consumers, AllAttended, ConsumerOk;
    InvBasics(s);
    HandStore(s.k, s.ix, s.st, x, p);
    HandStored(s.k, s.st, x, p, s.pp);
    HandConsumers(s.k, s.ix, s.st, s.cs, x, p, -1, Idle);
    HandAttended(s.st.place, s.pp, pp, s.cs, x, p);
  }

  /** Both are empty. */
  lemma PoolEmptyInv(s: State)
    requires Inv(s) && s.pp.PTake?
    ensures Inv(s.(pp := PNew(s.pp.xs, s.pp.chain, s.pp.e)))
  {
    hide IndexOk, Bound, Counted, Stored, Claimed, Consumers, AllAttended;
    MoveProducerInv(s, PNew(s.pp.xs, s.pp.chain, s.pp.e));
  }

  lemma TakeShape(k: nat, ix: Index, len: nat, blockOf: map<nat, BlockId>, values: seq<Option<BlockId>>, place: seq<Place>, place': seq<Place>, pp: Producer, b: BlockId)
    requires ShapeOk(k, ix, len, blockOf, values, place, pp) && (pp.PTake? || pp.PNew?) && b < |place'| && place'[b].Mine?
    ensures ShapeOk(k, ix, len, blockOf, values, place', PReset(pp.xs, pp.chain, pp.e, b))
  {}

  lemma TakeFreeInv(s: State, b: BlockId)
    requires Inv(s) && s.pp.PTake? && b < |s.st.place| && s.st.place[b].Free?
    ensures Inv(s.(st := Hand(s.st, b, Mine), pp := PReset(s.pp.xs, s.pp.chain, s.pp.e, b)))
  {
    hide IndexOk, Bound, Counted, Stored, Claimed, ShapeOk, Consumers, AllAttended;
    InvBasics(s);
    TakeShape(s.k, s.ix, |s.st.log|, s.st.blockOf, s.st.values, s.st.place, s.st.place[b := Mine], s.pp, b);
    HandInv(s, b, Mine, PReset(s.pp.xs, s.pp.chain, s.pp.e, b));
  }

  function WithNew(st: Store, b: nat): Store {
    st.(blocks := st.blocks + [Block(seq(b, _ => None), 0)], place := st.place + [Mine])
  }

  /** Stored looks at the cells only. */
  lemma CellsStay(st: Store, st': Store, b: nat, published: nat)
    requires b > 0 && Stored(st, b, published)
    requires st'.blockOf == st.blockOf && st'.log == st.log && st'.tailBlock == st.tailBlock && st'.done == st.done && st'.delivered == st.delivered
    requires |st.blocks| <= |st'.blocks| && forall x | 0 <= x < |st.blocks| :: st'.blocks[x].cells == st.blocks[x].cells
    ensures Stored(st', b, published)
  {
    forall j: nat | j < |st.log| && j !in st'.delivered ensures CellIs(st', b, j, st.log[j]) { assert CellIs(st, b, j, st.log[j]); }
  }

  /** Consumers do not look at the counters of blocks, nor at blocks that are new. */
  lemma ConsumersStay(k: nat, ix: Index, st: Store, st': Store, cs: seq<Consumer>)
    requires Consumers(k, ix, st, cs) && st.head <= |st.log|
    requires st'.blockOf == st.blockOf && st'.head == st.head && st'.owner == st.owner && st'.delivered == st.delivered
    requires |st.place| <= |st'.place| && forall x | 0 <= x < |st.place| :: st'.place[x] == st.place[x]
    ensures Consumers(k, ix, st', cs)
  {
    hide ConsumerOk;
    OthersOk(k, ix, ix, st, st', cs, -1, Idle);
  }

  lemma NewStore(k: nat, ix: Index, st: Store, cs: seq<Consumer>)
    requires Bound(ix, st) && Counted(st, Pow2(k)) && Claimed(st) && Stored(st, Pow2(k), Published(k, st)) && Consumers(k, ix, st, cs)
    ensures var st' := WithNew(st, Pow2(k));
            Bound(ix, st') && Counted(st', Pow2(k)) && Claimed(st') && Stored(st', Pow2(k), Published(k, st)) && Consumers(k, ix, st', cs)
  {
    var st' := WithNew(st, Pow2(k));
    assert st.head <= |st.log| && |st.place| == |st.blocks|;
    hide Bound, Counted, Stored, Consumers;
    NewBound(k, ix, st);
    CellsStay(st, st', Pow2(k), Published(k, st));
    ConsumersStay(k, ix, st, st', cs);
  }

  lemma NewBound(k: nat, ix: Index, st: Store)
    requires Bound(ix, st) && Counted(st, Pow2(k))
    ensures var st' := WithNew(st, Pow2(k)); Bound(ix, st') && Counted(st', Pow2(k))
  {
    var st' := WithNew(st, Pow2(k));
    forall n | n in st.blockOf ensures BoundAt(ix, st', n) && CountedAt(st', Pow2(k), n) { assert BoundAt(ix, st, n) && CountedAt(st, Pow2(k), n); }
    forall y | 0 <= y < |st'.place| ensures PlaceAt(st', y) { if y < |st.place| { assert PlaceAt(st, y); } }
  }

  lemma NewAttended(place: seq<Place>, pp: Producer, pp': Producer, cs: seq<Consumer>)
    requires AllAttended(place, pp, cs) && InProducer(pp', |place|) && Keeps(place, pp, pp')
    ensures AllAttended(place + [Mine], pp', cs)
  {
    var place' := place + [Mine];
    forall y | 0 <= y < |place'| ensures Attended(place'[y], pp', cs, y) { if y < |place| { assert Attended(place[y], pp, cs, y); } }
  }

  lemma TakeNewInv(s: State)
    requires Inv(s) && s.pp.PNew?
    ensures Inv(s.(st := WithNew(s.st, Pow2(s.k)), pp := PReset(s.pp.xs, s.pp.chain, s.pp.e, |s.st.blocks|)))
  {
    hide IndexOk, Bound, Counted, Stored, Claimed, ShapeOk, Consumers, AllAttended;
    InvBasics(s);
    TakeShape(s.k, s.ix, |s.st.log|, s.st.blockOf, s.st.values, s.st.place, s.st.place + [Mine], s.pp, |s.st.blocks|);
    NewStore(s.k, s.ix, s.st, s.cs);
    NewAttended(s.st.place, s.pp, PReset(s.pp.xs, s.pp.chain, s.pp.e, |s.st.blocks|), s.cs);
  }

  lemma TakeInv(s: State, b: BlockId)
    requires Inv(s) && Enabled(s, Take(b))
    ensures Inv(Moved(s, Take(b)))
  {
    hide Inv;
    if s.pp.PTake? { TakeFreeInv(s, b); } else { TakeNewInv(s); }
  }

  // ---- it clears the counter of the block

  function ResetBlock(st: Store, x: BlockId): Store
    requires x < |st.blocks|
  {
    st.(blocks := st.blocks[x := st.blocks[x].(emptied := 0)])
  }

  lemma ResetStore(k: nat, ix: Index, st: Store, cs: seq<Consumer>, x: BlockId)
    requires Bound(ix, st) && Counted(st, Pow2(k)) && Claimed(st) && Stored(st, Pow2(k), Published(k, st)) && Consumers(k, ix, st, cs)
    requires |st.blocks| == |st.place| && x < |st.blocks| && Outside(st.place[x])
    ensures var st' := ResetBlock(st, x);
            Bound(ix, st') && Counted(st', Pow2(k)) && Claimed(st') && Stored(st', Pow2(k), Published(k, st)) && Consumers(k, ix, st', cs)
  {
    var st' := ResetBlock(st, x);
    assert st.head <= |st.log|;
    hide Bound, Counted, Stored, Consumers;
    ResetBound(k, ix, st, x);
    CellsStay(st, st', Pow2(k), Published(k, st));
    ConsumersStay(k, ix, st, st', cs);
  }

  lemma ResetBound(k: nat, ix: Index, st: Store, x: BlockId)
    requires Bound(ix, st) && Counted(st, Pow2(k)) && x < |st.blocks| && Outside(st.place[x])
    ensures var st' := ResetBlock(st, x); Bound(ix, st') && Counted(st', Pow2(k))
  {
    var st' := ResetBlock(st, x);
    forall n | n in st.blockOf ensures BoundAt(ix, st', n) && CountedAt(st', Pow2(k), n) { assert BoundAt(ix, st, n) && CountedAt(st, Pow2(k), n); }
    forall y | 0 <= y < |st'.place| ensures PlaceAt(st', y) { assert PlaceAt(st, y); }
  }

  lemma ResetShape(k: nat, ix: Index, len: nat, blockOf: map<nat, BlockId>, values: seq<Option<BlockId>>, place: seq<Place>, pp: Producer)
    requires ShapeOk(k, ix, len, blockOf, values, place, pp) && pp.PReset?
    ensures ShapeOk(k, ix, len, blockOf, values, place, PValue(pp.xs, pp.chain, pp.e, pp.b)) && pp.b < |place| && place[pp.b].Mine?
  {}

  lemma ResetInv(s: State)
    requires Inv(s) && s.pp.PReset?
    ensures GoReady(s) && Inv(GoNext(s))
  {
    hide IndexOk, Bound, Counted, Stored, Claimed, ShapeOk, Consumers, AllAttended;
    InvBasics(s);
    ResetShape(s.k, s.ix, |s.st.log|, s.st.blockOf, s.st.values, s.st.place, s.pp);
    ResetStore(s.k, s.ix, s.st, s.cs, s.pp.b);
    KeepsAttended(s.st.place, s.pp, PValue(s.pp.xs, s.pp.chain, s.pp.e, s.pp.b), s.cs);
  }

  // ---- it puts the block into the index

  function PutBlock(st: Store, e: EntryId, x: BlockId, n: nat): Store
    requires e < |st.values| && x < |st.place|
  {
    st.(values := st.values[e := Some(x)], place := st.place[x := Live(n)], blockOf := st.blockOf[n := x])
  }

  ghost predicate Vacant(ix: Index, st: Store, e: EntryId, x: BlockId, n: nat) {
    && HasEntry(ix, st.values, n, e) && n !in st.blockOf
    && x < |st.place| && st.place[x].Mine? && x < |st.blocks| && st.blocks[x].emptied == 0
  }

  lemma VacantKey(ix: Index, st: Store, e: EntryId, x: BlockId, n: nat)
    requires IndexOk(ix) && Vacant(ix, st, e, x, n)
    ensures e < |ix.keys| && ix.keys[e] == Some(n)
  {}

  lemma PutBound(ix: Index, st: Store, e: EntryId, x: BlockId, n: nat)
    requires IndexOk(ix) && Bound(ix, st) && Vacant(ix, st, e, x, n)
    ensures Bound(ix, PutBlock(st, e, x, n))
  {
    hide IndexOk;
    var st' := PutBlock(st, e, x, n);
    VacantKey(ix, st, e, x, n);
    EntriesApart(ix);
    forall m | m in st'.blockOf ensures BoundAt(ix, st', m) { if m != n { assert BoundAt(ix, st, m); } }
    forall y | 0 <= y < |st'.place| ensures PlaceAt(st', y) { assert PlaceAt(st, y); }
  }

  lemma {:induction false} CountNone(done: set<nat>, lo: nat, len: nat)
    requires forall i | lo <= i < lo + len :: i !in done
    ensures CountIn(done, lo, len) == 0
  {
    if len > 0 { CountNone(done, lo, len - 1); }
  }

  /** No element of a block that is not published is counted. */
  lemma NewBlockUncounted(st: Store, b: nat, n: nat)
    requires b > 0 && Claimed(st) && n >= Blocks(|st.log|, b)
    ensures CountIn(st.done, Base(n, b), b) == 0
  {
    forall i: nat | Base(n, b) <= i < Base(n, b) + b ensures i !in st.done {
      InBlock(i, n, b);
      BlocksCover(i, |st.log|, b);
    }
    CountNone(st.done, Base(n, b), b);
  }

  lemma PutCounted(ix: Index, st: Store, b: nat, e: EntryId, x: BlockId, n: nat)
    requires b > 0 && Bound(ix, st) && Counted(st, b) && Claimed(st) && Vacant(ix, st, e, x, n) && n >= Blocks(|st.log|, b)
    ensures Counted(PutBlock(st, e, x, n), b) && Claimed(PutBlock(st, e, x, n))
  {
    var st' := PutBlock(st, e, x, n);
    NewBlockUncounted(st, b, n);
    forall m | m in st'.blockOf ensures CountedAt(st', b, m) { if m != n { assert CountedAt(st, b, m) && BoundAt(ix, st, m); } }
  }

  lemma PutStored(ix: Index, st: Store, b: nat, e: EntryId, x: BlockId, n: nat, published: nat)
    requires b > 0 && Stored(st, b, published) && Vacant(ix, st, e, x, n)
    ensures Stored(PutBlock(st, e, x, n), b, published)
  {
    var st' := PutBlock(st, e, x, n);
    forall j: nat | j < |st.log| && j !in st'.delivered ensures CellIs(st', b, j, st.log[j]) { assert CellIs(st, b, j, st.log[j]); }
  }

  lemma PutConsumers(k: nat, ix: Index, st: Store, cs: seq<Consumer>, e: EntryId, x: BlockId, n: nat)
    requires Consumers(k, ix, st, cs) && st.head <= |st.log| && Vacant(ix, st, e, x, n)
    ensures Consumers(k, ix, PutBlock(st, e, x, n), cs)
  {
    var st' := PutBlock(st, e, x, n);
    forall u | 0 <= u < |cs| ensures StoreFrame(st, st', cs[u], Pow2(k)) { assert ConsumerOk(k, ix, st, cs[u], u); }
    OthersOk(k, ix, ix, st, st', cs, -1, Idle);
  }

  lemma PutVacant(k: nat, ix: Index, st: Store, pp: Producer)
    requires ProducerOk(k, ix, st, pp) && pp.PValue?
    ensures ix.Cur().tn >= Published(k, st) && Vacant(ix, st, pp.e, pp.b, ix.Cur().tn)
  {}

  lemma PutShape(k: nat, ix: Index, st: Store, pp: Producer)
    requires ShapeOk(k, ix, |st.log|, st.blockOf, st.values, st.place, pp) && pp.PValue? && pp.e < |st.values| && ix.Cur().tn >= 0
    ensures var st' := PutBlock(st, pp.e, pp.b, ix.Cur().tn);
            ShapeOk(k, ix, |st.log|, st'.blockOf, st'.values, st'.place, AfterChain(k, st, pp.xs, pp.chain + [pp.b]))
  {}

  lemma PutContent(k: nat, st: Store, st': Store, xs: seq<Value>, chain: seq<BlockId>)
    ensures ContentOk(k, st', AfterChain(k, st, xs, chain))
  {}

  lemma ValueInv(s: State)
    requires Inv(s) && s.pp.PValue?
    ensures GoReady(s) && Inv(GoNext(s))
  {
    hide IndexOk, Bound, Counted, Stored, Claimed, ShapeOk, Consumers, AllAttended, ContentOk, ConsumerOk;
    InvBasics(s);
    var PValue(xs, chain, e, b) := s.pp;
    var n := s.ix.Cur().tn;
    PutVacant(s.k, s.ix, s.st, s.pp);
    PutBound(s.ix, s.st, e, b, n);
    PutCounted(s.ix, s.st, Pow2(s.k), e, b, n);
    PutStored(s.ix, s.st, Pow2(s.k), e, b, n, Published(s.k, s.st));
    PutShape(s.k, s.ix, s.st, s.pp);
    PutContent(s.k, s.st, PutBlock(s.st, e, b, n), xs, chain + [b]);
    PutConsumers(s.k, s.ix, s.st, s.cs, e, b, n);
    HandAttended(s.st.place, s.pp, AfterChain(s.k, s.st, xs, chain + [b]), s.cs, b, Live(n));
  }

  // ---- it writes the elements

  /** The block that the code reaches by walking from tailBlock along the chain is the index's block. */
  lemma TargetIs(k: nat, st: Store, xs: seq<Value>, chain: seq<BlockId>, j: nat)
    requires Stored(st, Pow2(k), Published(k, st)) && j < |xs|
    requires Chained(st.blockOf, chain, Published(k, st), 0) && Published(k, st) + |chain| == Wanted(k, st, xs)
    ensures var n := Blk(|st.log| + j, Pow2(k));
            n in st.blockOf && Target(k, st, chain, |st.log| + j) == Some(st.blockOf[n])
  {
    var b, i := Pow2(k), |st.log| + j;
    BlocksCover(i, |st.log| + |xs|, b);
    BlocksAt(|st.log|, b);
    BlkMonotone(|st.log|, i, b);
  }

  lemma WriteStored(ix: Index, st: Store, b: nat, i: nat, v: Value, published: nat)
    requires b > 0 && Bound(ix, st) && Counted(st, b) && Claimed(st) && Stored(st, b, published)
    requires i >= |st.log| && Blk(i, b) in st.blockOf && st.blockOf[Blk(i, b)] < |st.blocks| && Pos(i, b) < |st.blocks[st.blockOf[Blk(i, b)]].cells|
    ensures var st' := SetCell(st, st.blockOf[Blk(i, b)], Pos(i, b), Some(v));
            Stored(st', b, published)
  {
    var st' := SetCell(st, st.blockOf[Blk(i, b)], Pos(i, b), Some(v));
    forall j: nat | j < |st.log| && j !in st'.delivered ensures CellIs(st', b, j, st.log[j]) {
      OtherCell(ix, st, st', b, i, Some(v), j, st.log[j]);
    }
  }

  lemma WriteOthers(k: nat, ix: Index, st: Store, x: BlockId, p: nat, v: Option<Value>, cs: seq<Consumer>)
    requires Bound(ix, st) && Counted(st, Pow2(k)) && Claimed(st) && Consumers(k, ix, st, cs)
    requires x < |st.blocks| && p < |st.blocks[x].cells|
    ensures var st' := SetCell(st, x, p, v);
            Bound(ix, st') && Counted(st', Pow2(k)) && Claimed(st') && Consumers(k, ix, st', cs)
  {
    var st' := SetCell(st, x, p, v);
    forall n | n in st.blockOf ensures BoundAt(ix, st', n) && CountedAt(st', Pow2(k), n) { assert BoundAt(ix, st, n) && CountedAt(st, Pow2(k), n); }
    forall y | 0 <= y < |st.place| ensures PlaceAt(st', y) { assert PlaceAt(st, y); }
    hide Consumers, Bound, Counted, Stored;
    ConsumersStay(k, ix, st, st', cs);
  }

  lemma WriteContent(k: nat, ix: Index, st: Store, xs: seq<Value>, chain: seq<BlockId>, j: nat)
    requires Bound(ix, st) && ContentOk(k, st, PWrite(xs, chain, j)) && j < |xs|
    requires var i := |st.log| + j;
             var n := Blk(i, Pow2(k));
             n in st.blockOf && st.blockOf[n] < |st.blocks| && Pos(i, Pow2(k)) < |st.blocks[st.blockOf[n]].cells|
    ensures ContentOk(k, SetCell(st, st.blockOf[Blk(|st.log| + j, Pow2(k))], Pos(|st.log| + j, Pow2(k)), Some(xs[j])), PWrite(xs, chain, j + 1))
  {
    hide Bound, Blk, Pos, Pow2, CellIs;
    var i := |st.log| + j;
    var st' := SetCell(st, st.blockOf[Blk(i, Pow2(k))], Pos(i, Pow2(k)), Some(xs[j]));
    forall m | 0 <= m < j + 1 && m < |xs| ensures CellIs(st', Pow2(k), |st.log| + m, xs[m]) {
      if m < j { OtherCell(ix, st, st', Pow2(k), i, Some(xs[j]), |st.log| + m, xs[m]); } else { WrittenCell(st, Pow2(k), i, xs[j]); }
    }
  }

  lemma WrittenCell(st: Store, b: nat, i: nat, v: Value)
    requires b > 0 && Blk(i, b) in st.blockOf && st.blockOf[Blk(i, b)] < |st.blocks| && Pos(i, b) < |st.blocks[st.blockOf[Blk(i, b)]].cells|
    ensures CellIs(SetCell(st, st.blockOf[Blk(i, b)], Pos(i, b), Some(v)), b, i, v)
  {}

  lemma WriteShape(k: nat, ix: Index, len: nat, blockOf: map<nat, BlockId>, values: seq<Option<BlockId>>, place: seq<Place>, xs: seq<Value>, chain: seq<BlockId>, j: nat)
    requires ShapeOk(k, ix, len, blockOf, values, place, PWrite(xs, chain, j))
    ensures Chained(blockOf, chain, Blocks(len, Pow2(k)), 0) && Blocks(len, Pow2(k)) + |chain| == Blocks(len + |xs|, Pow2(k)) && j <= |xs|
    ensures j < |xs| ==> ShapeOk(k, ix, len, blockOf, values, place, PWrite(xs, chain, j + 1))
    ensures OnlyChain(blockOf, Blocks(len, Pow2(k)), |chain|)
  {}

  lemma CellReady(k: nat, ix: Index, st: Store, i: nat)
    requires Bound(ix, st) && Counted(st, Pow2(k)) && Blk(i, Pow2(k)) in st.blockOf
    ensures st.blockOf[Blk(i, Pow2(k))] < |st.blocks| && Pos(i, Pow2(k)) < |st.blocks[st.blockOf[Blk(i, Pow2(k))]].cells|
  {
    assert BoundAt(ix, st, Blk(i, Pow2(k)));
    BlkPos(i, Pow2(k));
  }

  lemma WriteNext(s: State)
    requires s.pp.PWrite? && s.pp.j < |s.pp.xs|
    requires var i := |s.st.log| + s.pp.j;
             var n := Blk(i, Pow2(s.k));
             && n in s.st.blockOf && Target(s.k, s.st, s.pp.chain, i) == Some(s.st.blockOf[n]) && s.st.blockOf[n] < |s.st.blocks|
             && Pos(i, Pow2(s.k)) < |s.st.blocks[s.st.blockOf[n]].cells|
    ensures GoReady(s)
    ensures var i := |s.st.log| + s.pp.j;
            GoNext(s) == s.(st := SetCell(s.st, s.st.blockOf[Blk(i, Pow2(s.k))], Pos(i, Pow2(s.k)), Some(s.pp.xs[s.pp.j])), pp := PWrite(s.pp.xs, s.pp.chain, s.pp.j + 1))
  {
    hide Target, Pow2, Blk, Pos;
  }

  lemma WriteInv(s: State)
    requires Inv(s) && s.pp.PWrite? && s.pp.j < |s.pp.xs|
    ensures GoReady(s) && Inv(GoNext(s))
  {
    hide IndexOk, Bound, Counted, Stored, Claimed, ShapeOk, Consumers, AllAttended, ContentOk, ConsumerOk, GoReady, GoNext, Pow2, Blk, Pos, Base;
    InvBasics(s);
    var PWrite(xs, chain, j) := s.pp;
    var i, b := |s.st.log| + j, Pow2(s.k);
    WriteShape(s.k, s.ix, |s.st.log|, s.st.blockOf, s.st.values, s.st.place, xs, chain, j);
    TargetIs(s.k, s.st, xs, chain, j);
    CellReady(s.k, s.ix, s.st, i);
    WriteNext(s);
    WriteStored(s.ix, s.st, b, i, xs[j], Published(s.k, s.st));
    WriteOthers(s.k, s.ix, s.st, s.st.blockOf[Blk(i, b)], Pos(i, b), Some(xs[j]), s.cs);
    WriteContent(s.k, s.ix, s.st, xs, chain, j);
    KeepsAttended(s.st.place, s.pp, PWrite(xs, chain, j + 1), s.cs);
  }

  // ---- it publishes them

  function Publish(st: Store, xs: seq<Value>, chain: seq<BlockId>): Store {
    st.(log := st.log + xs, tailBlock := if chain == [] then st.tailBlock else Some(chain[|chain| - 1]))
  }

  lemma {:induction false} PublishStored(k: nat, st: Store, xs: seq<Value>, chain: seq<BlockId>)
    requires Stored(st, Pow2(k), Published(k, st)) && Claimed(st) && ContentOk(k, st, PWrite(xs, chain, |xs|))
    requires Chained(st.blockOf, chain, Published(k, st), 0) && Published(k, st) + |chain| == Wanted(k, st, xs)
    ensures var st' := Publish(st, xs, chain); Stored(st', Pow2(k), Published(k, st')) && Published(k, st') == Wanted(k, st, xs)
  {
    var b := Pow2(k);
    var st' := Publish(st, xs, chain);
    PublishTail(k, st, xs, chain);
    forall j: nat | j < |st'.log| && j !in st'.delivered ensures CellIs(st', b, j, st'.log[j]) {
      if j < |st.log| { assert CellIs(st, b, j, st.log[j]); } else { assert CellIs(st, b, |st.log| + (j - |st.log|), xs[j - |st.log|]); }
    }
  }

  /** tailBlock is the block of the new tail, if that is inside a block. */
  lemma {:induction false} PublishTail(k: nat, st: Store, xs: seq<Value>, chain: seq<BlockId>)
    requires Stored(st, Pow2(k), Published(k, st))
    requires Chained(st.blockOf, chain, Published(k, st), 0) && Published(k, st) + |chain| == Wanted(k, st, xs)
    ensures var st' := Publish(st, xs, chain);
            Pos(|st'.log|, Pow2(k)) != 0 ==> Blk(|st'.log|, Pow2(k)) in st.blockOf && st'.tailBlock == Some(st.blockOf[Blk(|st'.log|, Pow2(k))])
  {
    var b := Pow2(k);
    var st' := Publish(st, xs, chain);
    BlocksAt(|st.log|, b);
    BlocksAt(|st'.log|, b);
    BlkMonotone(|st.log|, |st'.log|, b);
  }

  lemma PublishOthers(k: nat, ix: Index, st: Store, cs: seq<Consumer>, xs: seq<Value>, chain: seq<BlockId>)
    requires Bound(ix, st) && Counted(st, Pow2(k)) && Claimed(st) && Consumers(k, ix, st, cs)
    ensures var st' := Publish(st, xs, chain);
            Bound(ix, st') && Counted(st', Pow2(k)) && Claimed(st') && Consumers(k, ix, st', cs)
  {
    var st' := Publish(st, xs, chain);
    assert Claimed(st');
    SameBound(ix, st, st', Pow2(k));
    hide Consumers, Bound, Counted;
    ConsumersStay(k, ix, st, st', cs);
  }

  lemma PublishShape(k: nat, ix: Index, st: Store, xs: seq<Value>, chain: seq<BlockId>)
    requires ShapeOk(k, ix, |st.log|, st.blockOf, st.values, st.place, PWrite(xs, chain, |xs|))
    ensures var st' := Publish(st, xs, chain); ShapeOk(k, ix, |st'.log|, st'.blockOf, st'.values, st'.place, PIdle)
  {
    BlocksMonotone(|st.log|, |st.log| + |xs|, Pow2(k));
  }

  lemma PublishInv(s: State)
    requires Inv(s) && s.pp.PWrite? && s.pp.j >= |s.pp.xs|
    ensures GoReady(s) && Inv(GoNext(s))
    ensures GoNext(s).st.log == s.st.log + s.pp.xs && GoNext(s).pp.PIdle?
  {
    hide IndexOk, Bound, Counted, Stored, Claimed, ShapeOk, Consumers, AllAttended, ContentOk, ConsumerOk;
    var PWrite(xs, chain, j) := s.pp;
    WriteShape(s.k, s.ix, |s.st.log|, s.st.blockOf, s.st.values, s.st.place, xs, chain, j);
    PublishStored(s.k, s.st, xs, chain);
    PublishOthers(s.k, s.ix, s.st, s.cs, xs, chain);
    PublishShape(s.k, s.ix, s.st, xs, chain);
    PublishContent(s.k, Publish(s.st, xs, chain));
    KeepsAttended(s.st.place, s.pp, PIdle, s.cs);
  }

  lemma PublishContent(k: nat, st: Store)
    ensures ContentOk(k, st, PIdle)
  {}

  // ---------------------------------------------------------------- rolling back

  /** The blocks of the chain are distinct. */
  lemma ChainDistinct(ix: Index, st: Store, chain: seq<BlockId>, first: nat)
    requires Bound(ix, st) && Chained(st.blockOf, chain, first, 0)
    ensures forall i, j | 0 <= i < j < |chain| :: chain[i] != chain[j]
  {
    forall i, j | 0 <= i < j < |chain| ensures chain[i] != chain[j] {
      assert BoundAt(ix, st, first + i) && BoundAt(ix, st, first + j);
    }
  }

  /** Once its own entry is out of the index again, the producer can roll the chain back. */
  lemma RollBackShape(k: nat, ix: Index, st: Store, chain: seq<BlockId>)
    requires ix.headers != [] && Bound(ix, st)
    requires var first := Published(k, st);
             ix.lo <= first && ix.Cur().c + k <= 64 && ix.Cur().tn + 1 == first + |chain| && Chained(st.blockOf, chain, first, 0) && OnlyChain(st.blockOf, first, |chain|)
    ensures ShapeOk(k, ix, |st.log|, st.blockOf, st.values, st.place, RollBack(chain, 0))
  {
    ChainDistinct(ix, st, chain, Published(k, st));
  }

  lemma RollBackContent(k: nat, st: Store, chain: seq<BlockId>, j: nat)
    ensures ContentOk(k, st, RollBack(chain, j))
  {}

  lemma NoneInHand(place: seq<Place>, pp: Producer, pp': Producer)
    requires pp.PCheck? || pp.PGrow? || pp.PNew? || pp.PUndoTail? || pp.PUndoValue?
    ensures Keeps(place, pp, pp')
  {}

  lemma FailShape(k: nat, ix: Index, st: Store, pp: Producer)
    requires ShapeOk(k, ix, |st.log|, st.blockOf, st.values, st.place, pp) && Bound(ix, st)
    ensures pp.PCheck? || pp.PGrow? ==> ShapeOk(k, ix, |st.log|, st.blockOf, st.values, st.place, RollBack(pp.chain, 0))
    ensures pp.PNew? ==> ShapeOk(k, ix, |st.log|, st.blockOf, st.values, st.place, PUndoTail(pp.chain, pp.e))
  {
    if pp.PCheck? || pp.PGrow? { RollBackShape(k, ix, st, pp.chain); }
  }

  lemma FailInv(s: State)
    requires Inv(s) && Enabled(s, Fail)
    ensures Inv(Moved(s, Fail))
  {
    hide IndexOk, Bound, Counted, Stored, Claimed, ShapeOk, Consumers, AllAttended, ConsumerOk, Keeps;
    FailShape(s.k, s.ix, s.st, s.pp);
    var pp := if s.pp.PNew? then PUndoTail(s.pp.chain, s.pp.e) else RollBack(s.pp.chain, 0);
    RollBackContent(s.k, s.st, s.pp.chain, 0);
    NoneInHand(s.st.place, s.pp, pp);
    MoveProducerInv(s, pp);
  }

  lemma RewindTail(ix: Index)
    requires ix.headers != []
    ensures OnlyTail(ix, Rewind(ix)) && Rewind(ix).Cur().tn == ix.Cur().tn - 1 && Rewind(ix).Cur().c == ix.Cur().c && Rewind(ix).lo == ix.lo
  {}

  lemma UndoTailShape(k: nat, ix: Index, st: Store, pp: Producer)
    requires ShapeOk(k, ix, |st.log|, st.blockOf, st.values, st.place, pp) && pp.PUndoTail?
    ensures ShapeOk(k, Rewind(ix), |st.log|, st.blockOf, st.values, st.place, PUndoValue(pp.chain, pp.e))
    ensures ix.Cur().tn >= 0 && ix.Cur().c <= 64 && Published(k, st) <= ix.Cur().tn
  {
    hide Rewind;
    RewindTail(ix);
  }

  lemma UndoTailInv(s: State)
    requires Inv(s) && s.pp.PUndoTail?
    ensures GoReady(s) && Inv(GoNext(s))
  {
    hide IndexOk, Bound, Counted, Stored, Claimed, Consumers, AllAttended, OnlyTail, ShapeOk, Rewind, Keeps;
    InvBasics(s);
    UndoTailShape(s.k, s.ix, s.st, s.pp);
    RewindTail(s.ix);
    RewindOk(s.ix);
    NoneInHand(s.st.place, s.pp, PUndoValue(s.pp.chain, s.pp.e));
    SetTailInv(s, Rewind(s.ix), PUndoValue(s.pp.chain, s.pp.e));
  }

  lemma UndoValueShape(k: nat, ix: Index, st: Store, pp: Producer)
    requires ShapeOk(k, ix, |st.log|, st.blockOf, st.values, st.place, pp) && pp.PUndoValue? && Bound(ix, st)
    ensures ShapeOk(k, ix, |st.log|, st.blockOf, st.values, st.place, RollBack(pp.chain, 0))
    ensures pp.e < |st.values| && st.values[pp.e := None] == st.values
  {
    RollBackShape(k, ix, st, pp.chain);
  }

  lemma UndoValueInv(s: State)
    requires Inv(s) && s.pp.PUndoValue?
    ensures GoReady(s) && Inv(GoNext(s))
  {
    hide IndexOk, Bound, Counted, Stored, Claimed, Consumers, AllAttended, ShapeOk, Keeps;
    UndoValueShape(s.k, s.ix, s.st, s.pp);
    RollBackContent(s.k, s.st, s.pp.chain, 0);
    NoneInHand(s.st.place, s.pp, RollBack(s.pp.chain, 0));
    assert s.st.(values := s.st.values) == s.st;
    MoveProducerInv(s, RollBack(s.pp.chain, 0));
  }

  // ---- a block of the chain comes out of the index

  lemma RollStored(st: Store, b: nat, e: EntryId, x: BlockId, n: nat)
    requires b > 0 && Stored(st, b, Blocks(|st.log|, b)) && e < |st.values| && x < |st.place| && n >= Blocks(|st.log|, b)
    ensures Stored(ClearBlock(st, e, x, n, Mine), b, Blocks(|st.log|, b))
  {
    var st' := ClearBlock(st, e, x, n, Mine);
    BlocksAt(|st.log|, b);
    forall j: nat | j < |st.log| && j !in st'.delivered ensures CellIs(st', b, j, st.log[j]) {
      assert CellIs(st, b, j, st.log[j]);
      BlocksCover(j, |st.log|, b);
    }
  }

  lemma RollFrame(k: nat, ix: Index, st: Store, c: Consumer, t: Tid, e: EntryId, x: BlockId, n: nat)
    requires ConsumerOk(k, ix, st, c, t) && st.head <= |st.log| && n >= Published(k, st)
    requires e < |st.values| && x < |st.place| && (st.place[x].Live? || st.place[x].Draining?) && st.place[x].n == n
    ensures StoreFrame(st, ClearBlock(st, e, x, n, Mine), c, Pow2(k))
  {
    if c.Busy? { LastPublished(c, st.head, |st.log|, Pow2(k)); }
  }

  lemma RollConsumers(k: nat, ix: Index, st: Store, cs: seq<Consumer>, e: EntryId, x: BlockId, n: nat)
    requires Consumers(k, ix, st, cs) && st.head <= |st.log| && n >= Published(k, st)
    requires e < |st.values| && x < |st.place| && (st.place[x].Live? || st.place[x].Draining?) && st.place[x].n == n
    ensures Consumers(k, ix, ClearBlock(st, e, x, n, Mine), cs)
  {
    hide ConsumerOk, StoreFrame;
    var st' := ClearBlock(st, e, x, n, Mine);
    forall u | 0 <= u < |cs| ensures StoreFrame(st, st', cs[u], Pow2(k)) {
      assert ConsumerOk(k, ix, st, cs[u], u);
      RollFrame(k, ix, st, cs[u], u, e, x, n);
    }
    OthersOk(k, ix, ix, st, st', cs, -1, Idle);
  }

  /** Block first + j of the chain is in the index, and not after its tail. */
  lemma RollAt(k: nat, ix: Index, st: Store, pp: Producer)
    requires Bound(ix, st) && ShapeOk(k, ix, |st.log|, st.blockOf, st.values, st.place, pp) && pp.PRollValue?
    ensures var n := Published(k, st) + pp.j;
            && ix.headers != [] && ix.Cur().c + k <= 64 && pp.j < |pp.chain| && ix.lo <= n < ix.top && Published(k, st) <= ix.Cur().tn
            && n in st.blockOf && st.blockOf[n] == pp.chain[pp.j] && n in ix.entryOf
            && Holds(ix, st, ix.entryOf[n], pp.chain[pp.j], n) && ix.lo <= ix.Cur().tn
            && (st.place[pp.chain[pp.j]].Live? || st.place[pp.chain[pp.j]].Draining?) && st.place[pp.chain[pp.j]].n == n
  {
    var n := Published(k, st) + pp.j;
    assert n in st.blockOf && st.blockOf[n] == pp.chain[pp.j];
    hide ShapeOk;
    assert BoundAt(ix, st, n);
  }

  /** The lookup for the block to take back: the tail is still at or after it, however far it has been rewound. */
  lemma RollFinds(k: nat, ix: Index, st: Store, pp: Producer)
    requires IndexOk(ix) && Bound(ix, st) && ShapeOk(k, ix, |st.log|, st.blockOf, st.values, st.place, pp) && pp.PRollValue?
    ensures var n := Published(k, st) + pp.j;
            && CanFind(ix, ix.Cur(), ix.Cur().tail, Base(n, Pow2(k)), k)
            && pp.j < |pp.chain| && n in st.blockOf && n in ix.entryOf
            && ix.Cur().index[Found(ix, ix.Cur(), ix.Cur().tail, Base(n, Pow2(k)), k)] == ix.entryOf[n]
            && Holds(ix, st, ix.entryOf[n], pp.chain[pp.j], n) && st.blockOf[n] == pp.chain[pp.j]
            && (st.place[pp.chain[pp.j]].Live? || st.place[pp.chain[pp.j]].Draining?) && st.place[pp.chain[pp.j]].n == n
  {
    hide IndexOk, Bound, ShapeOk, Holds;
    RollAt(k, ix, st, pp);
    var n := Published(k, st) + pp.j;
    CurCap(ix);
    InBlock(Base(n, Pow2(k)), n, Pow2(k));
    BlkPos(Base(n, Pow2(k)), Pow2(k));
    FindsBlock(k, ix, |ix.headers| - 1, Base(n, Pow2(k)), n, ix.Cur().tn);
  }

  lemma RollOne(blockOf: map<nat, BlockId>, place: seq<Place>, chain: seq<BlockId>, first: nat, j: nat)
    requires j < |chain| && Rolling(blockOf, place, chain, first, j) && chain[j] < |place|
    ensures Rolling(blockOf - {first + j}, place[chain[j] := Mine], chain, first, j + 1)
  {}

  lemma RollValueShape(k: nat, ix: Index, st: Store, pp: Producer, e: EntryId)
    requires Bound(ix, st) && ShapeOk(k, ix, |st.log|, st.blockOf, st.values, st.place, pp) && pp.PRollValue? && pp.j < |pp.chain|
    requires Holds(ix, st, e, pp.chain[pp.j], Published(k, st) + pp.j)
    ensures var st' := ClearBlock(st, e, pp.chain[pp.j], Published(k, st) + pp.j, Mine);
            ShapeOk(k, ix, |st.log|, st'.blockOf, st'.values, st'.place, PRollTail(pp.chain, pp.j))
  {
    hide Bound, Rolling, Pow2;
    RollOne(st.blockOf, st.place, pp.chain, Published(k, st), pp.j);
  }

  lemma RollAttended(place: seq<Place>, cs: seq<Consumer>, chain: seq<BlockId>, j: nat)
    requires AllAttended(place, PRollValue(chain, j), cs) && j < |chain| && chain[j] < |place|
    ensures AllAttended(place[chain[j] := Mine], PRollTail(chain, j), cs)
  {
    assert chain[..j + 1] == chain[..j] + [chain[j]];
    HandAttended(place, PRollValue(chain, j), PRollTail(chain, j), cs, chain[j], Mine);
  }

  lemma RollValueNext(s: State, e: EntryId)
    requires s.pp.PRollValue? && s.pp.j < |s.pp.chain| && s.pp.chain[s.pp.j] < |s.st.place| && s.ix.headers != [] && |s.st.values| == |s.ix.keys|
    requires var n := Published(s.k, s.st) + s.pp.j;
             CanFind(s.ix, s.ix.Cur(), s.ix.Cur().tail, Base(n, Pow2(s.k)), s.k)
             && e == s.ix.Cur().index[Found(s.ix, s.ix.Cur(), s.ix.Cur().tail, Base(n, Pow2(s.k)), s.k)] && e < |s.st.values|
    ensures GoReady(s)
    ensures GoNext(s) == s.(st := ClearBlock(s.st, e, s.pp.chain[s.pp.j], Published(s.k, s.st) + s.pp.j, Mine), pp := PRollTail(s.pp.chain, s.pp.j))
  {}

  lemma RollTailContent(k: nat, st: Store, chain: seq<BlockId>, j: nat)
    ensures ContentOk(k, st, PRollTail(chain, j))
  {}

  lemma RollValueInv(s: State)
    requires Inv(s) && s.pp.PRollValue?
    ensures GoReady(s) && Inv(GoNext(s))
  {
    hide IndexOk, Bound, Counted, Stored, Claimed, ShapeOk, Consumers, AllAttended, ContentOk, ConsumerOk, GoReady, GoNext;
    InvBasics(s);
    RollFinds(s.k, s.ix, s.st, s.pp);
    var PRollValue(chain, j) := s.pp;
    var n := Published(s.k, s.st) + j;
    var e := s.ix.entryOf[n];
    RollValueNext(s, e);
    ClearBound(s.ix, s.st, e, chain[j], n, Mine);
    ClearCounted(s.ix, s.st, Pow2(s.k), e, chain[j], n, Mine);
    RollStored(s.st, Pow2(s.k), e, chain[j], n);
    RollConsumers(s.k, s.ix, s.st, s.cs, e, chain[j], n);
    RollValueShape(s.k, s.ix, s.st, s.pp, e);
    RollTailContent(s.k, ClearBlock(s.st, e, chain[j], n, Mine), chain, j);
    RollAttended(s.st.place, s.cs, chain, j);
  }

  // ---- the tail goes back, and in the end the blocks go to the free list

  lemma RollTailShape(k: nat, ix: Index, st: Store, pp: Producer)
    requires ShapeOk(k, ix, |st.log|, st.blockOf, st.values, st.place, pp) && pp.PRollTail?
    ensures ShapeOk(k, Rewind(ix), |st.log|, st.blockOf, st.values, st.place, RollBack(pp.chain, pp.j + 1))
    ensures ix.Cur().tn >= 0 && ix.Cur().c <= 64 && Published(k, st) <= ix.Cur().tn && pp.j < |pp.chain|
  {
    hide Rewind;
    RewindTail(ix);
  }

  lemma RollTailKeeps(place: seq<Place>, chain: seq<BlockId>, j: nat)
    requires j < |chain|
    ensures Keeps(place, PRollTail(chain, j), RollBack(chain, j + 1))
  {}

  lemma RollTailInv(s: State)
    requires Inv(s) && s.pp.PRollTail?
    ensures GoReady(s) && Inv(GoNext(s))
  {
    hide IndexOk, Bound, Counted, Stored, Claimed, Consumers, AllAttended, OnlyTail, ShapeOk, Rewind, Keeps;
    InvBasics(s);
    var PRollTail(chain, j) := s.pp;
    RollTailShape(s.k, s.ix, s.st, s.pp);
    RewindTail(s.ix);
    RewindOk(s.ix);
    RollBackContent(s.k, s.st, chain, j + 1);
    RollTailKeeps(s.st.place, chain, j);
    SetTailInv(s, Rewind(s.ix), RollBack(chain, j + 1));
  }

  lemma RollFreeShape(k: nat, ix: Index, st: Store, pp: Producer)
    requires ShapeOk(k, ix, |st.log|, st.blockOf, st.values, st.place, pp) && pp.PRollFree?
    ensures pp.j < |pp.chain| && pp.chain[pp.j] < |st.place| && st.place[pp.chain[pp.j]].Mine?
    ensures ShapeOk(k, ix, |st.log|, st.blockOf, st.values, st.place[pp.chain[pp.j] := Free], FreeChain(pp.chain, pp.j + 1))
  {}

  lemma RollFreeKeeps(chain: seq<BlockId>, j: nat, x: BlockId)
    requires j < |chain| && x != chain[j] && InProducer(PRollFree(chain, j), x)
    ensures InProducer(FreeChain(chain, j + 1), x)
  {
    assert chain[j..] == [chain[j]] + chain[j + 1..];
  }

  lemma FreeContent(k: nat, st: Store, chain: seq<BlockId>, j: nat)
    ensures ContentOk(k, st, FreeChain(chain, j))
  {}

  lemma RollFreeInv(s: State)
    requires Inv(s) && s.pp.PRollFree?
    ensures GoReady(s) && Inv(GoNext(s))
  {
    hide IndexOk, Bound, Counted, Stored, Claimed, ShapeOk, Consumers, AllAttended, ContentOk, ConsumerOk, InProducer;
    var PRollFree(chain, j) := s.pp;
    RollFreeShape(s.k, s.ix, s.st, s.pp);
    var x := chain[j];
    FreeContent(s.k, Hand(s.st, x, Free), chain, j + 1);
    forall y | 0 <= y < |s.st.place| && y != x && s.st.place[y].Mine? && InProducer(s.pp, y) ensures InProducer(FreeChain(chain, j + 1), y) {
      RollFreeKeeps(chain, j, y);
    }
    HandInv(s, x, Free, FreeChain(chain, j + 1));
  }

  // ---------------------------------------------------------------- every step of the producer

  lemma TakeGoes(s: State)
    requires s.pp.PTake? && GoReady(s)
    ensures GoNext(s) == s.(pp := PNew(s.pp.xs, s.pp.chain, s.pp.e))
  {}

  lemma NewWaits(s: State)
    requires s.pp.PNew?
    ensures !GoReady(s)
  {}

  /** Whatever the producer does next, it can do it, and the invariant stays. */
  lemma GoInv(s: State)
    requires Inv(s) && !s.pp.PIdle?
    ensures !s.pp.PTake? && !s.pp.PNew? ==> GoReady(s)
    ensures Enabled(s, Go) ==> Inv(GoNext(s))
  {
    hide Inv, GoReady, GoNext;
    match s.pp {
      case PCheck(_, _) => CheckInv(s);
      case PGrow(_, _) => GrowInv(s);
      case PKey(_, _, _) => KeyInv(s);
      case PTail(_, _, _) => TailInv(s);
      case PTake(_, _, _) => if GoReady(s) { PoolEmptyInv(s); TakeGoes(s); }
      case PNew(_, _, _) => NewWaits(s);
      case PReset(_, _, _, _) => ResetInv(s);
      case PValue(_, _, _, _) => ValueInv(s);
      case PWrite(xs, _, j) => if j < |xs| { WriteInv(s); } else { PublishInv(s); }
      case PUndoTail(_, _) => UndoTailInv(s);
      case PUndoValue(_, _) => UndoValueInv(s);
      case PRollValue(_, _) => RollValueInv(s);
      case PRollTail(_, _) => RollTailInv(s);
      case PRollFree(_, _) => RollFreeInv(s);
    }
  }
}
