/**
  The implicit producer of concurrentqueue.h as a step machine: one producer thread running
  enqueue_bulk (enqueue is the bulk of one element), any number of consumer threads that take the
  elements they have claimed, and the rest of the program exchanging blocks with the pool.  Allocations
  draw on a fixed stream of answers of malloc.

  Every load, store and fetch_add of a shared word is a step.  A consumer claims elements below
  tailIndex in one step: that it can is the result of modules DequeueCounters and JointProtocol.
  A claim of no elements is what dequeue_bulk makes for max 0 when its guards have seen elements.  The block pool is a
  set of places: that the free list behaves like one is the result of module FreeListProtocol.  A block that
  was released but is kept off the list, until another thread has let go of it and links it, is with that
  thread: it is borrowed, and restored.
*/
module ImplicitProtocol {
  import opened Jobs
  import opened Options
  import opened Words
  import opened BlockIndex
  import opened BlockNumbers

  type Value = Socks
  type BlockId = nat
  type Tid = nat

  // ---------------------------------------------------------------- the state

  datatype Block = Block(cells: seq<Option<Value>>, emptied: nat)

  /** Where a block is: free, with the rest of the program, in the producer's hands, in the index, or with a consumer. */
  datatype Place =
    | Free | Elsewhere | Mine
    | Live(n: nat)
    | Draining(n: nat, who: Tid)   // all elements consumed: `who` is about to clear the entry
    | Returning(who: Tid)          // cleared: `who` is about to give it to the free list

  /**
    The shared words (values by entry, blocks, tailBlock, headIndex and, as `log`, the elements
    published so far, so that tailIndex is |log|) and auxiliary state: the block of every number
    in the index, the consumer of every claimed element that is not yet counted as consumed, the
    counted ones, and the elements that have been handed out.
   */
  datatype Store = Store(
    values: seq<Option<BlockId>>, blocks: seq<Block>, place: seq<Place>, tailBlock: Option<BlockId>,
    head: nat, log: seq<Value>,
    blockOf: map<nat, BlockId>, owner: map<nat, Tid>, done: set<nat>, delivered: map<nat, Value>)

  /** What a consumer does next.  It holds [first, first + count); before `seg` all is counted, before `pos` all is read. */
  datatype Consumer = Idle | Busy(first: nat, count: nat, seg: nat, pos: nat, at: Stage)

  /** Header number h and slot are locals of the code; p is auxiliary: the block that the tail stood for. */
  datatype Stage =
    | LoadIndex
    | LoadTail(h: nat)
    | LoadKey(h: nat, tail: nat, p: nat)
    | LoadValue(h: nat, slot: nat)
    | Read(h: nat, slot: nat, b: BlockId)
    | Count(h: nat, slot: nat, b: BlockId)
    | Clear(h: nat, slot: nat, b: BlockId, n: nat)
    | Release(h: nat, slot: nat, b: BlockId)

  /** What the producer does next.  `chain` holds the blocks from firstAllocatedBlock on. */
  datatype Producer =
    | PIdle
    | PCheck(xs: seq<Value>, chain: seq<BlockId>)
    | PGrow(xs: seq<Value>, chain: seq<BlockId>)
    | PKey(xs: seq<Value>, chain: seq<BlockId>, e: EntryId)
    | PTail(xs: seq<Value>, chain: seq<BlockId>, e: EntryId)
    | PTake(xs: seq<Value>, chain: seq<BlockId>, e: EntryId)   // the initial pool and the free list
    | PNew(xs: seq<Value>, chain: seq<BlockId>, e: EntryId)    // create<Block>(): they were empty
    | PReset(xs: seq<Value>, chain: seq<BlockId>, e: EntryId, b: BlockId)
    | PValue(xs: seq<Value>, chain: seq<BlockId>, e: EntryId, b: BlockId)
    | PWrite(xs: seq<Value>, chain: seq<BlockId>, j: nat)
    | PUndoTail(chain: seq<BlockId>, e: EntryId)
    | PUndoValue(chain: seq<BlockId>, e: EntryId)
    | PRollValue(chain: seq<BlockId>, j: nat)
    | PRollTail(chain: seq<BlockId>, j: nat)
    | PRollFree(chain: seq<BlockId>, j: nat)

  /** Blocks hold 2^k elements; malloc(i) says whether the i-th allocation succeeds, and there have been `calls` of them. */
  datatype State = State(k: nat, ix: Index, st: Store, pp: Producer, cs: seq<Consumer>, malloc: nat -> bool, calls: nat)

  /** How many blocks the published elements take. */
  function Published(k: nat, st: Store): nat { Blocks(|st.log|, Pow2(k)) }

  datatype Action =
    | Start(xs: seq<Value>)     // enqueue_bulk is called
    | Go                        // the producer goes on
    | Fail                      // the queue is full, or malloc fails
    | Take(b: BlockId)          // requisition_block returns a free block, or a new one
    | ClaimRange(t: Tid, count: nat)
    | Step(t: Tid)              // consumer t goes on
    | Borrow(b: BlockId)        // another producer takes a free block
    | Restore(b: BlockId)       // another producer's block becomes free

  /** How many blocks the queue takes once xs is published; the loop allocates until it has them. */
  function Wanted(k: nat, st: Store, xs: seq<Value>): nat { Blocks(|st.log| + |xs|, Pow2(k)) }

  function AfterChain(k: nat, st: Store, xs: seq<Value>, chain: seq<BlockId>): Producer {
    if Published(k, st) + |chain| < Wanted(k, st, xs) then PCheck(xs, chain) else PWrite(xs, chain, 0)
  }

  function RollBack(chain: seq<BlockId>, j: nat): Producer {
    if j < |chain| then PRollValue(chain, j) else FreeChain(chain, 0)
  }

  function FreeChain(chain: seq<BlockId>, j: nat): Producer {
    if j < |chain| then PRollFree(chain, j) else PIdle
  }

  /** The block that index i is written to: the old tail block, or the chain. */
  function Target(k: nat, st: Store, chain: seq<BlockId>, i: nat): Option<BlockId> {
    var n := Blk(i, Pow2(k));
    if n < Published(k, st) then st.tailBlock
    else if n - Published(k, st) < |chain| then Some(chain[n - Published(k, st)])
    else None
  }

  function EndOf(c: Consumer, b: nat): nat
    requires c.Busy? && b > 0
  {
    var stop := Base(Blk(c.seg, b), b) + b;
    if c.first + c.count < stop then c.first + c.count else stop
  }

  /** The consumer goes on after the part in one block is done: (indexIndex + 1) & (capacity - 1). */
  function NextPart(c: Consumer, h: Header, hn: nat, slot: nat): Consumer
    requires c.Busy?
  {
    if c.pos == c.first + c.count then Idle
    else Busy(c.first, c.count, c.pos, c.pos, LoadValue(hn, And(slot + 1, h.Cap() - 1)))
  }

  // ---------------------------------------------------------------- what a step needs of the state

  /** Nothing a step dereferences is missing.  (Every reachable state has this.) */
  predicate GoReady(s: State) {
    match s.pp
    case PIdle => false
    case PCheck(_, _) => InsertReady(s.ix, s.st)
    case PGrow(_, _) => s.ix.headers != [] && |s.ix.Cur().index| == s.ix.Cur().Cap()
    case PKey(_, _, e) => InsertReady(s.ix, s.st)
    case PTail(_, _, _) => s.ix.headers != []
    case PTake(_, _, _) => NoneFree(s.st.place)
    case PNew(_, _, _) => false
    case PReset(_, _, _, b) => b < |s.st.blocks|
    case PValue(_, _, e, b) => e < |s.st.values| && b < |s.st.place| && s.ix.headers != [] && s.ix.Cur().tn >= 0
    case PWrite(xs, chain, j) =>
      j < |xs| ==>
        var i := |s.st.log| + j;
        var b := Target(s.k, s.st, chain, i);
        b.Some? && b.value < |s.st.blocks| && Pos(i, Pow2(s.k)) < |s.st.blocks[b.value].cells|
    case PUndoTail(_, _) => s.ix.headers != []
    case PUndoValue(_, e) => e < |s.st.values|
    case PRollValue(chain, j) =>
      && j < |chain| && chain[j] < |s.st.place| && s.ix.headers != [] && |s.st.values| == |s.ix.keys|
      && CanFind(s.ix, s.ix.Cur(), s.ix.Cur().tail, Base(Published(s.k, s.st) + j, Pow2(s.k)), s.k)
    case PRollTail(_, _) => s.ix.headers != []
    case PRollFree(chain, j) => j < |chain| && chain[j] < |s.st.place|
  }

  predicate InsertReady(ix: Index, st: Store) {
    && ix.headers != [] && NewTail(ix.Cur()) < |ix.Cur().index| && Candidate(ix) < |ix.keys|
    && |st.values| == |ix.keys| && NextBlock(ix) >= 0
  }

  /** The steps in which a consumer only loads shared words: what they dereference. */
  predicate LoadReady(k: nat, ix: Index, st: Store, c: Consumer)
    requires c.Busy?
  {
    match c.at
    case LoadIndex => ix.headers != []
    case LoadTail(h) => h < |ix.headers| && ix.headers[h].tn >= 0
    case LoadKey(h, tail, _) => h < |ix.headers| && CanFind(ix, ix.headers[h], tail, c.seg, k)
    case LoadValue(h, slot) =>
      h < |ix.headers| && slot < |ix.headers[h].index| && ix.headers[h].index[slot] < |st.values| && st.values[ix.headers[h].index[slot]].Some?
    case _ => false
  }

  /** Where the consumer is after such a step. */
  function Loaded(k: nat, ix: Index, st: Store, c: Consumer): Consumer
    requires c.Busy? && LoadReady(k, ix, st, c)
  {
    match c.at
    case LoadIndex => At(c, LoadTail(|ix.headers| - 1))
    case LoadTail(h) => At(c, LoadKey(h, ix.headers[h].tail, ix.headers[h].tn))
    case LoadKey(h, tail, _) => At(c, LoadValue(h, Found(ix, ix.headers[h], tail, c.seg, k)))
    case LoadValue(h, slot) => At(c, Read(h, slot, st.values[ix.headers[h].index[slot]].value))
  }

  function At(c: Consumer, g: Stage): Consumer
    requires c.Busy?
  {
    c.(at := g)
  }

  predicate StepReady(s: State, t: Tid) {
    && t < |s.cs| && s.cs[t].Busy?
    && var c := s.cs[t];
    match c.at
    case Read(h, _, b) =>
      && h < |s.ix.headers| && b < |s.st.blocks|
      && (c.pos < EndOf(c, Pow2(s.k)) ==> Pos(c.pos, Pow2(s.k)) < |s.st.blocks[b].cells| && s.st.blocks[b].cells[Pos(c.pos, Pow2(s.k))].Some?)
    case Count(h, _, b) => h < |s.ix.headers| && b < |s.st.blocks| && b < |s.st.place| && c.seg <= c.pos
    case Clear(h, slot, b, _) =>
      h < |s.ix.headers| && slot < |s.ix.headers[h].index| && s.ix.headers[h].index[slot] < |s.st.values| && b < |s.st.place|
    case Release(h, _, b) => h < |s.ix.headers| && b < |s.st.place|
    case _ => LoadReady(s.k, s.ix, s.st, c)
  }

  predicate NoneFree(place: seq<Place>) { forall x | 0 <= x < |place| :: !place[x].Free? }

  /** The test of the code for one more block: the queue would not be full with it. */
  predicate Space(s: State)
    requires s.pp.PCheck?
  {
    CircularLess(Img(s.st.head), Img(Base(Published(s.k, s.st) + |s.pp.chain|, Pow2(s.k)) + Pow2(s.k)))
  }

  /** The step calls malloc.  (An index of more than 2^64 / BLOCK_SIZE slots is not to be had.) */
  predicate AsksMalloc(s: State, a: Action) { (s.pp.PGrow? && (a.Go? || a.Fail?)) || (s.pp.PNew? && (a.Take? || a.Fail?)) }

  predicate Enabled(s: State, a: Action) {
    match a
    case Start(_) => s.pp.PIdle?
    case Go => GoReady(s) && (s.pp.PCheck? ==> Space(s)) && (s.pp.PGrow? ==> s.malloc(s.calls) && s.k + s.ix.Cur().c < 64)
    case Fail =>
      || (s.pp.PCheck? && !Space(s))
      || (s.pp.PGrow? && s.ix.headers != [] && !(s.malloc(s.calls) && s.k + s.ix.Cur().c < 64))
      || (s.pp.PNew? && !s.malloc(s.calls))
    case Take(b) =>
      && |s.st.blocks| == |s.st.place|
      && if s.pp.PTake? then b < |s.st.blocks| && s.st.place[b].Free? else s.pp.PNew? && b == |s.st.blocks| && s.malloc(s.calls)
    case ClaimRange(t, count) =>
      t < |s.cs| && s.cs[t].Idle? && s.st.head + count <= |s.st.log| && (count == 0 ==> s.st.log != [])
    case Step(t) => StepReady(s, t)
    case Borrow(b) => b < |s.st.place| && s.st.place[b].Free?
    case Restore(b) => b < |s.st.place| && s.st.place[b].Elsewhere?
  }

  // ---------------------------------------------------------------- the steps

  function GoNext(s: State): State
    requires GoReady(s)
  {
    var st := s.st;
    match s.pp
    case PCheck(xs, chain) =>
      var e := Candidate(s.ix);
      s.(pp := if s.ix.keys[e] == None || st.values[e] == None then PKey(xs, chain, e) else PGrow(xs, chain))
    case PGrow(xs, chain) =>
      var ix' := Grow(s.ix);
      s.(ix := ix', st := st.(values := st.values + seq(s.ix.Cur().Cap(), _ => None)),
         pp := PKey(xs, chain, |s.ix.keys|))
    case PKey(xs, chain, e) => s.(ix := StoreKey(s.ix), pp := PTail(xs, chain, e))
    case PTail(xs, chain, e) => s.(ix := StoreTail(s.ix), pp := PTake(xs, chain, e))
    case PTake(xs, chain, e) => s.(pp := PNew(xs, chain, e))
    case PReset(xs, chain, e, b) =>
      s.(st := st.(blocks := st.blocks[b := st.blocks[b].(emptied := 0)]), pp := PValue(xs, chain, e, b))
    case PValue(xs, chain, e, b) =>
      var n := s.ix.Cur().tn;
      s.(st := st.(values := st.values[e := Some(b)], place := st.place[b := Live(n)], blockOf := st.blockOf[n := b]),
         pp := AfterChain(s.k, s.st, xs, chain + [b]))
    case PWrite(xs, chain, j) =>
      if j < |xs| then
        var i := |st.log| + j;
        var b := Target(s.k, s.st, chain, i).value;
        s.(st := SetCell(st, b, Pos(i, Pow2(s.k)), Some(xs[j])), pp := PWrite(xs, chain, j + 1))
      else
        s.(st := st.(log := st.log + xs, tailBlock := if chain == [] then st.tailBlock else Some(chain[|chain| - 1])), pp := PIdle)
    case PUndoTail(chain, e) => s.(ix := Rewind(s.ix), pp := PUndoValue(chain, e))
    case PUndoValue(chain, e) => s.(st := st.(values := st.values[e := None]), pp := RollBack(chain, 0))
    case PRollValue(chain, j) =>
      var n := Published(s.k, s.st) + j;
      var h := s.ix.Cur();
      var e := h.index[Found(s.ix, h, h.tail, Base(n, Pow2(s.k)), s.k)];
      s.(st := st.(values := st.values[e := None], place := st.place[chain[j] := Mine], blockOf := st.blockOf - {n}),
         pp := PRollTail(chain, j))
    case PRollTail(chain, j) => s.(ix := Rewind(s.ix), pp := RollBack(chain, j + 1))
    case PRollFree(chain, j) => s.(st := st.(place := st.place[chain[j] := Free]), pp := FreeChain(chain, j + 1))
  }

  function SetCell(st: Store, b: BlockId, p: nat, v: Option<Value>): Store
    requires b < |st.blocks| && p < |st.blocks[b].cells|
  {
    st.(blocks := st.blocks[b := st.blocks[b].(cells := st.blocks[b].cells[p := v])])
  }

  function FailNext(s: State): State
    requires s.pp.PCheck? || s.pp.PGrow? || s.pp.PNew?
  {
    match s.pp
    case PCheck(_, chain) => s.(pp := RollBack(chain, 0))
    case PGrow(_, chain) => s.(pp := RollBack(chain, 0))
    case PNew(_, chain, e) => s.(pp := PUndoTail(chain, e))
  }

  function TakeNext(s: State, b: BlockId): State
    requires (s.pp.PTake? || s.pp.PNew?) && b <= |s.st.blocks| == |s.st.place|
  {
    var st := if b < |s.st.blocks| then s.st.(place := s.st.place[b := Mine])
              else s.st.(blocks := s.st.blocks + [Block(seq(Pow2(s.k), _ => None), 0)], place := s.st.place + [Mine]);
    s.(st := st, pp := PReset(s.pp.xs, s.pp.chain, s.pp.e, b))
  }

  function ClaimNext(s: State, t: Tid, count: nat): State
    requires t < |s.cs|
  {
    var first := s.st.head;
    s.(st := s.st.(head := first + count, owner := s.st.owner + Owned(first, first + count, t)),
       cs := s.cs[t := Busy(first, count, first, first, LoadIndex)])
  }

  /** The indices lo .. hi. */
  function Range(lo: nat, hi: nat): (r: set<nat>)
    ensures forall i: nat :: i in r <==> lo <= i < hi
    decreases hi - lo
  {
    if lo < hi then {lo} + Range(lo + 1, hi) else {}
  }

  function Owned(lo: nat, hi: nat, t: Tid): (m: map<nat, Tid>)
    ensures forall i: nat :: i in m <==> lo <= i < hi
    ensures forall i: nat | i in m :: m[i] == t
    decreases hi - lo
  {
    if lo < hi then Owned(lo + 1, hi, t)[lo := t] else map[]
  }

  function StepNext(s: State, t: Tid): State
    requires StepReady(s, t)
  {
    var st := s.st;
    var c := s.cs[t];
    match c.at
    case Read(h, slot, b) =>
      if c.pos < EndOf(c, Pow2(s.k)) then
        var p := Pos(c.pos, Pow2(s.k));
        s.(st := SetCell(st, b, p, None).(delivered := st.delivered[c.pos := st.blocks[b].cells[p].value]),
           cs := s.cs[t := c.(pos := c.pos + 1)])
      else s.(cs := s.cs[t := At(c, Count(h, slot, b))])
    case Count(h, slot, b) =>
      var total := st.blocks[b].emptied + (c.pos - c.seg);
      var part := Range(c.seg, c.pos);
      var st1 := st.(blocks := st.blocks[b := st.blocks[b].(emptied := total)], owner := st.owner - part, done := st.done + part);
      if total == Pow2(s.k) then
        var n := Blk(c.seg, Pow2(s.k));
        s.(st := st1.(place := st.place[b := Draining(n, t)]), cs := s.cs[t := Busy(c.first, c.count, c.pos, c.pos, Clear(h, slot, b, n))])
      else s.(st := st1, cs := s.cs[t := NextPart(c, s.ix.headers[h], h, slot)])
    case Clear(h, slot, b, n) =>
      s.(st := st.(values := st.values[s.ix.headers[h].index[slot] := None], place := st.place[b := Returning(t)], blockOf := st.blockOf - {n}),
         cs := s.cs[t := At(c, Release(h, slot, b))])
    case Release(h, slot, b) =>
      s.(st := st.(place := st.place[b := Free]), cs := s.cs[t := NextPart(c, s.ix.headers[h], h, slot)])
    case _ => s.(cs := s.cs[t := Loaded(s.k, s.ix, s.st, c)])
  }

  function Next(s: State, a: Action): State
    requires Enabled(s, a)
  {
    Moved(s, a).(calls := if AsksMalloc(s, a) then s.calls + 1 else s.calls)
  }

  function Moved(s: State, a: Action): State
    requires Enabled(s, a)
  {
    match a
    case Start(xs) => s.(pp := AfterChain(s.k, s.st, xs, []))
    case Go => GoNext(s)
    case Fail => FailNext(s)
    case Take(b) => TakeNext(s, b)
    case ClaimRange(t, count) => ClaimNext(s, t, count)
    case Step(t) => StepNext(s, t)
    case Borrow(b) => s.(st := s.st.(place := s.st.place[b := Elsewhere]))
    case Restore(b) => s.(st := s.st.(place := s.st.place[b := Free]))
  }

  // ---------------------------------------------------------------- the invariant

  /** How many of the len indices from lo on are in `done`. */
  function CountIn(done: set<nat>, lo: nat, len: nat): nat {
    if len == 0 then 0 else CountIn(done, lo, len - 1) + if lo + len - 1 in done then 1 else 0
  }

  /** The index and the blocks agree: a block in the index is where the index says, and no other block is. */
  ghost predicate Bound(ix: Index, st: Store) {
    && |st.values| == |ix.keys| && |st.place| == |st.blocks|
    && (forall n <- st.blockOf :: BoundAt(ix, st, n))
    && (forall e | 0 <= e < |st.values| && st.values[e].Some? ::
          ix.keys[e].Some? && ix.keys[e].value in st.blockOf && ix.entryOf[ix.keys[e].value] == e)
    && (forall b | 0 <= b < |st.place| :: PlaceAt(st, b))
  }

  ghost predicate BoundAt(ix: Index, st: Store, n: nat)
    requires n in st.blockOf
  {
    && ix.lo <= n < ix.top && n in ix.entryOf
    && ix.entryOf[n] < |st.values| && st.values[ix.entryOf[n]] == Some(st.blockOf[n])
    && st.blockOf[n] < |st.place|
    && (st.place[st.blockOf[n]].Live? || st.place[st.blockOf[n]].Draining?) && st.place[st.blockOf[n]].n == n
  }

  ghost predicate PlaceAt(st: Store, b: BlockId)
    requires b < |st.place|
  {
    st.place[b].Live? || st.place[b].Draining? ==> st.place[b].n in st.blockOf && st.blockOf[st.place[b].n] == b
  }

  /** The counter of every block in the index counts its consumed elements; a block that is all consumed is being drained. */
  ghost predicate Counted(st: Store, b: nat) {
    && (forall x | 0 <= x < |st.blocks| :: |st.blocks[x].cells| == b)
    && (forall n <- st.blockOf :: CountedAt(st, b, n))
  }

  ghost predicate CountedAt(st: Store, b: nat, n: nat)
    requires n in st.blockOf
  {
    && st.blockOf[n] < |st.blocks| && st.blockOf[n] < |st.place|
    && st.blocks[st.blockOf[n]].emptied == CountIn(st.done, Base(n, b), b)
    && (st.place[st.blockOf[n]].Draining? <==> st.blocks[st.blockOf[n]].emptied == b)
  }

  /** Every claimed element has a consumer until it is counted; what was handed out is what was enqueued there. */
  ghost predicate Claimed(st: Store) {
    && st.head <= |st.log|
    && (forall i <- st.done :: i in st.delivered && i !in st.owner)
    && (forall i <- st.delivered :: i < st.head && st.delivered[i] == st.log[i])
    && (forall i <- st.owner :: i < st.head)
    && (forall i: nat | i < st.head :: i in st.owner || i in st.done)
  }

  /** A block stays in the index until all its elements are counted, and holds the elements not handed out. */
  ghost predicate Stored(st: Store, b: nat, published: nat)
    requires b > 0
  {
    && (forall i: nat | Blk(i, b) < published && i !in st.done :: Blk(i, b) in st.blockOf)
    && (forall i: nat | i < |st.log| && i !in st.delivered :: CellIs(st, b, i, st.log[i]))
    && (Pos(|st.log|, b) != 0 ==> Blk(|st.log|, b) in st.blockOf && st.tailBlock == Some(st.blockOf[Blk(|st.log|, b)]))
  }

  ghost predicate CellIs(st: Store, b: nat, i: nat, v: Value)
    requires b > 0
  {
    && Blk(i, b) in st.blockOf && st.blockOf[Blk(i, b)] < |st.blocks|
    && Pos(i, b) < |st.blocks[st.blockOf[Blk(i, b)]].cells|
    && st.blocks[st.blockOf[Blk(i, b)]].cells[Pos(i, b)] == Some(v)
  }

  // ---- the producer

  /** The chain is in the index under the block numbers from `first` on. */
  ghost predicate Chained(blockOf: map<nat, BlockId>, chain: seq<BlockId>, first: nat, from: nat) {
    forall n | first + from <= n < first + |chain| :: n in blockOf && blockOf[n] == chain[n - first]
  }

  /** The blocks `chain[lo..hi]` are in the producer's hands, and distinct. */
  ghost predicate InHand(place: seq<Place>, chain: seq<BlockId>, lo: nat, hi: nat) {
    && (forall j | lo <= j < hi && j < |chain| :: chain[j] < |place| && place[chain[j]].Mine?)
    && (forall i, j | 0 <= i < j < |chain| :: chain[i] != chain[j])
  }

  /** The blocks in the index are published or in the chain. */
  ghost predicate OnlyChain(blockOf: map<nat, BlockId>, first: nat, len: nat) { forall n <- blockOf :: n < first + len }

  ghost predicate ProducerOk(k: nat, ix: Index, st: Store, pp: Producer) {
    ShapeOk(k, ix, |st.log|, st.blockOf, st.values, st.place, pp) && ContentOk(k, st, pp)
  }

  /** The index tail, the chain and the entry in the producer's hands, with len elements published. */
  ghost predicate ShapeOk(k: nat, ix: Index, len: nat, blockOf: map<nat, BlockId>, values: seq<Option<BlockId>>, place: seq<Place>, pp: Producer) {
    && ix.headers != []
    && var first, tn := Blocks(len, Pow2(k)), ix.Cur().tn;
    && ix.lo <= first && first - 1 <= tn && ix.Cur().c + k <= 64
    && match pp
       case PIdle => tn + 1 == first && OnlyChain(blockOf, first, 0)
       case PCheck(xs, chain) => Building(k, len, blockOf, tn + 1, xs, chain)
       case PGrow(xs, chain) => Building(k, len, blockOf, tn + 1, xs, chain) && tn + 1 == ix.top
       case PKey(xs, chain, e) =>
         && Building(k, len, blockOf, tn + 1, xs, chain)
         && NewTail(ix.Cur()) < |ix.Cur().index| && e == Candidate(ix) && e < |values| && values[e] == None
       case PTail(xs, chain, e) => Building(k, len, blockOf, tn + 1, xs, chain) && HasEntry(ix, values, tn + 1, e)
       case PTake(xs, chain, e) => Building(k, len, blockOf, tn, xs, chain) && HasEntry(ix, values, tn, e)
       case PNew(xs, chain, e) => Building(k, len, blockOf, tn, xs, chain) && HasEntry(ix, values, tn, e)
       case PReset(xs, chain, e, b) => Building(k, len, blockOf, tn, xs, chain) && HasEntry(ix, values, tn, e) && b < |place| && place[b].Mine?
       case PValue(xs, chain, e, b) => Building(k, len, blockOf, tn, xs, chain) && HasEntry(ix, values, tn, e) && b < |place| && place[b].Mine?
       case PWrite(xs, chain, j) =>
         tn + 1 == first + |chain| == Blocks(len + |xs|, Pow2(k)) && j <= |xs| && Chained(blockOf, chain, first, 0) && OnlyChain(blockOf, first, |chain|)
       case PUndoTail(chain, e) =>
         tn == first + |chain| && Chained(blockOf, chain, first, 0) && OnlyChain(blockOf, first, |chain|) && HasEntry(ix, values, tn, e)
       case PUndoValue(chain, e) =>
         tn + 1 == first + |chain| && Chained(blockOf, chain, first, 0) && OnlyChain(blockOf, first, |chain|) && e < |values| && values[e] == None
       case PRollValue(chain, j) => j < |chain| && tn + 1 == first + |chain| - j && Rolling(blockOf, place, chain, first, j)
       case PRollTail(chain, j) => j < |chain| && tn + 1 == first + |chain| - j && Rolling(blockOf, place, chain, first, j + 1)
       case PRollFree(chain, j) => j < |chain| && tn + 1 == first && OnlyChain(blockOf, first, 0) && InHand(place, chain, j, |chain|)
  }

  /** More blocks are wanted; `next` is the number of the one being inserted. */
  ghost predicate Building(k: nat, len: nat, blockOf: map<nat, BlockId>, next: int, xs: seq<Value>, chain: seq<BlockId>) {
    var first := Blocks(len, Pow2(k));
    next == first + |chain| < Blocks(len + |xs|, Pow2(k)) && Chained(blockOf, chain, first, 0) && OnlyChain(blockOf, first, |chain|)
  }

  /** The first j blocks of the chain are out of the index again and in the producer's hands. */
  ghost predicate Rolling(blockOf: map<nat, BlockId>, place: seq<Place>, chain: seq<BlockId>, first: nat, j: nat) {
    && Chained(blockOf, chain, first, j) && InHand(place, chain, 0, j) && OnlyChain(blockOf, first, |chain|)
    && (forall n | first <= n < first + j :: n !in blockOf)
  }

  /** Entry e is the one of block n, and is empty. */
  ghost predicate HasEntry(ix: Index, values: seq<Option<BlockId>>, n: int, e: EntryId) {
    && ix.lo <= n < ix.top && n in ix.entryOf && ix.entryOf[n] == e && e < |values| && values[e] == None
  }

  /** What the producer has done to the blocks it holds. */
  ghost predicate ContentOk(k: nat, st: Store, pp: Producer) {
    match pp
    case PReset(_, _, _, b) => b < |st.blocks|
    case PValue(_, _, _, b) => b < |st.blocks| && st.blocks[b].emptied == 0
    case PWrite(xs, _, j) => forall i | 0 <= i < j && i < |xs| :: CellIs(st, Pow2(k), |st.log| + i, xs[i])
    case _ => true
  }

  // ---- the consumers

  ghost predicate ConsumerOk(k: nat, ix: Index, st: Store, c: Consumer, t: Tid) {
    c.Busy? ==> RangeOk(st, c, t) && StageOk(k, ix, st, c, t)
  }

  /** What consumer t has claimed is its own until it is counted; it has read exactly what lies before `pos`. */
  ghost predicate RangeOk(st: Store, c: Consumer, t: Tid)
    requires c.Busy?
  {
    && 0 < c.count && c.first <= c.seg <= c.pos <= c.first + c.count <= st.head
    && (forall i: nat | c.seg <= i < c.first + c.count :: i in st.owner && st.owner[i] == t)
    && (forall i: nat | c.seg <= i < c.pos :: i in st.delivered)
    && (forall i: nat | c.pos <= i < c.first + c.count :: i !in st.delivered)
  }

  /** The number of the last block of the claim. */
  function LastBlock(c: Consumer, b: nat): nat
    requires c.Busy? && b > 0 && c.count > 0
  {
    Blk(c.first + c.count - 1, b)
  }

  ghost predicate StageOk(k: nat, ix: Index, st: Store, c: Consumer, t: Tid)
    requires c.Busy? && c.count > 0
  {
    var b := Pow2(k);
    match c.at
    case LoadIndex => c.seg == c.pos == c.first
    case LoadTail(h) => c.seg == c.pos == c.first && Knows(k, ix, c, h) && LastBlock(c, b) <= ix.headers[h].tn
    case LoadKey(h, tail, p) =>
      c.seg == c.pos == c.first && Knows(k, ix, c, h) && tail == ix.headers[h].SlotOf(p) && LastBlock(c, b) <= p < ix.headers[h].hi
    case LoadValue(h, slot) => c.seg == c.pos < c.first + c.count && Knows(k, ix, c, h) && slot == ix.headers[h].SlotOf(Blk(c.seg, b))
    case Read(h, slot, x) => c.seg < c.first + c.count && Knows(k, ix, c, h) && HasBlock(ix, st, c, b, h, slot, x) && c.pos <= EndOf(c, b)
    case Count(h, slot, x) => c.seg < c.first + c.count && Knows(k, ix, c, h) && HasBlock(ix, st, c, b, h, slot, x) && c.pos == EndOf(c, b)
    case Clear(h, slot, x, n) =>
      && AtEnd(c, b, n) && Knows(k, ix, c, h) && slot == ix.headers[h].SlotOf(n) && n < ix.headers[h].hi
      && n in st.blockOf && st.blockOf[n] == x && x < |st.place| && st.place[x] == Draining(n, t)
    case Release(h, slot, x) =>
      && c.seg > 0 && AtEnd(c, b, Blk(c.seg - 1, b)) && Knows(k, ix, c, h) && slot == ix.headers[h].SlotOf(Blk(c.seg - 1, b))
      && x < |st.place| && st.place[x] == Returning(t)
  }

  /** Header h knows the blocks of the claim. */
  ghost predicate Knows(k: nat, ix: Index, c: Consumer, h: nat)
    requires c.Busy? && c.count > 0
  {
    h < |ix.headers| && LastBlock(c, Pow2(k)) < ix.headers[h].hi && k + ix.headers[h].c <= 64
  }

  ghost predicate HasBlock(ix: Index, st: Store, c: Consumer, b: nat, h: nat, slot: nat, x: BlockId)
    requires c.Busy? && h < |ix.headers| && b > 0
  {
    var n := Blk(c.seg, b);
    slot == ix.headers[h].SlotOf(n) && n in st.blockOf && st.blockOf[n] == x
  }

  /** The part that has just been counted ended block n, or the claim. */
  ghost predicate AtEnd(c: Consumer, b: nat, n: nat)
    requires c.Busy? && b > 0
  {
    c.seg == c.pos && c.seg > 0 && Blk(c.seg - 1, b) == n && (c.seg < c.first + c.count ==> Blk(c.seg, b) == n + 1)
  }

  ghost predicate Consumers(k: nat, ix: Index, st: Store, cs: seq<Consumer>) {
    forall t | 0 <= t < |cs| :: ConsumerOk(k, ix, st, cs[t], t)
  }

  /** A block on its way is in somebody's hands, who will see to it. */
  ghost predicate Attended(p: Place, pp: Producer, cs: seq<Consumer>, x: BlockId) {
    match p
    case Draining(_, t) => t < |cs| && cs[t].Busy? && cs[t].at.Clear? && cs[t].at.b == x
    case Returning(t) => t < |cs| && cs[t].Busy? && cs[t].at.Release? && cs[t].at.b == x
    case Mine => InProducer(pp, x)
    case _ => true
  }

  predicate InProducer(p: Producer, x: BlockId) {
    match p
    case PReset(_, _, _, b) => b == x
    case PValue(_, _, _, b) => b == x
    case PRollValue(chain, j) => j <= |chain| && x in chain[..j]
    case PRollTail(chain, j) => j < |chain| && x in chain[..j + 1]
    case PRollFree(chain, j) => j <= |chain| && x in chain[j..]
    case _ => false
  }

  ghost predicate AllAttended(place: seq<Place>, pp: Producer, cs: seq<Consumer>) {
    forall x | 0 <= x < |place| :: Attended(place[x], pp, cs, x)
  }

  ghost predicate Inv(s: State) {
    && IndexOk(s.ix)
    && Bound(s.ix, s.st)
    && Counted(s.st, Pow2(s.k))
    && Claimed(s.st)
    && Stored(s.st, Pow2(s.k), Published(s.k, s.st))
    && ProducerOk(s.k, s.ix, s.st, s.pp)
    && Consumers(s.k, s.ix, s.st, s.cs)
    && AllAttended(s.st.place, s.pp, s.cs)
  }

  // ---------------------------------------------------------------- what a consumer survives

  /** Headers stay, know more, and their tails do not fall behind the published blocks. */
  ghost predicate IndexFrame(ix: Index, ix': Index, published: nat) {
    && |ix.headers| <= |ix'.headers|
    && forall i | 0 <= i < |ix.headers| ::
         && ix'.headers[i].c == ix.headers[i].c && ix'.headers[i].off == ix.headers[i].off && ix.headers[i].hi <= ix'.headers[i].hi
         && (ix'.headers[i].tn == ix.headers[i].tn || published - 1 <= ix'.headers[i].tn)
  }

  /** What consumer c relies on in the store stays. */
  ghost predicate StoreFrame(st: Store, st': Store, c: Consumer, b: nat)
    requires b > 0
  {
    c.Busy? ==>
      && st.head <= st'.head
      && (forall i: nat | c.seg <= i < c.first + c.count && i in st.owner :: i in st'.owner && st'.owner[i] == st.owner[i])
      && (forall i: nat | c.seg <= i < c.first + c.count :: i in st.delivered <==> i in st'.delivered)
      && (c.at.Read? || c.at.Count? ==> BlockFrame(st, st', Blk(c.seg, b)))
      && (c.at.Clear? ==> BlockFrame(st, st', c.at.n))
      && (c.at.Clear? || c.at.Release? ==> c.at.b < |st.place| ==> c.at.b < |st'.place| && st'.place[c.at.b] == st.place[c.at.b])
  }

  ghost predicate BlockFrame(st: Store, st': Store, n: nat) {
    n in st.blockOf ==> n in st'.blockOf && st'.blockOf[n] == st.blockOf[n]
  }

  /** The last block of a claim is published. */
  lemma LastPublished(c: Consumer, head: nat, log: nat, b: nat)
    requires c.Busy? && c.count > 0 && b > 0 && c.first + c.count <= head <= log
    ensures LastBlock(c, b) < Blocks(log, b)
    ensures forall i: nat | i < c.first + c.count :: Blk(i, b) <= LastBlock(c, b)
  {
    var last := c.first + c.count - 1;
    BlkMonotone(last, log - 1, b);
    forall i: nat | i < c.first + c.count ensures Blk(i, b) <= LastBlock(c, b) { BlkMonotone(i, last, b); }
  }

  lemma StageFrame(k: nat, ix: Index, ix': Index, st: Store, st': Store, c: Consumer, t: Tid, published: nat)
    requires c.Busy? && c.count > 0 && StageOk(k, ix, st, c, t) && LastBlock(c, Pow2(k)) < published
    requires IndexFrame(ix, ix', published) && StoreFrame(st, st', c, Pow2(k))
    ensures StageOk(k, ix', st', c, t)
  {
    hide Pow2, Blk, Slot, AtEnd, EndOf, LastBlock;
  }

  lemma ConsumerFrame(k: nat, ix: Index, ix': Index, st: Store, st': Store, c: Consumer, t: Tid)
    requires st.head <= |st.log| && ConsumerOk(k, ix, st, c, t)
    requires IndexFrame(ix, ix', Published(k, st)) && StoreFrame(st, st', c, Pow2(k))
    ensures ConsumerOk(k, ix', st', c, t)
  {
    if c.Busy? {
      LastPublished(c, st.head, |st.log|, Pow2(k));
      StageFrame(k, ix, ix', st, st', c, t, Published(k, st));
    }
  }

  /** All consumers but t (if there is such a one) keep what they rely on. */
  lemma OthersOk(k: nat, ix: Index, ix': Index, st: Store, st': Store, cs: seq<Consumer>, t: int, c: Consumer)
    requires st.head <= |st.log| && Consumers(k, ix, st, cs) && IndexFrame(ix, ix', Published(k, st))
    requires forall u | 0 <= u < |cs| && u != t :: StoreFrame(st, st', cs[u], Pow2(k))
    requires 0 <= t < |cs| ==> ConsumerOk(k, ix', st', c, t)
    ensures Consumers(k, ix', st', if 0 <= t < |cs| then cs[t := c] else cs)
  {
    forall u | 0 <= u < |cs| && u != t ensures ConsumerOk(k, ix', st', cs[u], u) {
      ConsumerFrame(k, ix, ix', st, st', cs[u], u);
    }
  }

  // ---------------------------------------------------------------- steps of a consumer that only move it

  lemma MoveInv(s: State, t: Tid, c: Consumer)
    requires Inv(s) && t < |s.cs| && (s.cs[t].Busy? ==> !s.cs[t].at.Clear? && !s.cs[t].at.Release?)
    requires ConsumerOk(s.k, s.ix, s.st, c, t)
    ensures Inv(s.(cs := s.cs[t := c]))
  {
    MoveAttended(s.st.place, s.pp, s.cs, t, c);
  }

  lemma MoveAttended(place: seq<Place>, pp: Producer, cs: seq<Consumer>, t: Tid, c: Consumer)
    requires AllAttended(place, pp, cs) && t < |cs| && (cs[t].Busy? ==> !cs[t].at.Clear? && !cs[t].at.Release?)
    ensures AllAttended(place, pp, cs[t := c])
  {
    var cs' := cs[t := c];
    forall x | 0 <= x < |place| ensures Attended(place[x], pp, cs', x) { assert Attended(place[x], pp, cs, x); }
  }

  // ---------------------------------------------------------------- a consumer finds its block

  /** The blocks of a claim that are not counted yet are in the index. */
  lemma StillThere(k: nat, ix: Index, st: Store, c: Consumer, t: Tid, i: nat)
    requires c.Busy? && RangeOk(st, c, t) && Claimed(st) && Stored(st, Pow2(k), Published(k, st)) && Bound(ix, st)
    requires c.seg <= i < c.first + c.count
    ensures Blk(i, Pow2(k)) in st.blockOf && i !in st.done && ix.lo <= Blk(i, Pow2(k)) <= LastBlock(c, Pow2(k)) < Published(k, st)
  {
    LastPublished(c, st.head, |st.log|, Pow2(k));
    assert BoundAt(ix, st, Blk(i, Pow2(k)));
  }

  lemma LoadIndexOk(k: nat, ix: Index, st: Store, c: Consumer, t: Tid, pp: Producer)
    requires c.Busy? && c.at.LoadIndex? && ConsumerOk(k, ix, st, c, t) && Claimed(st) && ProducerOk(k, ix, st, pp) && IndexOk(ix)
    ensures LoadReady(k, ix, st, c) && ConsumerOk(k, ix, st, Loaded(k, ix, st, c), t)
  {
    LastPublished(c, st.head, |st.log|, Pow2(k));
    assert HeaderOk(ix, ix.Cur());
  }

  lemma LoadTailOk(k: nat, ix: Index, st: Store, c: Consumer, t: Tid)
    requires c.Busy? && c.at.LoadTail? && ConsumerOk(k, ix, st, c, t) && IndexOk(ix)
    ensures LoadReady(k, ix, st, c) && ConsumerOk(k, ix, st, Loaded(k, ix, st, c), t)
  {
    assert HeaderOk(ix, ix.headers[c.at.h]);
  }

  /** However stale the tail that the consumer has seen: the key there and the slot computed from it are right. */
  lemma Finds(k: nat, ix: Index, st: Store, c: Consumer, t: Tid, h: nat, tail: nat, p: nat)
    requires IndexOk(ix) && Bound(ix, st) && Claimed(st) && Stored(st, Pow2(k), Published(k, st))
    requires c.Busy? && RangeOk(st, c, t) && c.seg < c.first + c.count && Knows(k, ix, c, h)
    requires tail == ix.headers[h].SlotOf(p) && LastBlock(c, Pow2(k)) <= p < ix.headers[h].hi
    ensures CanFind(ix, ix.headers[h], tail, c.seg, k)
    ensures Found(ix, ix.headers[h], tail, c.seg, k) == ix.headers[h].SlotOf(Blk(c.seg, Pow2(k)))
  {
    StillThere(k, ix, st, c, t, c.seg);
    BlkPos(c.seg, Pow2(k));
    FindsBlock(k, ix, h, c.seg, Blk(c.seg, Pow2(k)), p);
  }

  lemma LoadKeyOk(k: nat, ix: Index, st: Store, c: Consumer, t: Tid)
    requires IndexOk(ix) && Bound(ix, st) && Claimed(st) && Stored(st, Pow2(k), Published(k, st))
    requires c.Busy? && c.at.LoadKey? && ConsumerOk(k, ix, st, c, t)
    ensures LoadReady(k, ix, st, c) && ConsumerOk(k, ix, st, Loaded(k, ix, st, c), t)
  {
    hide IndexOk, Bound, Claimed, Stored, Slot, Img, Pow2, Blk;
    var LoadKey(h, tail, p) := c.at;
    Finds(k, ix, st, c, t, h, tail, p);
  }

  /** The slot of a block in a header that knows it holds the block's own entry, and that entry the block. */
  lemma EntryAt(ix: Index, st: Store, h: nat, n: nat)
    requires IndexOk(ix) && Bound(ix, st) && h < |ix.headers| && n in st.blockOf && n < ix.headers[h].hi
    ensures var hd := ix.headers[h];
            && hd.SlotOf(n) < |hd.index| && n in ix.entryOf && hd.index[hd.SlotOf(n)] == ix.entryOf[n] < |st.values|
            && st.values[ix.entryOf[n]] == Some(st.blockOf[n])
  {
    assert HeaderOk(ix, ix.headers[h]);
    assert BoundAt(ix, st, n);
    SlotWraps(ix.headers[h], n);
  }

  lemma EndIsIn(c: Consumer, b: nat)
    requires c.Busy? && b > 0 && c.seg < c.first + c.count
    ensures c.seg < EndOf(c, b) <= c.first + c.count
    ensures forall i: nat | c.seg <= i < EndOf(c, b) :: Blk(i, b) == Blk(c.seg, b)
    ensures EndOf(c, b) < c.first + c.count ==> Blk(EndOf(c, b), b) == Blk(c.seg, b) + 1
  {
    var n := Blk(c.seg, b);
    InBlock(c.seg, n, b);
    forall i: nat | c.seg <= i < EndOf(c, b) ensures Blk(i, b) == n { InBlock(i, n, b); }
    InBlock(Base(n, b) + b, n + 1, b);
  }

  lemma LoadValueOk(k: nat, ix: Index, st: Store, c: Consumer, t: Tid)
    requires IndexOk(ix) && Bound(ix, st) && Claimed(st) && Stored(st, Pow2(k), Published(k, st))
    requires c.Busy? && c.at.LoadValue? && ConsumerOk(k, ix, st, c, t)
    ensures LoadReady(k, ix, st, c) && ConsumerOk(k, ix, st, Loaded(k, ix, st, c), t)
  {
    hide IndexOk, Bound, Claimed, Stored;
    var LoadValue(h, slot) := c.at;
    StillThere(k, ix, st, c, t, c.seg);
    EntryAt(ix, st, h, Blk(c.seg, Pow2(k)));
    EndIsIn(c, Pow2(k));
  }

  lemma InvBasics(s: State)
    requires Inv(s)
    ensures s.ix.headers != [] && |s.st.values| == |s.ix.keys| && |s.st.place| == |s.st.blocks| && s.st.head <= |s.st.log|
    ensures forall t | 0 <= t < |s.cs| :: ConsumerOk(s.k, s.ix, s.st, s.cs[t], t)
  {}

  lemma LoadOk(s: State, t: Tid)
    requires Inv(s) && t < |s.cs| && s.cs[t].Busy?
    requires s.cs[t].at.LoadIndex? || s.cs[t].at.LoadTail? || s.cs[t].at.LoadKey? || s.cs[t].at.LoadValue?
    ensures LoadReady(s.k, s.ix, s.st, s.cs[t]) && ConsumerOk(s.k, s.ix, s.st, Loaded(s.k, s.ix, s.st, s.cs[t]), t)
  {
    InvBasics(s);
    hide IndexOk, Bound, Counted, Claimed, Stored, ProducerOk, Consumers, AllAttended, ConsumerOk, LoadReady, Loaded;
    var c := s.cs[t];
    match c.at {
      case LoadIndex => LoadIndexOk(s.k, s.ix, s.st, c, t, s.pp);
      case LoadTail(_) => LoadTailOk(s.k, s.ix, s.st, c, t);
      case LoadKey(_, _, _) => LoadKeyOk(s.k, s.ix, s.st, c, t);
      case LoadValue(_, _) => LoadValueOk(s.k, s.ix, s.st, c, t);
    }
  }

  lemma LoadInv(s: State, t: Tid)
    requires Inv(s) && t < |s.cs| && s.cs[t].Busy?
    requires s.cs[t].at.LoadIndex? || s.cs[t].at.LoadTail? || s.cs[t].at.LoadKey? || s.cs[t].at.LoadValue?
    ensures StepReady(s, t) && Inv(StepNext(s, t))
  {
    LoadOk(s, t);
    hide Inv, ConsumerOk, LoadReady, Loaded;
    MoveInv(s, t, Loaded(s.k, s.ix, s.st, s.cs[t]));
  }

  // ---------------------------------------------------------------- a consumer reads an element

  /** Different indices have different cells. */
  lemma CellsApart(ix: Index, st: Store, b: nat, i: nat, j: nat)
    requires b > 0 && Bound(ix, st) && i != j && Blk(i, b) in st.blockOf && Blk(j, b) in st.blockOf
    ensures st.blockOf[Blk(i, b)] != st.blockOf[Blk(j, b)] || Pos(i, b) != Pos(j, b)
  {
    BlkPos(i, b);
    BlkPos(j, b);
    assert BoundAt(ix, st, Blk(i, b)) && BoundAt(ix, st, Blk(j, b));
  }

  /** Setting the cell of index i leaves the cell of index j alone. */
  lemma OtherCell(ix: Index, st: Store, st': Store, b: nat, i: nat, v: Option<Value>, j: nat, w: Value)
    requires b > 0 && Bound(ix, st) && i != j && CellIs(st, b, j, w)
    requires Blk(i, b) in st.blockOf && st.blockOf[Blk(i, b)] < |st.blocks| && Pos(i, b) < |st.blocks[st.blockOf[Blk(i, b)]].cells|
    requires st'.blockOf == st.blockOf && st'.blocks == SetCell(st, st.blockOf[Blk(i, b)], Pos(i, b), v).blocks
    ensures CellIs(st', b, j, w)
  {
    CellsApart(ix, st, b, i, j);
    hide Bound, Blk, Pos;
  }

  function ReadCell(st: Store, b: nat, x: BlockId, i: nat, v: Value): Store
    requires b > 0 && x < |st.blocks| && Pos(i, b) < |st.blocks[x].cells|
  {
    SetCell(st, x, Pos(i, b), None).(delivered := st.delivered[i := v])
  }

  /** The element that consumer t is about to read is still there, and is the one enqueued at its index. */
  lemma ReadFinds(k: nat, ix: Index, st: Store, c: Consumer, t: Tid)
    requires c.Busy? && c.at.Read? && ConsumerOk(k, ix, st, c, t) && c.pos < EndOf(c, Pow2(k))
    requires Claimed(st) && Stored(st, Pow2(k), Published(k, st))
    ensures Blk(c.pos, Pow2(k)) == Blk(c.seg, Pow2(k)) && c.pos < c.first + c.count && c.pos !in st.delivered && c.pos < |st.log|
    ensures CellIs(st, Pow2(k), c.pos, st.log[c.pos]) && st.blockOf[Blk(c.pos, Pow2(k))] == c.at.b
    ensures c.pos in st.owner && st.owner[c.pos] == t
  {
    EndIsIn(c, Pow2(k));
  }

  /** Emptying the cell of index i and handing out its element. */
  lemma ReadStored(ix: Index, st: Store, b: nat, i: nat, v: Value, published: nat)
    requires b > 0 && Bound(ix, st) && Counted(st, b) && Claimed(st) && Stored(st, b, published)
    requires i < st.head && i !in st.delivered && v == st.log[i] && CellIs(st, b, i, v)
    ensures var st' := ReadCell(st, b, st.blockOf[Blk(i, b)], i, v);
            Stored(st', b, published)
  {
    var x := st.blockOf[Blk(i, b)];
    var st' := ReadCell(st, b, x, i, v);
    forall j: nat | j < |st.log| && j !in st'.delivered ensures CellIs(st', b, j, st.log[j]) {
      OtherCell(ix, st, st', b, i, None, j, st.log[j]);
    }
  }

  lemma ReadOthers(ix: Index, st: Store, b: nat, i: nat, v: Value)
    requires b > 0 && Bound(ix, st) && Counted(st, b) && Claimed(st)
    requires i < st.head && i !in st.delivered && v == st.log[i] && CellIs(st, b, i, v)
    ensures var st' := ReadCell(st, b, st.blockOf[Blk(i, b)], i, v);
            Bound(ix, st') && Counted(st', b) && Claimed(st')
  {
    var st' := ReadCell(st, b, st.blockOf[Blk(i, b)], i, v);
    assert st'.blockOf == st.blockOf && st'.place == st.place;
    forall n | n in st.blockOf ensures BoundAt(ix, st', n) && CountedAt(st', b, n) { assert BoundAt(ix, st, n) && CountedAt(st, b, n); }
    forall x | 0 <= x < |st.place| ensures PlaceAt(st', x) { assert PlaceAt(st, x); }
  }

  lemma ReadContent(k: nat, ix: Index, st: Store, pp: Producer, i: nat, v: Value)
    requires Bound(ix, st) && ContentOk(k, st, pp) && CellIs(st, Pow2(k), i, v) && i < |st.log|
    ensures ContentOk(k, ReadCell(st, Pow2(k), st.blockOf[Blk(i, Pow2(k))], i, v), pp)
  {
    hide Bound, Blk, Pos;
    if pp.PWrite? {
      var st' := ReadCell(st, Pow2(k), st.blockOf[Blk(i, Pow2(k))], i, v);
      forall j | 0 <= j < pp.j && j < |pp.xs| ensures CellIs(st', Pow2(k), |st.log| + j, pp.xs[j]) {
        OtherCell(ix, st, st', Pow2(k), i, None, |st.log| + j, pp.xs[j]);
      }
    }
  }

  /** The reader itself, one position further. */
  lemma ReadSelf(k: nat, ix: Index, st: Store, c: Consumer, t: Tid, v: Value)
    requires c.Busy? && c.at.Read? && ConsumerOk(k, ix, st, c, t) && CellIs(st, Pow2(k), c.pos, v) && c.pos < EndOf(c, Pow2(k))
    ensures ConsumerOk(k, ix, ReadCell(st, Pow2(k), st.blockOf[Blk(c.pos, Pow2(k))], c.pos, v), c.(pos := c.pos + 1), t)
  {
    EndIsIn(c, Pow2(k));
    assert EndOf(c.(pos := c.pos + 1), Pow2(k)) == EndOf(c, Pow2(k));
    hide EndOf, Blk, Pos;
  }

  lemma ReadOther(k: nat, ix: Index, st: Store, x: BlockId, i: nat, v: Value, t: Tid, u: Tid, c: Consumer)
    requires ConsumerOk(k, ix, st, c, u) && u != t && i in st.owner && st.owner[i] == t
    requires x < |st.blocks| && Pos(i, Pow2(k)) < |st.blocks[x].cells|
    ensures StoreFrame(st, ReadCell(st, Pow2(k), x, i, v), c, Pow2(k))
  {
    hide StageOk, Blk, Pos;
  }

  lemma ReadConsumers(k: nat, ix: Index, st: Store, cs: seq<Consumer>, t: Tid, i: nat, v: Value)
    requires st.head <= |st.log| && Consumers(k, ix, st, cs) && t < |cs| && cs[t].Busy? && cs[t].at.Read?
    requires i == cs[t].pos && i in st.owner && st.owner[i] == t && CellIs(st, Pow2(k), i, v) && i < EndOf(cs[t], Pow2(k)) && i < cs[t].first + cs[t].count
    ensures Consumers(k, ix, ReadCell(st, Pow2(k), st.blockOf[Blk(i, Pow2(k))], i, v), cs[t := cs[t].(pos := i + 1)])
  {
    hide ConsumerOk, StoreFrame;
    var x := st.blockOf[Blk(i, Pow2(k))];
    ReadSelf(k, ix, st, cs[t], t, v);
    forall u | 0 <= u < |cs| && u != t ensures StoreFrame(st, ReadCell(st, Pow2(k), x, i, v), cs[u], Pow2(k)) {
      ReadOther(k, ix, st, x, i, v, t, u, cs[u]);
    }
    OthersOk(k, ix, ix, st, ReadCell(st, Pow2(k), x, i, v), cs, t, cs[t].(pos := i + 1));
  }

  /** The state after consumer t has read the element at its position. */
  function AfterRead(s: State, t: Tid, v: Value): State
    requires t < |s.cs| && s.cs[t].Busy? && s.cs[t].at.Read? && s.cs[t].at.b < |s.st.blocks|
    requires Pos(s.cs[t].pos, Pow2(s.k)) < |s.st.blocks[s.cs[t].at.b].cells|
  {
    var c := s.cs[t];
    s.(st := ReadCell(s.st, Pow2(s.k), c.at.b, c.pos, v), cs := s.cs[t := c.(pos := c.pos + 1)])
  }

  lemma ReadShape(s: State, t: Tid)
    requires t < |s.cs| && s.cs[t].Busy? && s.cs[t].at.Read? && s.cs[t].at.h < |s.ix.headers| && s.cs[t].pos < EndOf(s.cs[t], Pow2(s.k))
    requires s.cs[t].pos < |s.st.log| && CellIs(s.st, Pow2(s.k), s.cs[t].pos, s.st.log[s.cs[t].pos])
    requires s.st.blockOf[Blk(s.cs[t].pos, Pow2(s.k))] == s.cs[t].at.b
    ensures StepReady(s, t) && StepNext(s, t) == AfterRead(s, t, s.st.log[s.cs[t].pos])
  {}

  lemma ReadReady(s: State, t: Tid)
    requires Inv(s) && t < |s.cs| && s.cs[t].Busy? && s.cs[t].at.Read? && s.cs[t].pos < EndOf(s.cs[t], Pow2(s.k))
    ensures var c := s.cs[t];
            && c.at.h < |s.ix.headers| && c.pos < s.st.head <= |s.st.log| && c.pos < c.first + c.count && c.pos !in s.st.delivered
            && CellIs(s.st, Pow2(s.k), c.pos, s.st.log[c.pos]) && s.st.blockOf[Blk(c.pos, Pow2(s.k))] == c.at.b
            && c.pos in s.st.owner && s.st.owner[c.pos] == t
  {
    InvBasics(s);
    hide IndexOk, Bound, Counted, Stored, ShapeOk, ContentOk, Consumers, AllAttended;
    ReadFinds(s.k, s.ix, s.st, s.cs[t], t);
  }

  lemma ReadElementInv(s: State, t: Tid)
    requires Inv(s) && t < |s.cs| && s.cs[t].Busy? && s.cs[t].at.Read? && s.cs[t].pos < EndOf(s.cs[t], Pow2(s.k))
    ensures StepReady(s, t) && Inv(StepNext(s, t))
    ensures s.cs[t].pos < |s.st.log| && StepNext(s, t).st.delivered == s.st.delivered[s.cs[t].pos := s.st.log[s.cs[t].pos]]
    ensures s.cs[t].pos !in s.st.delivered
  {
    hide IndexOk, Bound, Counted, Claimed, Stored, ShapeOk, ContentOk, Consumers, AllAttended, ConsumerOk, StepNext, StepReady, CellIs;
    var c := s.cs[t];
    var i := c.pos;
    ReadReady(s, t);
    var v := s.st.log[i];
    ReadShape(s, t);
    ReadOthers(s.ix, s.st, Pow2(s.k), i, v);
    ReadStored(s.ix, s.st, Pow2(s.k), i, v, Published(s.k, s.st));
    ReadContent(s.k, s.ix, s.st, s.pp, i, v);
    ReadConsumers(s.k, s.ix, s.st, s.cs, t, i, v);
    MoveAttended(s.st.place, s.pp, s.cs, t, c.(pos := i + 1));
  }

  lemma ReadDoneInv(s: State, t: Tid)
    requires Inv(s) && t < |s.cs| && s.cs[t].Busy? && s.cs[t].at.Read? && s.cs[t].pos >= EndOf(s.cs[t], Pow2(s.k))
    ensures StepReady(s, t) && Inv(StepNext(s, t))
  {
    hide IndexOk, Counted, Claimed, Stored, ShapeOk, ContentOk, AllAttended;
    InvBasics(s);
    var c := s.cs[t];
    ReadDoneOk(s.k, s.ix, s.st, c, t);
    MoveInv(s, t, At(c, Count(c.at.h, c.at.slot, c.at.b)));
  }

  lemma ReadDoneOk(k: nat, ix: Index, st: Store, c: Consumer, t: Tid)
    requires c.Busy? && c.at.Read? && c.pos >= EndOf(c, Pow2(k)) && ConsumerOk(k, ix, st, c, t) && Bound(ix, st)
    ensures c.at.h < |ix.headers| && ConsumerOk(k, ix, st, At(c, Count(c.at.h, c.at.slot, c.at.b)), t)
    ensures |st.place| == |st.blocks| && c.at.b < |st.blocks|
  {
    assert BoundAt(ix, st, Blk(c.seg, Pow2(k)));
    assert EndOf(At(c, Count(c.at.h, c.at.slot, c.at.b)), Pow2(k)) == EndOf(c, Pow2(k));
  }

  // ---------------------------------------------------------------- a consumer counts what it has read of a block

  lemma {:induction false} CountAdds(done: set<nat>, lo: nat, len: nat, a: nat, z: nat)
    requires a <= z && forall i | a <= i < z :: i !in done
    ensures CountIn(done + Range(a, z), lo, len) == CountIn(done, lo, len) + Overlap(a, z, lo, len)
  {
    if len > 0 { CountAdds(done, lo, len - 1, a, z); }
  }

  /** How many of a .. z lie in lo .. lo + len. */
  function Overlap(a: nat, z: nat, lo: nat, len: nat): nat
    requires a <= z
  {
    var l := if a < lo then lo else a;
    var r := if z < lo + len then z else lo + len;
    if l < r then r - l else 0
  }

  lemma {:induction false} CountFull(done: set<nat>, lo: nat, len: nat)
    ensures CountIn(done, lo, len) <= len
    ensures CountIn(done, lo, len) == len <==> forall i | lo <= i < lo + len :: i in done
  {
    if len > 0 {
      CountFull(done, lo, len - 1);
      if CountIn(done, lo, len) == len {
        forall i | lo <= i < lo + len ensures i in done {}
      }
    }
  }

  /** The counter of block n goes up by the elements seg .. pos; consumer t drains the block if that was all. */
  function CountPart(st: Store, b: nat, x: BlockId, n: nat, t: Tid, seg: nat, pos: nat): Store
    requires x < |st.blocks| && x < |st.place| && seg <= pos
  {
    var total := st.blocks[x].emptied + (pos - seg);
    st.(blocks := st.blocks[x := st.blocks[x].(emptied := total)],
        owner := st.owner - Range(seg, pos), done := st.done + Range(seg, pos),
        place := if total == b then st.place[x := Draining(n, t)] else st.place)
  }

  /** The part seg .. pos of block n, all read by t and not counted yet. */
  ghost predicate PartOf(st: Store, b: nat, x: BlockId, n: nat, t: Tid, seg: nat, pos: nat) {
    && b > 0 && seg < pos <= st.head && Base(n, b) <= seg && pos <= Base(n, b) + b
    && n in st.blockOf && st.blockOf[n] == x && x < |st.blocks| && x < |st.place|
    && (forall i: nat | seg <= i < pos :: i in st.owner && st.owner[i] == t && i in st.delivered)
  }

  lemma CountCounted(st: Store, b: nat, x: BlockId, n: nat, t: Tid, seg: nat, pos: nat, ix: Index)
    requires PartOf(st, b, x, n, t, seg, pos) && Counted(st, b) && Claimed(st) && Bound(ix, st)
    ensures Counted(CountPart(st, b, x, n, t, seg, pos), b) && st.place[x] == Live(n)
  {
    hide Claimed, CountIn;
    var st' := CountPart(st, b, x, n, t, seg, pos);
    assert BoundAt(ix, st, n) && CountedAt(st, b, n);
    CountFull(st.done, Base(n, b), b);
    PartFresh(st, b, x, n, t, seg, pos);
    forall m | m in st'.blockOf ensures CountedAt(st', b, m) {
      assert CountedAt(st, b, m) && BoundAt(ix, st, m);
      CountAdds(st.done, Base(m, b), b, seg, pos);
      if m < n { BaseMonotone(m, n, b); }
      if n < m { BaseMonotone(n, m, b); }
    }
  }

  /** What is about to be counted is not counted yet. */
  lemma PartFresh(st: Store, b: nat, x: BlockId, n: nat, t: Tid, seg: nat, pos: nat)
    requires PartOf(st, b, x, n, t, seg, pos) && Claimed(st)
    ensures forall i: nat | seg <= i < pos :: i !in st.done
  {}

  lemma CountBound(st: Store, b: nat, x: BlockId, n: nat, t: Tid, seg: nat, pos: nat, ix: Index)
    requires PartOf(st, b, x, n, t, seg, pos) && Bound(ix, st)
    ensures Bound(ix, CountPart(st, b, x, n, t, seg, pos))
  {
    var st' := CountPart(st, b, x, n, t, seg, pos);
    assert BoundAt(ix, st, n);
    forall m | m in st'.blockOf ensures BoundAt(ix, st', m) { assert BoundAt(ix, st, m); }
    forall y | 0 <= y < |st'.place| ensures PlaceAt(st', y) { assert PlaceAt(st, y); }
  }

  lemma CountClaimed(st: Store, b: nat, x: BlockId, n: nat, t: Tid, seg: nat, pos: nat)
    requires PartOf(st, b, x, n, t, seg, pos) && Claimed(st)
    ensures Claimed(CountPart(st, b, x, n, t, seg, pos))
  {}

  lemma CountStored(st: Store, b: nat, x: BlockId, n: nat, t: Tid, seg: nat, pos: nat, published: nat)
    requires PartOf(st, b, x, n, t, seg, pos) && Stored(st, b, published)
    ensures Stored(CountPart(st, b, x, n, t, seg, pos), b, published)
  {
    var st' := CountPart(st, b, x, n, t, seg, pos);
    forall j: nat | j < |st.log| && j !in st'.delivered ensures CellIs(st', b, j, st.log[j]) { assert CellIs(st, b, j, st.log[j]); }
  }

  lemma CountContent(k: nat, st: Store, x: BlockId, n: nat, t: Tid, seg: nat, pos: nat, pp: Producer)
    requires PartOf(st, Pow2(k), x, n, t, seg, pos) && ContentOk(k, st, pp)
    requires st.place[x] == Live(n) && (pp.PValue? ==> pp.b < |st.place| && st.place[pp.b].Mine?)
    ensures ContentOk(k, CountPart(st, Pow2(k), x, n, t, seg, pos), pp)
  {
    var st' := CountPart(st, Pow2(k), x, n, t, seg, pos);
    if pp.PWrite? {
      forall i | 0 <= i < pp.j && i < |pp.xs| ensures CellIs(st', Pow2(k), |st.log| + i, pp.xs[i]) {
        assert CellIs(st, Pow2(k), |st.log| + i, pp.xs[i]);
      }
    }
  }

  /** The producer keeps the blocks in its hands. */
  lemma ShapeFrame(k: nat, ix: Index, len: nat, blockOf: map<nat, BlockId>, values: seq<Option<BlockId>>, place: seq<Place>, place': seq<Place>, pp: Producer)
    requires ShapeOk(k, ix, len, blockOf, values, place, pp) && |place| <= |place'|
    requires forall y | 0 <= y < |place| && place[y].Mine? :: place'[y].Mine?
    ensures ShapeOk(k, ix, len, blockOf, values, place', pp)
  {}

  lemma CountOthers(k: nat, ix: Index, st: Store, cs: seq<Consumer>, x: BlockId, n: nat, t: Tid, seg: nat, pos: nat, c: Consumer)
    requires PartOf(st, Pow2(k), x, n, t, seg, pos) && Consumers(k, ix, st, cs) && st.head <= |st.log| && st.place[x] == Live(n) && t < |cs|
    requires ConsumerOk(k, ix, CountPart(st, Pow2(k), x, n, t, seg, pos), c, t)
    ensures Consumers(k, ix, CountPart(st, Pow2(k), x, n, t, seg, pos), cs[t := c])
  {
    var st' := CountPart(st, Pow2(k), x, n, t, seg, pos);
    forall u | 0 <= u < |cs| && u != t ensures StoreFrame(st, st', cs[u], Pow2(k)) { assert ConsumerOk(k, ix, st, cs[u], u); }
    OthersOk(k, ix, ix, st, st', cs, t, c);
  }

  lemma CountAttended(place: seq<Place>, place': seq<Place>, pp: Producer, cs: seq<Consumer>, t: Tid, c: Consumer, x: BlockId)
    requires AllAttended(place, pp, cs) && t < |cs| && cs[t].Busy? && cs[t].at.Count? && x < |place|
    requires place' == place || (c.Busy? && c.at.Clear? && c.at.b == x && exists n :: place' == place[x := Draining(n, t)])
    ensures AllAttended(place', pp, cs[t := c])
  {
    var cs' := cs[t := c];
    forall y | 0 <= y < |place'| ensures Attended(place'[y], pp, cs', y) { assert Attended(place[y], pp, cs, y); }
  }

  function AfterCountConsumer(k: nat, ix: Index, st: Store, c: Consumer): Consumer
    requires c.Busy? && c.at.Count? && c.at.h < |ix.headers| && c.at.b < |st.blocks| && c.seg <= c.pos
  {
    var Count(h, slot, x) := c.at;
    if st.blocks[x].emptied + (c.pos - c.seg) == Pow2(k)
    then Busy(c.first, c.count, c.pos, c.pos, Clear(h, slot, x, Blk(c.seg, Pow2(k))))
    else NextPart(c, ix.headers[h], h, slot)
  }

  lemma CountReady(k: nat, ix: Index, st: Store, c: Consumer, t: Tid)
    requires c.Busy? && c.at.Count? && ConsumerOk(k, ix, st, c, t) && Bound(ix, st)
    ensures c.at.h < |ix.headers| && c.at.b < |st.blocks| && c.seg < c.pos && c.pos == EndOf(c, Pow2(k))
    ensures PartOf(st, Pow2(k), c.at.b, Blk(c.seg, Pow2(k)), t, c.seg, c.pos)
  {
    EndIsIn(c, Pow2(k));
    InBlock(c.seg, Blk(c.seg, Pow2(k)), Pow2(k));
    assert BoundAt(ix, st, Blk(c.seg, Pow2(k)));
  }

  /** After its part in block n the consumer goes on in the next slot, which is block n + 1's. */
  lemma NextPartOk(k: nat, ix: Index, st: Store, c: Consumer, t: Tid, h: nat, slot: nat, n: nat)
    requires c.Busy? && Knows2(k, ix, c, h) && slot == ix.headers[h].SlotOf(n)
    requires c.pos < c.first + c.count ==> Blk(c.pos, Pow2(k)) == n + 1
    requires RangeOk(st, c.(seg := c.pos), t)
    ensures ConsumerOk(k, ix, st, NextPart(c, ix.headers[h], h, slot), t)
  {
    if c.pos < c.first + c.count {
      MaskedSlot(ix.headers[h], n, 1);
    }
  }

  ghost predicate Knows2(k: nat, ix: Index, c: Consumer, h: nat)
    requires c.Busy?
  {
    c.count > 0 && Knows(k, ix, c, h)
  }

  lemma CountConsumer(k: nat, ix: Index, st: Store, c: Consumer, t: Tid)
    requires c.Busy? && c.at.Count? && ConsumerOk(k, ix, st, c, t) && Claimed(st) && st.head <= |st.log| && Bound(ix, st)
    requires c.at.h < |ix.headers| && c.at.b < |st.blocks| && c.seg < c.pos && c.pos == EndOf(c, Pow2(k))
    requires PartOf(st, Pow2(k), c.at.b, Blk(c.seg, Pow2(k)), t, c.seg, c.pos) && st.place[c.at.b] == Live(Blk(c.seg, Pow2(k)))
    ensures ConsumerOk(k, ix, CountPart(st, Pow2(k), c.at.b, Blk(c.seg, Pow2(k)), t, c.seg, c.pos), AfterCountConsumer(k, ix, st, c), t)
  {
    hide Bound, Pow2;
    var n := Blk(c.seg, Pow2(k));
    var st' := CountPart(st, Pow2(k), c.at.b, n, t, c.seg, c.pos);
    EndIsIn(c, Pow2(k));
    LastPublished(c, st.head, |st.log|, Pow2(k));
    if st.blocks[c.at.b].emptied + (c.pos - c.seg) != Pow2(k) {
      NextPartOk(k, ix, st', c, t, c.at.h, c.at.slot, n);
    }
  }

  function AfterCount(s: State, t: Tid): State
    requires t < |s.cs| && s.cs[t].Busy? && s.cs[t].at.Count? && s.cs[t].at.h < |s.ix.headers|
    requires s.cs[t].at.b < |s.st.blocks| && s.cs[t].at.b < |s.st.place| && s.cs[t].seg <= s.cs[t].pos
  {
    var c := s.cs[t];
    s.(st := CountPart(s.st, Pow2(s.k), c.at.b, Blk(c.seg, Pow2(s.k)), t, c.seg, c.pos),
       cs := s.cs[t := AfterCountConsumer(s.k, s.ix, s.st, c)])
  }

  lemma CountShape(s: State, t: Tid)
    requires t < |s.cs| && s.cs[t].Busy? && s.cs[t].at.Count? && s.cs[t].at.h < |s.ix.headers|
    requires s.cs[t].at.b < |s.st.blocks| && s.cs[t].at.b < |s.st.place| && s.cs[t].seg <= s.cs[t].pos
    ensures StepReady(s, t) && StepNext(s, t) == AfterCount(s, t)
  {}

  lemma ShapeMine(k: nat, ix: Index, st: Store, pp: Producer)
    requires ProducerOk(k, ix, st, pp)
    ensures pp.PValue? ==> pp.b < |st.place| && st.place[pp.b].Mine?
  {}

  lemma CountStepInv(s: State, t: Tid)
    requires Inv(s) && t < |s.cs| && s.cs[t].Busy? && s.cs[t].at.Count?
    ensures StepReady(s, t) && Inv(StepNext(s, t))
  {
    hide IndexOk, Bound, Counted, Stored, Claimed, ShapeOk, ContentOk, Consumers, AllAttended, ConsumerOk, StepNext, StepReady, PartOf;
    InvBasics(s);
    var c := s.cs[t];
    var b := Pow2(s.k);
    var n := Blk(c.seg, b);
    CountReady(s.k, s.ix, s.st, c, t);
    CountShape(s, t);
    CountCounted(s.st, b, c.at.b, n, t, c.seg, c.pos, s.ix);
    CountBound(s.st, b, c.at.b, n, t, c.seg, c.pos, s.ix);
    CountClaimed(s.st, b, c.at.b, n, t, c.seg, c.pos);
    CountStored(s.st, b, c.at.b, n, t, c.seg, c.pos, Published(s.k, s.st));
    ShapeMine(s.k, s.ix, s.st, s.pp);
    CountContent(s.k, s.st, c.at.b, n, t, c.seg, c.pos, s.pp);
    ShapeFrame(s.k, s.ix, |s.st.log|, s.st.blockOf, s.st.values, s.st.place, AfterCount(s, t).st.place, s.pp);
    CountConsumer(s.k, s.ix, s.st, c, t);
    CountOthers(s.k, s.ix, s.st, s.cs, c.at.b, n, t, c.seg, c.pos, AfterCountConsumer(s.k, s.ix, s.st, c));
    CountAttended(s.st.place, AfterCount(s, t).st.place, s.pp, s.cs, t, AfterCountConsumer(s.k, s.ix, s.st, c), c.at.b);
  }

  // ---------------------------------------------------------------- a consumer clears the entry of an empty block

  predicate Outside(p: Place) { !p.Live? && !p.Draining? }

  function ClearBlock(st: Store, e: EntryId, x: BlockId, n: nat, p: Place): Store
    requires e < |st.values| && x < |st.place|
  {
    st.(values := st.values[e := None], place := st.place[x := p], blockOf := st.blockOf - {n})
  }

  /** Block n is x, in entry e. */
  ghost predicate Holds(ix: Index, st: Store, e: EntryId, x: BlockId, n: nat) {
    && n in st.blockOf && st.blockOf[n] == x && n in ix.entryOf && ix.entryOf[n] == e && e < |st.values| && x < |st.place|
  }

  /** Block n, in entry e, is all consumed, and t drains it. */
  ghost predicate Drained(ix: Index, st: Store, e: EntryId, x: BlockId, n: nat, t: Tid) {
    Holds(ix, st, e, x, n) && st.place[x] == Draining(n, t)
  }

  lemma {:induction false} ClearBound(ix: Index, st: Store, e: EntryId, x: BlockId, n: nat, p: Place)
    requires IndexOk(ix) && Bound(ix, st) && Holds(ix, st, e, x, n) && Outside(p)
    ensures Bound(ix, ClearBlock(st, e, x, n, p))
  {
    hide IndexOk;
    var st' := ClearBlock(st, e, x, n, p);
    EntriesApart(ix);
    assert BoundAt(ix, st, n);
    forall m | m in st'.blockOf ensures BoundAt(ix, st', m) { assert BoundAt(ix, st, m); }
    forall y | 0 <= y < |st'.place| ensures PlaceAt(st', y) { assert PlaceAt(st, y); }
  }

  lemma DrainedDone(ix: Index, st: Store, b: nat, e: EntryId, x: BlockId, n: nat, t: Tid)
    requires b > 0 && Counted(st, b) && Drained(ix, st, e, x, n, t)
    ensures forall i: nat | Blk(i, b) == n :: i in st.done
  {
    assert CountedAt(st, b, n);
    CountFull(st.done, Base(n, b), b);
    forall i: nat | Blk(i, b) == n ensures i in st.done { InBlock(i, n, b); }
  }

  lemma ClearCounted(ix: Index, st: Store, b: nat, e: EntryId, x: BlockId, n: nat, p: Place)
    requires b > 0 && Bound(ix, st) && Counted(st, b) && Claimed(st) && Holds(ix, st, e, x, n)
    ensures Counted(ClearBlock(st, e, x, n, p), b) && Claimed(ClearBlock(st, e, x, n, p))
  {
    var st' := ClearBlock(st, e, x, n, p);
    forall m | m in st'.blockOf ensures CountedAt(st', b, m) { assert CountedAt(st, b, m) && BoundAt(ix, st, m); }
  }

  lemma ClearStored(st: Store, b: nat, e: EntryId, x: BlockId, n: nat, p: Place, published: nat)
    requires b > 0 && Claimed(st) && Stored(st, b, published) && e < |st.values| && x < |st.place|
    requires forall i: nat | Blk(i, b) == n :: i in st.done
    ensures Stored(ClearBlock(st, e, x, n, p), b, published)
  {
    var st' := ClearBlock(st, e, x, n, p);
    forall j: nat | j < |st.log| && j !in st'.delivered ensures CellIs(st', b, j, st.log[j]) { assert CellIs(st, b, j, st.log[j]); }
  }

  lemma ChainedWithout(blockOf: map<nat, BlockId>, chain: seq<BlockId>, first: nat, from: nat, n: nat)
    requires Chained(blockOf, chain, first, from) && n < first + from
    ensures Chained(blockOf - {n}, chain, first, from)
  {
  }

  /** The part of the chain that is in the index. */
  function ChainOf(pp: Producer): (seq<BlockId>, nat) {
    match pp
    case PIdle => ([], 0)
    case PCheck(_, chain) => (chain, 0)
    case PGrow(_, chain) => (chain, 0)
    case PKey(_, chain, _) => (chain, 0)
    case PTail(_, chain, _) => (chain, 0)
    case PTake(_, chain, _) => (chain, 0)
    case PNew(_, chain, _) => (chain, 0)
    case PReset(_, chain, _, _) => (chain, 0)
    case PValue(_, chain, _, _) => (chain, 0)
    case PWrite(_, chain, _) => (chain, 0)
    case PUndoTail(chain, _) => (chain, 0)
    case PUndoValue(chain, _) => (chain, 0)
    case PRollValue(chain, j) => (chain, j)
    case PRollTail(chain, j) => (chain, j + 1)
    case PRollFree(chain, j) => (chain, |chain|)
  }

  lemma ShapeChained(k: nat, ix: Index, len: nat, blockOf: map<nat, BlockId>, values: seq<Option<BlockId>>, place: seq<Place>, pp: Producer)
    requires ShapeOk(k, ix, len, blockOf, values, place, pp)
    ensures Chained(blockOf, ChainOf(pp).0, Blocks(len, Pow2(k)), ChainOf(pp).1)
  {}

  lemma ClearShape(k: nat, ix: Index, st: Store, pp: Producer, e: EntryId, x: BlockId, n: nat, t: Tid)
    requires ShapeOk(k, ix, |st.log|, st.blockOf, st.values, st.place, pp) && Drained(ix, st, e, x, n, t) && n < Published(k, st)
    ensures var st' := ClearBlock(st, e, x, n, Returning(t)); ShapeOk(k, ix, |st.log|, st'.blockOf, st'.values, st'.place, pp)
  {
    ShapeChained(k, ix, |st.log|, st.blockOf, st.values, st.place, pp);
    hide Chained;
    ChainedWithout(st.blockOf, ChainOf(pp).0, Published(k, st), ChainOf(pp).1, n);
  }

  lemma ClearContent(k: nat, st: Store, pp: Producer, e: EntryId, x: BlockId, n: nat, t: Tid)
    requires ContentOk(k, st, pp) && Claimed(st) && e < |st.values| && x < |st.place|
    requires forall i: nat | Blk(i, Pow2(k)) == n :: i in st.done
    ensures ContentOk(k, ClearBlock(st, e, x, n, Returning(t)), pp)
  {
    var st' := ClearBlock(st, e, x, n, Returning(t));
    if pp.PWrite? {
      forall i | 0 <= i < pp.j && i < |pp.xs| ensures CellIs(st', Pow2(k), |st.log| + i, pp.xs[i]) {
        assert CellIs(st, Pow2(k), |st.log| + i, pp.xs[i]);
        assert |st.log| + i !in st.done;
      }
    }
  }

  lemma ClearOthers(k: nat, ix: Index, st: Store, cs: seq<Consumer>, e: EntryId, x: BlockId, n: nat, t: Tid, c: Consumer)
    requires Consumers(k, ix, st, cs) && st.head <= |st.log| && Claimed(st) && Drained(ix, st, e, x, n, t) && t < |cs|
    requires forall i: nat | Blk(i, Pow2(k)) == n :: i in st.done
    requires ConsumerOk(k, ix, ClearBlock(st, e, x, n, Returning(t)), c, t)
    ensures Consumers(k, ix, ClearBlock(st, e, x, n, Returning(t)), cs[t := c])
  {
    var st' := ClearBlock(st, e, x, n, Returning(t));
    forall u | 0 <= u < |cs| && u != t ensures StoreFrame(st, st', cs[u], Pow2(k)) {
      assert ConsumerOk(k, ix, st, cs[u], u);
      if cs[u].Busy? && (cs[u].at.Read? || cs[u].at.Count?) { assert cs[u].seg in st.owner; }
    }
    OthersOk(k, ix, ix, st, st', cs, t, c);
  }

  /** The entry that the consumer clears is the block's own. */
  lemma ClearReady(k: nat, ix: Index, st: Store, c: Consumer, t: Tid)
    requires c.Busy? && c.at.Clear? && ConsumerOk(k, ix, st, c, t) && IndexOk(ix) && Bound(ix, st) && Claimed(st)
    ensures var Clear(h, slot, x, n) := c.at;
            && h < |ix.headers| && slot < |ix.headers[h].index| && ix.headers[h].index[slot] < |st.values| && x < |st.place|
            && Drained(ix, st, ix.headers[h].index[slot], x, n, t) && n < Published(k, st)
            && ConsumerOk(k, ix, ClearBlock(st, ix.headers[h].index[slot], x, n, Returning(t)), At(c, Release(h, slot, x)), t)
  {
    hide IndexOk, Bound;
    var Clear(h, slot, x, n) := c.at;
    EntryAt(ix, st, h, n);
    LastPublished(c, st.head, |st.log|, Pow2(k));
  }

  function AfterClear(s: State, t: Tid): State
    requires t < |s.cs| && s.cs[t].Busy? && s.cs[t].at.Clear? && s.cs[t].at.h < |s.ix.headers| && s.cs[t].at.slot < |s.ix.headers[s.cs[t].at.h].index|
    requires s.ix.headers[s.cs[t].at.h].index[s.cs[t].at.slot] < |s.st.values| && s.cs[t].at.b < |s.st.place|
  {
    var Clear(h, slot, x, n) := s.cs[t].at;
    s.(st := ClearBlock(s.st, s.ix.headers[h].index[slot], x, n, Returning(t)), cs := s.cs[t := At(s.cs[t], Release(h, slot, x))])
  }

  lemma ClearNext(s: State, t: Tid)
    requires t < |s.cs| && s.cs[t].Busy? && s.cs[t].at.Clear? && s.cs[t].at.h < |s.ix.headers| && s.cs[t].at.slot < |s.ix.headers[s.cs[t].at.h].index|
    requires s.ix.headers[s.cs[t].at.h].index[s.cs[t].at.slot] < |s.st.values| && s.cs[t].at.b < |s.st.place|
    ensures StepReady(s, t) && StepNext(s, t) == AfterClear(s, t)
  {}

  lemma ClearAttended(place: seq<Place>, pp: Producer, cs: seq<Consumer>, t: Tid, c: Consumer, x: BlockId)
    requires AllAttended(place, pp, cs) && t < |cs| && cs[t].Busy? && cs[t].at.Clear? && cs[t].at.b == x && x < |place|
    requires c.Busy? && c.at.Release? && c.at.b == x
    ensures AllAttended(place[x := Returning(t)], pp, cs[t := c])
  {
    var place', cs' := place[x := Returning(t)], cs[t := c];
    forall y | 0 <= y < |place'| ensures Attended(place'[y], pp, cs', y) { assert Attended(place[y], pp, cs, y); }
  }

  lemma ClearStepInv(s: State, t: Tid)
    requires Inv(s) && t < |s.cs| && s.cs[t].Busy? && s.cs[t].at.Clear?
    ensures StepReady(s, t) && Inv(StepNext(s, t))
  {
    hide IndexOk, Bound, Counted, Stored, Claimed, ShapeOk, ContentOk, Consumers, AllAttended, ConsumerOk, StepNext, StepReady, Holds;
    InvBasics(s);
    var Clear(h, slot, x, n) := s.cs[t].at;
    ClearReady(s.k, s.ix, s.st, s.cs[t], t);
    var e := s.ix.headers[h].index[slot];
    ClearNext(s, t);
    DrainedDone(s.ix, s.st, Pow2(s.k), e, x, n, t);
    ClearBound(s.ix, s.st, e, x, n, Returning(t));
    ClearCounted(s.ix, s.st, Pow2(s.k), e, x, n, Returning(t));
    ClearStored(s.st, Pow2(s.k), e, x, n, Returning(t), Published(s.k, s.st));
    ClearShape(s.k, s.ix, s.st, s.pp, e, x, n, t);
    ClearContent(s.k, s.st, s.pp, e, x, n, t);
    ClearOthers(s.k, s.ix, s.st, s.cs, e, x, n, t, At(s.cs[t], Release(h, slot, x)));
    ClearAttended(s.st.place, s.pp, s.cs, t, At(s.cs[t], Release(h, slot, x)), x);
  }

  // ---------------------------------------------------------------- blocks outside the index change hands

  function Hand(st: Store, x: BlockId, p: Place): Store
    requires x < |st.place|
  {
    st.(place := st.place[x := p])
  }

  lemma HandStore(k: nat, ix: Index, st: Store, x: BlockId, p: Place)
    requires x < |st.place| && Outside(st.place[x]) && Outside(p)
    requires Bound(ix, st) && Counted(st, Pow2(k)) && Claimed(st)
    ensures Bound(ix, Hand(st, x, p)) && Counted(Hand(st, x, p), Pow2(k)) && Claimed(Hand(st, x, p))
  {
    var st' := Hand(st, x, p);
    forall n | n in st.blockOf ensures BoundAt(ix, st', n) && CountedAt(st', Pow2(k), n) { assert BoundAt(ix, st, n) && CountedAt(st, Pow2(k), n); }
    forall y | 0 <= y < |st'.place| ensures PlaceAt(st', y) { assert PlaceAt(st, y); }
  }

  lemma HandStored(k: nat, st: Store, x: BlockId, p: Place, pp: Producer)
    requires x < |st.place| && Stored(st, Pow2(k), Published(k, st)) && ContentOk(k, st, pp)
    ensures Stored(Hand(st, x, p), Pow2(k), Published(k, st)) && ContentOk(k, Hand(st, x, p), pp)
  {
    SameCells(k, st, Hand(st, x, p), pp);
  }

  lemma HandConsumers(k: nat, ix: Index, st: Store, cs: seq<Consumer>, x: BlockId, p: Place, t: int, c: Consumer)
    requires x < |st.place| && Outside(st.place[x]) && st.head <= |st.log| && Consumers(k, ix, st, cs)
    requires st.place[x].Returning? ==> st.place[x].who == t
    requires 0 <= t < |cs| ==> ConsumerOk(k, ix, Hand(st, x, p), c, t)
    ensures Consumers(k, ix, Hand(st, x, p), if 0 <= t < |cs| then cs[t := c] else cs)
  {
    var st' := Hand(st, x, p);
    forall u | 0 <= u < |cs| && u != t ensures StoreFrame(st, st', cs[u], Pow2(k)) { assert ConsumerOk(k, ix, st, cs[u], u); }
    OthersOk(k, ix, ix, st, st', cs, t, c);
  }

  // ---- a consumer gives a cleared block to the free list

  lemma ReleaseReady(k: nat, ix: Index, st: Store, c: Consumer, t: Tid)
    requires c.Busy? && c.at.Release? && ConsumerOk(k, ix, st, c, t)
    ensures c.at.h < |ix.headers| && c.at.b < |st.place| && st.place[c.at.b] == Returning(t)
    ensures ConsumerOk(k, ix, Hand(st, c.at.b, Free), NextPart(c, ix.headers[c.at.h], c.at.h, c.at.slot), t)
  {
    NextPartOk(k, ix, Hand(st, c.at.b, Free), c, t, c.at.h, c.at.slot, Blk(c.seg - 1, Pow2(k)));
  }

  lemma ReleaseNext(s: State, t: Tid)
    requires t < |s.cs| && s.cs[t].Busy? && s.cs[t].at.Release? && s.cs[t].at.h < |s.ix.headers| && s.cs[t].at.b < |s.st.place|
    ensures StepReady(s, t)
    ensures var Release(h, slot, x) := s.cs[t].at;
            StepNext(s, t) == s.(st := Hand(s.st, x, Free), cs := s.cs[t := NextPart(s.cs[t], s.ix.headers[h], h, slot)])
  {}

  lemma ReleaseAttended(place: seq<Place>, pp: Producer, cs: seq<Consumer>, t: Tid, c: Consumer, x: BlockId)
    requires AllAttended(place, pp, cs) && t < |cs| && cs[t].Busy? && cs[t].at.Release? && cs[t].at.b == x && x < |place|
    ensures AllAttended(place[x := Free], pp, cs[t := c])
  {
    var place', cs' := place[x := Free], cs[t := c];
    forall y | 0 <= y < |place'| ensures Attended(place'[y], pp, cs', y) { assert Attended(place[y], pp, cs, y); }
  }

  lemma ReleaseStepInv(s: State, t: Tid)
    requires Inv(s) && t < |s.cs| && s.cs[t].Busy? && s.cs[t].at.Release?
    ensures StepReady(s, t) && Inv(StepNext(s, t))
  {
    hide IndexOk, Bound, Counted, Stored, Claimed, ShapeOk, ContentOk, Consumers, AllAttended, ConsumerOk, StepNext, StepReady;
    InvBasics(s);
    var Release(h, slot, x) := s.cs[t].at;
    ReleaseReady(s.k, s.ix, s.st, s.cs[t], t);
    ReleaseNext(s, t);
    HandStore(s.k, s.ix, s.st, x, Free);
    HandStored(s.k, s.st, x, Free, s.pp);
    ShapeFrame(s.k, s.ix, |s.st.log|, s.st.blockOf, s.st.values, s.st.place, s.st.place[x := Free], s.pp);
    HandConsumers(s.k, s.ix, s.st, s.cs, x, Free, t, NextPart(s.cs[t], s.ix.headers[h], h, slot));
    ReleaseAttended(s.st.place, s.pp, s.cs, t, NextPart(s.cs[t], s.ix.headers[h], h, slot), x);
  }

  // ---- other producers take free blocks and give them back

  lemma PoolAttended(place: seq<Place>, pp: Producer, cs: seq<Consumer>, x: BlockId, p: Place)
    requires AllAttended(place, pp, cs) && x < |place| && (p.Free? || p.Elsewhere?)
    ensures AllAttended(place[x := p], pp, cs)
  {
    var place' := place[x := p];
    forall y | 0 <= y < |place'| ensures Attended(place'[y], pp, cs, y) { assert Attended(place[y], pp, cs, y); }
  }

  lemma PoolInv(s: State, x: BlockId, p: Place)
    requires Inv(s) && x < |s.st.place| && (s.st.place[x].Free? || s.st.place[x].Elsewhere?) && (p.Free? || p.Elsewhere?)
    ensures Inv(s.(st := Hand(s.st, x, p)))
  {
    hide IndexOk, Bound, Counted, Stored, Claimed, ShapeOk, ContentOk, Consumers, AllAttended, ConsumerOk;
    InvBasics(s);
    HandStore(s.k, s.ix, s.st, x, p);
    HandStored(s.k, s.st, x, p, s.pp);
    ShapeFrame(s.k, s.ix, |s.st.log|, s.st.blockOf, s.st.values, s.st.place, s.st.place[x := p], s.pp);
    HandConsumers(s.k, s.ix, s.st, s.cs, x, p, -1, Idle);
    PoolAttended(s.st.place, s.pp, s.cs, x, p);
  }

  // ---------------------------------------------------------------- a consumer claims elements

  function ClaimStore(st: Store, t: Tid, count: nat): Store {
    st.(head := st.head + count, owner := st.owner + Owned(st.head, st.head + count, t))
  }

  lemma ClaimStoreOk(k: nat, ix: Index, st: Store, t: Tid, count: nat, pp: Producer)
    requires Bound(ix, st) && Counted(st, Pow2(k)) && Stored(st, Pow2(k), Published(k, st)) && ContentOk(k, st, pp)
    ensures var st' := ClaimStore(st, t, count);
            Bound(ix, st') && Counted(st', Pow2(k)) && Stored(st', Pow2(k), Published(k, st)) && ContentOk(k, st', pp)
  {
    SameBound(ix, st, ClaimStore(st, t, count), Pow2(k));
    SameCells(k, st, ClaimStore(st, t, count), pp);
  }

  /** Bound and Counted look at the blocks and the counted elements only. */
  lemma SameBound(ix: Index, st: Store, st': Store, b: nat)
    requires Bound(ix, st) && Counted(st, b)
    requires st'.values == st.values && st'.place == st.place && st'.blocks == st.blocks && st'.blockOf == st.blockOf && st'.done == st.done
    ensures Bound(ix, st') && Counted(st', b)
  {
    forall n | n in st.blockOf ensures BoundAt(ix, st', n) && CountedAt(st', b, n) { assert BoundAt(ix, st, n) && CountedAt(st, b, n); }
    forall y | 0 <= y < |st'.place| ensures PlaceAt(st', y) { assert PlaceAt(st, y); }
  }

  /** Stored and ContentOk look at the cells and the elements handed out only. */
  lemma SameCells(k: nat, st: Store, st': Store, pp: Producer)
    requires Stored(st, Pow2(k), Published(k, st)) && ContentOk(k, st, pp)
    requires st'.blocks == st.blocks && st'.blockOf == st.blockOf && st'.log == st.log && st'.tailBlock == st.tailBlock
    requires st'.done == st.done && st'.delivered == st.delivered
    ensures Stored(st', Pow2(k), Published(k, st)) && ContentOk(k, st', pp)
  {
    forall j: nat | j < |st.log| && j !in st'.delivered ensures CellIs(st', Pow2(k), j, st.log[j]) { assert CellIs(st, Pow2(k), j, st.log[j]); }
    if pp.PWrite? {
      forall i | 0 <= i < pp.j && i < |pp.xs| ensures CellIs(st', Pow2(k), |st.log| + i, pp.xs[i]) {
        assert CellIs(st, Pow2(k), |st.log| + i, pp.xs[i]);
      }
    }
  }

  lemma ClaimClaimed(st: Store, t: Tid, count: nat)
    requires Claimed(st) && st.head + count <= |st.log|
    ensures Claimed(ClaimStore(st, t, count))
  {}

  lemma ClaimConsumers(k: nat, ix: Index, st: Store, cs: seq<Consumer>, t: Tid, count: nat)
    requires Claimed(st) && Consumers(k, ix, st, cs) && t < |cs| && 0 < count
    ensures Consumers(k, ix, ClaimStore(st, t, count), cs[t := Busy(st.head, count, st.head, st.head, LoadIndex)])
  {
    var st' := ClaimStore(st, t, count);
    forall u | 0 <= u < |cs| && u != t ensures StoreFrame(st, st', cs[u], Pow2(k)) { assert ConsumerOk(k, ix, st, cs[u], u); }
    OthersOk(k, ix, ix, st, st', cs, t, Busy(st.head, count, st.head, st.head, LoadIndex));
  }

  lemma ClaimInv(s: State, t: Tid, count: nat)
    requires Inv(s) && t < |s.cs| && s.cs[t].Idle? && 0 < count && s.st.head + count <= |s.st.log|
    ensures Inv(ClaimNext(s, t, count))
  {
    hide IndexOk, Bound, Counted, Stored, Claimed, ShapeOk, ContentOk, Consumers, AllAttended, ConsumerOk;
    ClaimStoreOk(s.k, s.ix, s.st, t, count, s.pp);
    ClaimClaimed(s.st, t, count);
    ClaimConsumers(s.k, s.ix, s.st, s.cs, t, count);
    MoveAttended(s.st.place, s.pp, s.cs, t, Busy(s.st.head, count, s.st.head, s.st.head, LoadIndex));
  }
}
