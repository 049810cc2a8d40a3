/**
  The implicit producer of concurrentqueue.h as one thread sees it: linked blocks in memory, a
  circular block index and a block pool, which behave like a sequence under enqueue, enqueue_bulk,
  dequeue and dequeue_bulk, whatever allocations fail in between.

  Memory is a sequence of blocks and a pointer to a block is its address there, so that two
  pointers may be the same, and a pointer may outlive its block's stay in the queue.
*/
module ImplicitQueue {
  import opened Allocation
  import opened Jobs
  import opened Options
  import opened Words
  import opened BlockIndex
  import opened BlockNumbers
  import Counters = DequeueCounters

  type Value = Socks

  type BlockId = nat

  /** A Block in memory: its elements, elementsCompletelyDequeued and its link to the next one. */
  datatype Block = Block(cells: seq<Option<Value>>, emptied: nat, next: Option<BlockId>)

  // ---------------------------------------------------------------- the index and the blocks in it

  /** The entries with a value are those of the blocks in the index. */
  ghost predicate Entries(ix: Index, values: seq<Option<BlockId>>, blockOf: map<nat, BlockId>) {
    && |values| == |ix.keys|
    && (forall n <- blockOf :: ix.lo <= n < ix.top && n in ix.entryOf && ix.entryOf[n] < |values| && values[ix.entryOf[n]] == Some(blockOf[n]))
    && (forall e | 0 <= e < |values| && values[e].Some? ::
          ix.keys[e].Some? && ix.keys[e].value in blockOf && ix.entryOf[ix.keys[e].value] == e)
  }

  /** Blocks f .. p are in the index, whose tail is block p - 1. */
  ghost predicate Window(ix: Index, values: seq<Option<BlockId>>, blockOf: map<nat, BlockId>, f: nat, q: nat, p: nat, k: nat) {
    && IndexOk(ix) && k + ix.Cur().c <= 64 && Entries(ix, values, blockOf) && f <= q <= p
    && (forall n: nat :: n in blockOf <==> f <= n < p)
    && ix.Cur().tn + 1 == p && ix.lo <= q
  }

  /** The block after the last one has been given entry e, still empty. */
  ghost predicate Inserted(ix: Index, values: seq<Option<BlockId>>, blockOf: map<nat, BlockId>, f: nat, q: nat, p: nat, k: nat, e: EntryId) {
    && IndexOk(ix) && k + ix.Cur().c <= 64 && Entries(ix, values, blockOf) && f <= q <= p
    && (forall n: nat :: n in blockOf <==> f <= n < p)
    && ix.Cur().tn == p < ix.top && ix.lo <= q && p in ix.entryOf && ix.entryOf[p] == e < |values| && values[e] == None
  }

  /** idxEntry->key.store(blockStartIndex); localBlockIndex->tail.store(newTail); */
  function StoreBoth(ix: Index): Index
    requires ix.headers != [] && NewTail(ix.Cur()) < |ix.Cur().index| && Candidate(ix) < |ix.keys| && NextBlock(ix) >= 0
  {
    StoreTail(StoreKey(ix))
  }

  /** An entry without a key has no value. */
  lemma NoKey(ix: Index, values: seq<Option<BlockId>>, blockOf: map<nat, BlockId>, f: nat, q: nat, p: nat, k: nat, e: EntryId)
    requires Window(ix, values, blockOf, f, q, p, k) && e < |ix.keys| && ix.keys[e] == None
    ensures e < |values| && values[e] == None
  {}

  lemma CandidateReady(ix: Index, values: seq<Option<BlockId>>, blockOf: map<nat, BlockId>, f: nat, q: nat, p: nat, k: nat)
    requires Window(ix, values, blockOf, f, q, p, k)
    ensures ix.headers != [] && NewTail(ix.Cur()) < |ix.Cur().index| == ix.Cur().Cap() && Candidate(ix) < |ix.keys| == |values| && NextBlock(ix) == p
    ensures ix.Cur().tail < ix.Cur().Cap()
  {
    CandidateIs(ix);
    CurFacts(ix);
  }

  lemma CurFacts(ix: Index)
    requires IndexOk(ix)
    ensures |ix.Cur().index| == ix.Cur().Cap() && ix.Cur().tail == ix.Cur().SlotOf(ix.Cur().tn) && ix.Cur().tn < ix.top == ix.Cur().hi
    ensures ix.top <= ix.lo + ix.Cur().Cap() && ix.headers != []
  {
    assert HeaderOk(ix, ix.Cur());
  }

  /** The entry is free: its key, and then the tail, are set. */
  lemma InsertOk(ix: Index, values: seq<Option<BlockId>>, blockOf: map<nat, BlockId>, f: nat, q: nat, p: nat, k: nat)
    requires Window(ix, values, blockOf, f, q, p, k)
    requires NewTail(ix.Cur()) < |ix.Cur().index| && Candidate(ix) < |ix.keys| == |values| && values[Candidate(ix)] == None && NextBlock(ix) >= 0
    ensures Inserted(StoreBoth(ix), values, blockOf, f, q, p, k, Candidate(ix))
  {
    StoreKeyOk(ix);
    KeyEntries(ix, values, blockOf, f, q, p, k);
    StoreTailOk(StoreKey(ix));
    TailEntries(StoreKey(ix), StoreTail(StoreKey(ix)), values, blockOf);
    hide IndexOk, Entries, StoreKey;
    KeyKeeps(ix);
  }

  lemma KeyKeeps(ix: Index)
    requires ix.headers != [] && NewTail(ix.Cur()) < |ix.Cur().index| && Candidate(ix) < |ix.keys| && NextBlock(ix) >= 0
    ensures var ix' := StoreKey(ix); ix'.headers != [] && ix'.Cur().tn == ix.Cur().tn && ix'.Cur().c == ix.Cur().c && |ix'.keys| == |ix.keys|
  {}

  lemma KeyEntries(ix: Index, values: seq<Option<BlockId>>, blockOf: map<nat, BlockId>, f: nat, q: nat, p: nat, k: nat)
    requires Window(ix, values, blockOf, f, q, p, k)
    requires NewTail(ix.Cur()) < |ix.Cur().index| && Candidate(ix) < |ix.keys| && values[Candidate(ix)] == None && NextBlock(ix) >= 0
    ensures Entries(StoreKey(ix), values, blockOf) && StoreKey(ix).lo <= q
  {
    CandidateIs(ix);
    CurFacts(ix);
    hide IndexOk, Pow2, And;
  }

  lemma TailEntries(ix: Index, ix': Index, values: seq<Option<BlockId>>, blockOf: map<nat, BlockId>)
    requires Entries(ix, values, blockOf) && ix'.keys == ix.keys && ix'.lo == ix.lo && ix'.top == ix.top && ix'.entryOf == ix.entryOf
    ensures Entries(ix', values, blockOf)
  {}

  /** The entry is in use: the index has no slot left, and growing it gives a free one. */
  lemma GrowWindow(ix: Index, values: seq<Option<BlockId>>, blockOf: map<nat, BlockId>, f: nat, q: nat, p: nat, k: nat)
    requires Window(ix, values, blockOf, f, q, p, k) && k + ix.Cur().c < 64
    requires NewTail(ix.Cur()) < |ix.Cur().index| == ix.Cur().Cap() && Candidate(ix) < |ix.keys| && values[Candidate(ix)].Some?
    ensures var values' := values + seq(ix.Cur().Cap(), _ => None);
            Window(Grow(ix), values', blockOf, f, q, p, k) && values'[|ix.keys|] == None
    ensures NewTail(Grow(ix).Cur()) < |Grow(ix).Cur().index| && Candidate(Grow(ix)) == |ix.keys|
  {
    CandidateIs(ix);
    CurFacts(ix);
    GrowOk(ix);
    GrowEntries(ix, values, blockOf);
    hide IndexOk, Entries;
  }

  function CapOf(ix: Index): nat { if ix.headers == [] then 0 else ix.Cur().Cap() }

  /** The entry after the tail is in use exactly when the blocks in the index fill its slots. */
  lemma EntryInUse(ix: Index, values: seq<Option<BlockId>>, blockOf: map<nat, BlockId>, f: nat, q: nat, p: nat, k: nat)
    requires Window(ix, values, blockOf, f, q, p, k)
    requires NewTail(ix.Cur()) < |ix.Cur().index| && Candidate(ix) < |values|
    ensures values[Candidate(ix)].Some? <==> p - f >= CapOf(ix)
  {
    CandidateIs(ix);
    CurFacts(ix);
    EntriesApart(ix);
    hide IndexOk, Pow2, And, NewTail, Candidate;
    var e := Candidate(ix);
    assert p > f ==> f in blockOf && values[ix.entryOf[f]] == Some(blockOf[f]);
    if values[e].Some? {
      var m := ix.keys[e].value;
      assert m in blockOf && ix.entryOf[m] == e;
    }
  }

  lemma GrowEntries(ix: Index, values: seq<Option<BlockId>>, blockOf: map<nat, BlockId>)
    requires ix.headers != [] && |ix.Cur().index| == ix.Cur().Cap() && Entries(ix, values, blockOf)
    ensures Entries(Grow(ix), values + seq(ix.Cur().Cap(), _ => None), blockOf)
  {}

  lemma SameCap(ix: Index)
    requires ix.headers != [] && NewTail(ix.Cur()) < |ix.Cur().index| && Candidate(ix) < |ix.keys| && NextBlock(ix) >= 0
    ensures CapOf(StoreBoth(ix)) == CapOf(ix)
  {
    KeyKeeps(ix);
  }

  lemma GrowCap(ix: Index)
    requires ix.headers != [] && |ix.Cur().index| == ix.Cur().Cap()
    ensures CapOf(Grow(ix)) == 2 * CapOf(ix)
  {}

  /** Rewinding the tail undoes the insertion. */
  lemma UndoInsert(ix: Index, values: seq<Option<BlockId>>, blockOf: map<nat, BlockId>, f: nat, q: nat, p: nat, k: nat, e: EntryId)
    requires Inserted(ix, values, blockOf, f, q, p, k, e)
    ensures Window(Rewind(ix), values, blockOf, f, q, p, k) && values[e := None] == values
  {
    RewindOk(ix);
    TailEntries(ix, Rewind(ix), values, blockOf);
    hide IndexOk, Entries;
  }

  lemma InsertedHeaders(ix: Index, values: seq<Option<BlockId>>, blockOf: map<nat, BlockId>, f: nat, q: nat, p: nat, k: nat, e: EntryId)
    requires Inserted(ix, values, blockOf, f, q, p, k, e)
    ensures ix.headers != []
  {}

  lemma PutWindow(ix: Index, values: seq<Option<BlockId>>, blockOf: map<nat, BlockId>, f: nat, q: nat, p: nat, k: nat, e: EntryId, x: BlockId)
    requires Inserted(ix, values, blockOf, f, q, p, k, e)
    ensures Window(ix, values[e := Some(x)], blockOf[p := x], f, q, p + 1, k)
  {
    EntriesApart(ix);
    assert ix.keys[e] == Some(p);
  }

  // ---- lookups

  /** The first m blocks after p have been put in; j of them are out again, and the tail is back by as many. */
  ghost predicate Rolling(ix: Index, values: seq<Option<BlockId>>, blockOf: map<nat, BlockId>, f: nat, p: nat, j: nat, m: nat, k: nat) {
    && IndexOk(ix) && k + ix.Cur().c <= 64 && Entries(ix, values, blockOf) && f <= p && j <= m
    && (forall n: nat :: n in blockOf <==> f <= n < p || p + j <= n < p + m)
    && ix.Cur().tn + 1 == p + m - j && ix.lo <= p
  }

  lemma WindowRolling(ix: Index, values: seq<Option<BlockId>>, blockOf: map<nat, BlockId>, f: nat, p: nat, m: nat, k: nat)
    ensures Window(ix, values, blockOf, f, p, p + m, k) ==> Rolling(ix, values, blockOf, f, p, 0, m, k)
    ensures Rolling(ix, values, blockOf, f, p, m, m, k) ==> Window(ix, values, blockOf, f, p, p, k)
  {}

  /** Looking up a block that is in the index, with the tail on any block of the index window. */
  lemma FindsEntry(ix: Index, values: seq<Option<BlockId>>, blockOf: map<nat, BlockId>, n: nat, i: nat, k: nat)
    requires IndexOk(ix) && Entries(ix, values, blockOf) && n in blockOf && Blk(i, Pow2(k)) == n && k + ix.Cur().c <= 64 && ix.lo <= ix.Cur().tn
    ensures CanFind(ix, ix.Cur(), ix.Cur().tail, i, k)
    ensures n in ix.entryOf && ix.Cur().index[Found(ix, ix.Cur(), ix.Cur().tail, i, k)] == ix.entryOf[n] < |values| && values[ix.entryOf[n]] == Some(blockOf[n])
  {
    hide Pow2, Found, CanFind, IndexOk;
    CurFacts(ix);
    assert n in blockOf && n < ix.top;
    BlkPos(i, Pow2(k));
    FindsBlock(k, ix, |ix.headers| - 1, i, n, ix.Cur().tn);
  }

  /** The block leaves the index. */
  lemma ClearEntries(ix: Index, values: seq<Option<BlockId>>, blockOf: map<nat, BlockId>, n: nat)
    requires IndexOk(ix) && Entries(ix, values, blockOf) && n in blockOf && n in ix.entryOf && ix.entryOf[n] < |values|
    ensures Entries(ix, values[ix.entryOf[n] := None], blockOf - {n})
  {
    EntriesApart(ix);
  }

  lemma RewindFacts(ix: Index)
    requires ix.headers != []
    ensures var ix' := Rewind(ix);
            && ix'.keys == ix.keys && ix'.lo == ix.lo && ix'.top == ix.top && ix'.entryOf == ix.entryOf
            && ix'.headers != [] && ix'.Cur().tn == ix.Cur().tn - 1 && ix'.Cur().c == ix.Cur().c
  {}

  lemma RollStep(ix: Index, values: seq<Option<BlockId>>, blockOf: map<nat, BlockId>, f: nat, p: nat, j: nat, m: nat, k: nat)
    requires Rolling(ix, values, blockOf, f, p, j, m, k) && j < m
    ensures var n := p + j;
            && ix.headers != [] && CanFind(ix, ix.Cur(), ix.Cur().tail, Base(n, Pow2(k)), k) && n in ix.entryOf && n in blockOf
            && ix.Cur().index[Found(ix, ix.Cur(), ix.Cur().tail, Base(n, Pow2(k)), k)] == ix.entryOf[n] < |values|
            && Rolling(Rewind(ix), values[ix.entryOf[n] := None], blockOf - {n}, f, p, j + 1, m, k)
  {
    hide IndexOk, Entries, Found, CanFind, Pow2, Rewind;
    var n := p + j;
    InBlock(Base(n, Pow2(k)), n, Pow2(k));
    FindsEntry(ix, values, blockOf, n, Base(n, Pow2(k)), k);
    ClearEntries(ix, values, blockOf, n);
    CurFacts(ix);
    RewindOk(ix);
    RewindFacts(ix);
    TailEntries(ix, Rewind(ix), values[ix.entryOf[n] := None], blockOf - {n});
  }

  /** The oldest block leaves the index. */
  lemma ClearFirst(ix: Index, values: seq<Option<BlockId>>, blockOf: map<nat, BlockId>, f: nat, q: nat, p: nat, k: nat)
    requires Window(ix, values, blockOf, f, q, p, k) && f < q
    ensures f in ix.entryOf && ix.entryOf[f] < |values| && Window(ix, values[ix.entryOf[f] := None], blockOf - {f}, f + 1, q, p, k)
  {
    ClearEntries(ix, values, blockOf, f);
    hide IndexOk;
  }

  // ---------------------------------------------------------------- where blocks are

  /** Every block is in somebody's hand, in the pool or in the index, and only once. */
  ghost predicate Placed(size: nat, blockOf: map<nat, BlockId>, free: seq<BlockId>, hand: set<BlockId>) {
    && (forall n <- blockOf :: blockOf[n] < size && blockOf[n] !in hand)
    && (forall n <- blockOf, m <- blockOf :: n != m ==> blockOf[n] != blockOf[m])
    && (forall i | 0 <= i < |free| :: free[i] < size && free[i] !in hand && forall n <- blockOf :: blockOf[n] != free[i])
    && (forall i, j | 0 <= i < j < |free| :: free[i] != free[j])
    && (forall x <- hand :: x < size)
    && (forall x: nat | x < size :: x in hand || x in free || InIndex(blockOf, x))
  }

  ghost predicate InIndex(blockOf: map<nat, BlockId>, x: BlockId) { exists n :: n in blockOf && blockOf[n] == x }

  lemma TakeFree(size: nat, blockOf: map<nat, BlockId>, free: seq<BlockId>)
    requires Placed(size, blockOf, free, {}) && free != []
    ensures Placed(size, blockOf, free[..|free| - 1], {free[|free| - 1]})
  {
    assert free == free[..|free| - 1] + [free[|free| - 1]];
  }

  lemma TakeNew(size: nat, blockOf: map<nat, BlockId>, free: seq<BlockId>)
    requires Placed(size, blockOf, free, {})
    ensures Placed(size + 1, blockOf, free, {size})
  {}

  lemma PutIn(size: nat, blockOf: map<nat, BlockId>, free: seq<BlockId>, x: BlockId, n: nat)
    requires Placed(size, blockOf, free, {x}) && n !in blockOf
    ensures Placed(size, blockOf[n := x], free, {})
  {
    var blockOf' := blockOf[n := x];
    forall y: nat | y < size && y !in free ensures InIndex(blockOf', y) {
      if y == x {
        assert blockOf'[n] == y;
      } else {
        var m :| m in blockOf && blockOf[m] == y;
        assert blockOf'[m] == y;
      }
    }
  }

  lemma PutBack(size: nat, blockOf: map<nat, BlockId>, free: seq<BlockId>, x: BlockId)
    requires Placed(size, blockOf, free, {x})
    ensures Placed(size, blockOf, free + [x], {})
  {}

  lemma TakeOut(size: nat, blockOf: map<nat, BlockId>, free: seq<BlockId>, n: nat)
    requires Placed(size, blockOf, free, {}) && n in blockOf
    ensures Placed(size, blockOf - {n}, free, {blockOf[n]})
  {
    var blockOf' := blockOf - {n};
    forall y: nat | y < size && y !in free && y != blockOf[n] ensures InIndex(blockOf', y) {
      var m :| m in blockOf && blockOf[m] == y;
      assert blockOf'[m] == y;
    }
  }

  lemma PlacedIn(size: nat, blockOf: map<nat, BlockId>, free: seq<BlockId>, hand: set<BlockId>)
    requires Placed(size, blockOf, free, hand)
    ensures forall n <- blockOf :: blockOf[n] < size && blockOf[n] !in hand
    ensures forall n <- blockOf, m <- blockOf :: n != m ==> blockOf[n] != blockOf[m]
    ensures forall i | 0 <= i < |free| :: free[i] < size
  {}

  // ---------------------------------------------------------------- what blocks hold

  ghost predicate Sized(blocks: seq<Block>, b: nat) { forall x | 0 <= x < |blocks| :: |blocks[x].cells| == b }

  /** The elements from `head` on are in their cells. */
  ghost predicate Content(blocks: seq<Block>, blockOf: map<nat, BlockId>, head: nat, log: seq<Value>, b: nat)
    requires b > 0
  {
    forall i: nat | head <= i < |log| :: CellIs(blocks, blockOf, b, i, log[i])
  }

  ghost predicate CellIs(blocks: seq<Block>, blockOf: map<nat, BlockId>, b: nat, i: nat, v: Value)
    requires b > 0
  {
    && Blk(i, b) in blockOf && blockOf[Blk(i, b)] < |blocks| && Pos(i, b) < |blocks[blockOf[Blk(i, b)]].cells|
    && blocks[blockOf[Blk(i, b)]].cells[Pos(i, b)] == Some(v)
  }

  /** Only the first block has been dequeued from. */
  ghost predicate Counts(blocks: seq<Block>, blockOf: map<nat, BlockId>, head: nat, b: nat)
    requires b > 0
  {
    forall n <- blockOf :: blockOf[n] < |blocks| && blocks[blockOf[n]].emptied == if n == Blk(head, b) then Pos(head, b) else 0
  }

  function After(chain: seq<BlockId>, j: nat): Option<BlockId> { if j + 1 < |chain| then Some(chain[j + 1]) else None }

  /** The blocks of `chain` follow one another from `first` on. */
  ghost predicate Linked(blocks: seq<Block>, first: Option<BlockId>, chain: seq<BlockId>) {
    && first == (if chain == [] then None else Some(chain[0]))
    && (forall j | 0 <= j < |chain| :: chain[j] < |blocks| && blocks[chain[j]].next == After(chain, j))
  }

  lemma LinkedFrom(blocks: seq<Block>, first: Option<BlockId>, chain: seq<BlockId>, j: nat)
    requires Linked(blocks, first, chain)
    ensures first == (if 0 < |chain| then Some(chain[0]) else None)
    ensures j < |chain| ==> chain[j] < |blocks| && blocks[chain[j]].next == if j + 1 < |chain| then Some(chain[j + 1]) else None
  {}

  /** They are the blocks from p on. */
  ghost predicate Chained(blockOf: map<nat, BlockId>, p: nat, chain: seq<BlockId>) {
    forall n | p <= n < p + |chain| :: n in blockOf && blockOf[n] == chain[n - p]
  }

  /** `was` is what is in the index before p. */
  ghost predicate CutAt(blockOf: map<nat, BlockId>, was: map<nat, BlockId>, p: nat) {
    && (forall n: nat :: n in was <==> n in blockOf && n < p)
    && (forall n <- was :: blockOf[n] == was[n])
  }

  lemma CutTwice(all: map<nat, BlockId>, blockOf: map<nat, BlockId>, was: map<nat, BlockId>, p: nat)
    requires CutAt(all, blockOf, p) && CutAt(all, was, p)
    ensures CutAt(blockOf, was, p) && blockOf == was
  {}

  /** The other blocks are as they were. */
  ghost predicate SameBut(blocks: seq<Block>, blocks': seq<Block>, xs: set<BlockId>) {
    |blocks| <= |blocks'| && forall y | 0 <= y < |blocks| && y !in xs :: blocks'[y] == blocks[y]
  }

  /** The elements and counters of these blocks are as they were. */
  ghost predicate SameData(blocks: seq<Block>, blocks': seq<Block>, was: map<nat, BlockId>) {
    |blocks| <= |blocks'| && forall n <- was :: was[n] < |blocks| ==> blocks'[was[n]].cells == blocks[was[n]].cells && blocks'[was[n]].emptied == blocks[was[n]].emptied
  }

  lemma SameDataSelf(blocks: seq<Block>, was: map<nat, BlockId>)
    ensures SameData(blocks, blocks, was)
  {}

  lemma SameDataOn(blocks: seq<Block>, blocks1: seq<Block>, blocks2: seq<Block>, was: map<nat, BlockId>)
    requires SameData(blocks, blocks1, was) && SameData(blocks1, blocks2, was)
    ensures SameData(blocks, blocks2, was)
  {}

  /** A block in the index that is, or is not, the one with index i. */
  ghost predicate IsBlockOf(blockOf: map<nat, BlockId>, x: Option<BlockId>, i: nat, b: nat)
    requires b > 0
  {
    Blk(i, b) in blockOf && x == Some(blockOf[Blk(i, b)])
  }

  lemma ChainFresh(size: nat, was: map<nat, BlockId>, free: seq<BlockId>, p: nat, chain: seq<BlockId>)
    requires Placed(size, was, free, {}) && Chained(was, p, chain)
    ensures forall i, j | 0 <= i < j < |chain| :: chain[i] != chain[j]
    ensures forall i, j | 0 <= i < |free| && 0 <= j < |chain| :: free[i] != chain[j]
    ensures forall j | 0 <= j < |chain| :: chain[j] < size && forall n <- was :: n < p ==> was[n] != chain[j]
  {
    forall j | 0 <= j < |chain| ensures p + j in was && was[p + j] == chain[j] {}
  }

  lemma RolledPlaced(size: nat, was: map<nat, BlockId>, blockOf: map<nat, BlockId>, free: seq<BlockId>, p: nat, chain: seq<BlockId>)
    requires Placed(size, was, free, {}) && Chained(was, p, chain) && CutAt(was, blockOf, p)
    requires forall n <- was :: n < p + |chain|
    ensures Placed(size, blockOf, free + chain, {})
  {
    ChainFresh(size, was, free, p, chain);
    forall n: nat | n in was && p <= n ensures was[n] in free + chain { assert chain[n - p] == was[n]; }
    forall y: nat | y < size && y !in free + chain ensures InIndex(blockOf, y) {
      var n: nat :| n in was && was[n] == y;
      assert n in blockOf && blockOf[n] == y;
    }
  }

  // ---------------------------------------------------------------- facts about the window

  lemma WindowKeys(ix: Index, values: seq<Option<BlockId>>, blockOf: map<nat, BlockId>, f: nat, q: nat, p: nat, k: nat)
    requires Window(ix, values, blockOf, f, q, p, k)
    ensures forall n: nat :: n in blockOf <==> f <= n < p
    ensures f <= q <= p && k <= 64 && ix.headers != []
  {}

  lemma RollingKeys(ix: Index, values: seq<Option<BlockId>>, blockOf: map<nat, BlockId>, f: nat, p: nat, j: nat, m: nat, k: nat)
    requires Rolling(ix, values, blockOf, f, p, j, m, k)
    ensures forall n: nat :: n in blockOf <==> f <= n < p || p + j <= n < p + m
  {}

  lemma WindowPublished(ix: Index, values: seq<Option<BlockId>>, blockOf: map<nat, BlockId>, f: nat, q: nat, p: nat, k: nat)
    requires Window(ix, values, blockOf, f, q, p, k)
    ensures Window(ix, values, blockOf, f, p, p, k)
  {}

  lemma EntryIn(ix: Index, values: seq<Option<BlockId>>, blockOf: map<nat, BlockId>, f: nat, q: nat, p: nat, k: nat, e: EntryId)
    requires Inserted(ix, values, blockOf, f, q, p, k, e)
    ensures ix.headers != [] && e < |values| && p !in blockOf
  {}

  /** A block after the published ones is the first to dequeue from only if nothing has been dequeued from it. */
  lemma NewCount(tail: nat, head: nat, m: nat, b: nat)
    requires b > 0 && head <= tail
    ensures Blk(head, b) <= Blocks(tail, b)
    ensures Blk(head, b) == Blocks(tail, b) + m ==> Pos(head, b) == 0
  {
    BlkMonotone(head, tail, b);
    BlocksAt(tail, b);
    BlkPos(head, b);
    BlkPos(tail, b);
  }

  // ---- the blocks of a bulk

  /** `was` is in the index, followed by `chain`, whose blocks are cleared. */
  ghost predicate NewChain(blocks: seq<Block>, blockOf: map<nat, BlockId>, was: map<nat, BlockId>, chain: seq<BlockId>, tail: nat, b: nat)
    requires b > 0
  {
    && Chained(blockOf, Blocks(tail, b), chain) && CutAt(blockOf, was, Blocks(tail, b))
    && forall x <- chain :: x < |blocks| && blocks[x].emptied == 0
  }

  /** The chain is linked, and a partly filled tail block, which is in the index, is linked to it. */
  ghost predicate Links(blocks: seq<Block>, tailBlock: Option<BlockId>, startBlock: Option<BlockId>, first: Option<BlockId>,
    chain: seq<BlockId>, was: map<nat, BlockId>, tail: nat, b: nat)
    requires b > 0
  {
    && Linked(blocks, first, chain) && tailBlock == (if chain == [] then startBlock else Some(chain[|chain| - 1]))
    && (Pos(tail, b) != 0 ==> IsBlockOf(was, startBlock, tail, b) && startBlock.value < |blocks|)
    && (Pos(tail, b) != 0 && chain != [] ==> blocks[startBlock.value].next == first)
  }

  /** x is not in the chain, nor the tail block, and the chain has no block twice. */
  ghost predicate LinkApart(chain: seq<BlockId>, x: BlockId, was: map<nat, BlockId>, tail: nat, b: nat)
    requires b > 0
  {
    && x !in chain && (forall i, j | 0 <= i < j < |chain| :: chain[i] != chain[j])
    && (Pos(tail, b) != 0 && Blk(tail, b) in was ==> was[Blk(tail, b)] != x && was[Blk(tail, b)] !in chain)
  }

  lemma InChain(size: nat, blocks: seq<Block>, blockOf: map<nat, BlockId>, free: seq<BlockId>, was: map<nat, BlockId>, chain: seq<BlockId>, tail: nat, b: nat)
    requires b > 0 && size == |blocks| && Placed(size, blockOf, free, {}) && NewChain(blocks, blockOf, was, chain, tail, b)
    ensures forall y <- chain :: InIndex(blockOf, y) && y < |blocks|
    ensures forall n <- was :: InIndex(blockOf, was[n]) && was[n] < |blocks|
  {
    forall y | y in chain ensures InIndex(blockOf, y) {
      var j :| 0 <= j < |chain| && chain[j] == y;
      assert Blocks(tail, b) + j in blockOf && blockOf[Blocks(tail, b) + j] == y;
    }
  }

  /** A new block that is not in the index leaves the links alone. */
  lemma LinksKept(blocks: seq<Block>, blocks': seq<Block>, blockOf: map<nat, BlockId>, xs: set<BlockId>, tailBlock: Option<BlockId>, startBlock: Option<BlockId>,
    first: Option<BlockId>, chain: seq<BlockId>, was: map<nat, BlockId>, tail: nat, b: nat)
    requires b > 0 && Links(blocks, tailBlock, startBlock, first, chain, was, tail, b) && NewChain(blocks, blockOf, was, chain, tail, b)
    requires SameBut(blocks, blocks', xs) && forall n <- blockOf :: blockOf[n] !in xs
    requires (forall y <- chain :: InIndex(blockOf, y)) && (forall n <- was :: InIndex(blockOf, was[n]) && was[n] < |blocks|)
    ensures Links(blocks', tailBlock, startBlock, first, chain, was, tail, b) && NewChain(blocks', blockOf, was, chain, tail, b)
    ensures SameData(blocks, blocks', was)
  {
    forall y | InIndex(blockOf, y) ensures y !in xs {}
    hide InIndex, Blk, Pos, Blocks, Chained, CutAt;
  }

  /** The block of a partly filled tail and the blocks of the chain are all different. */
  lemma ChainApart(size: nat, blocks: seq<Block>, blockOf: map<nat, BlockId>, blockOf': map<nat, BlockId>, free: seq<BlockId>, was: map<nat, BlockId>, chain: seq<BlockId>, x: BlockId, tail: nat, b: nat)
    requires b > 0 && Placed(size, blockOf', free, {}) && NewChain(blocks, blockOf, was, chain, tail, b)
    requires Blocks(tail, b) + |chain| !in blockOf && blockOf' == blockOf[Blocks(tail, b) + |chain| := x]
    ensures LinkApart(chain, x, was, tail, b)
  {
    BlocksAt(tail, b);
    var p := Blocks(tail, b);
    forall j | 0 <= j < |chain| ensures p + j in blockOf' && blockOf'[p + j] == chain[j] {}
    assert blockOf'[p + |chain|] == x;
    assert forall n <- was :: n in blockOf' && blockOf'[n] == was[n] && n < p;
    hide Blk, Pos, Blocks;
  }

  lemma ChainGrows(blocks0: seq<Block>, blocks: seq<Block>, blocks': seq<Block>, blockOf: map<nat, BlockId>, blockOf': map<nat, BlockId>, was: map<nat, BlockId>, chain: seq<BlockId>, x: BlockId, tail: nat, b: nat)
    requires b > 0 && NewChain(blocks, blockOf, was, chain, tail, b) && blockOf' == blockOf[Blocks(tail, b) + |chain| := x]
    requires x < |blocks| == |blocks'| && blocks[x].emptied == 0
    requires forall y | 0 <= y < |blocks| :: blocks'[y] == blocks[y].(next := blocks'[y].next)
    requires SameData(blocks0, blocks, was)
    ensures NewChain(blocks', blockOf', was, chain + [x], tail, b) && SameData(blocks0, blocks', was)
  {}

  // ---- ranges of elements, block by block

  lemma BlkIn(begin: nat, end: nat, f: nat, b: nat)
    requires b > 0 && f <= Blk(begin, b) && begin <= end
    ensures forall i: nat | begin <= i < end :: f <= Blk(i, b) < Blocks(end, b)
  {
    forall i: nat | begin <= i < end ensures f <= Blk(i, b) < Blocks(end, b) {
      BlkMonotone(begin, i, b);
      BlocksCover(i, end, b);
    }
  }

  lemma RoundFacts(blockOf: map<nat, BlockId>, f: nat, begin: nat, i: nat, end: nat, b: nat)
    requires b > 0 && f <= Blk(begin, b) && begin <= i < end
    requires forall n <- blockOf, m <- blockOf :: n != m ==> blockOf[n] != blockOf[m]
    requires forall n: nat :: n in blockOf <==> f <= n < Blocks(end, b)
    ensures var stop := StopIndex(i, end, b);
            && i < stop <= end && Blk(begin, b) <= Blk(i, b) && Blk(i, b) in blockOf && Blk(end - 1, b) in blockOf
            && (forall j: nat | i <= j < stop :: Blk(j, b) == Blk(i, b))
            && (if blockOf[Blk(i, b)] == blockOf[Blk(end - 1, b)] then stop == end
                else stop < end && Blk(stop, b) == Blk(i, b) + 1 && Blk(i, b) + 1 in blockOf)
  {
    LastOrNext(begin, i, end, b);
    BlkIn(begin, end, f, b);
  }

  /** Setting the cell of index i leaves the cells of other indices alone. */
  lemma OtherCell(blocks: seq<Block>, blockOf: map<nat, BlockId>, b: nat, i: nat, v: Option<Value>, j: nat, w: Value)
    requires b > 0 && i != j && CellIs(blocks, blockOf, b, j, w) && (forall n <- blockOf, m <- blockOf :: n != m ==> blockOf[n] != blockOf[m])
    requires Blk(i, b) in blockOf && blockOf[Blk(i, b)] < |blocks| && Pos(i, b) < |blocks[blockOf[Blk(i, b)]].cells|
    ensures CellIs(SetCell(blocks, blockOf[Blk(i, b)], Pos(i, b), v), blockOf, b, j, w)
  {
    BlkPos(i, b);
    BlkPos(j, b);
    hide Blk, Pos;
  }

  function SetCell(blocks: seq<Block>, x: BlockId, p: nat, v: Option<Value>): seq<Block>
    requires x < |blocks| && p < |blocks[x].cells|
  {
    blocks[x := blocks[x].(cells := blocks[x].cells[p := v])]
  }

  /** The block of index i has a cell for it. */
  lemma CellThere(blocks: seq<Block>, blockOf: map<nat, BlockId>, b: nat, i: nat)
    requires b > 0 && Sized(blocks, b) && Blk(i, b) in blockOf && blockOf[Blk(i, b)] < |blocks|
    ensures Pos(i, b) < |blocks[blockOf[Blk(i, b)]].cells|
  {
    BlkPos(i, b);
  }

  // ---- writing and reading cells

  /** Only elements have been written. */
  ghost predicate OnlyCells(blocks: seq<Block>, blocks': seq<Block>) {
    |blocks'| == |blocks| && forall y | 0 <= y < |blocks| :: blocks'[y] == blocks[y].(cells := blocks'[y].cells)
  }

  lemma WriteContent(blocks: seq<Block>, blockOf: map<nat, BlockId>, head: nat, before: seq<Value>, v: Value, b: nat)
    requires b > 0 && Content(blocks, blockOf, head, before, b) && Sized(blocks, b)
    requires forall n <- blockOf, m <- blockOf :: n != m ==> blockOf[n] != blockOf[m]
    requires Blk(|before|, b) in blockOf && blockOf[Blk(|before|, b)] < |blocks| && Pos(|before|, b) < |blocks[blockOf[Blk(|before|, b)]].cells|
    ensures var blocks' := SetCell(blocks, blockOf[Blk(|before|, b)], Pos(|before|, b), Some(v));
            Content(blocks', blockOf, head, before + [v], b) && Sized(blocks', b) && OnlyCells(blocks, blocks')
  {
    hide Blk, Pos;
    var i := |before|;
    forall j: nat | head <= j < i ensures CellIs(SetCell(blocks, blockOf[Blk(i, b)], Pos(i, b), Some(v)), blockOf, b, j, (before + [v])[j]) {
      OtherCell(blocks, blockOf, b, i, Some(v), j, before[j]);
    }
  }

  /** From the block of index i on, each block of the index is linked to the next. */
  ghost predicate Walk(blocks: seq<Block>, blockOf: map<nat, BlockId>, i: nat, b: nat)
    requires b > 0
  {
    forall n | Blk(i, b) <= n && n in blockOf && n + 1 in blockOf :: blockOf[n] < |blocks| && blocks[blockOf[n]].next == Some(blockOf[n + 1])
  }

  lemma SameWalk(blocks: seq<Block>, blocks': seq<Block>, blockOf: map<nat, BlockId>, i: nat, b: nat)
    requires b > 0 && Walk(blocks, blockOf, i, b) && OnlyCells(blocks, blocks')
    ensures Walk(blocks', blockOf, i, b)
  {
    hide Blk;
  }

  lemma WalkStep(blocks: seq<Block>, blockOf: map<nat, BlockId>, i: nat, n: nat, b: nat)
    requires b > 0 && Walk(blocks, blockOf, i, b) && Blk(i, b) <= n && n in blockOf && n + 1 in blockOf
    ensures blockOf[n] < |blocks| && blocks[blockOf[n]].next == Some(blockOf[n + 1])
  {
    hide Blk;
  }

  lemma ChainWalks(blocks: seq<Block>, blockOf: map<nat, BlockId>, tailBlock: Option<BlockId>, startBlock: Option<BlockId>, first: Option<BlockId>,
    chain: seq<BlockId>, was: map<nat, BlockId>, tail: nat, b: nat)
    requires b > 0 && NewChain(blocks, blockOf, was, chain, tail, b) && Links(blocks, tailBlock, startBlock, first, chain, was, tail, b)
    requires forall n <- blockOf :: n < Blocks(tail, b) + |chain|
    ensures Walk(blocks, blockOf, tail, b)
  {
    hide Blk, Pos, Blocks, NewChain, Links;
    forall n | Blk(tail, b) <= n && n in blockOf && n + 1 in blockOf ensures blockOf[n] < |blocks| && blocks[blockOf[n]].next == Some(blockOf[n + 1]) {
      WalkAt(blocks, blockOf, tailBlock, startBlock, first, chain, was, tail, n, b);
    }
  }

  lemma WalkAt(blocks: seq<Block>, blockOf: map<nat, BlockId>, tailBlock: Option<BlockId>, startBlock: Option<BlockId>, first: Option<BlockId>,
    chain: seq<BlockId>, was: map<nat, BlockId>, tail: nat, n: nat, b: nat)
    requires b > 0 && NewChain(blocks, blockOf, was, chain, tail, b) && Links(blocks, tailBlock, startBlock, first, chain, was, tail, b)
    requires Blk(tail, b) <= n && n in blockOf && n + 1 in blockOf && n + 1 < Blocks(tail, b) + |chain|
    ensures blockOf[n] < |blocks| && blocks[blockOf[n]].next == Some(blockOf[n + 1])
  {
    hide Blk, Pos, Blocks;
    var p := Blocks(tail, b);
    BlocksAt(tail, b);
    assert blockOf[n + 1] == chain[n + 1 - p];
    LinkedFrom(blocks, first, chain, if n >= p then n - p else 0);
    if n >= p { assert blockOf[n] == chain[n - p]; } else { assert n in was; }
  }

  /** Where the writing begins and ends. */
  lemma ReadyToWrite(blocks: seq<Block>, blockOf: map<nat, BlockId>, tailBlock: Option<BlockId>, startBlock: Option<BlockId>, first: Option<BlockId>,
    chain: seq<BlockId>, was: map<nat, BlockId>, tail: nat, b: nat, count: nat)
    requires b > 0 && NewChain(blocks, blockOf, was, chain, tail, b) && Links(blocks, tailBlock, startBlock, first, chain, was, tail, b)
    requires |chain| == Blocks(tail + count, b) - Blocks(tail, b)
    ensures if count == 0 then first == None && tailBlock == startBlock
            else IsBlockOf(blockOf, if Pos(tail, b) == 0 && first != None then first else startBlock, tail, b) && IsBlockOf(blockOf, tailBlock, tail + count - 1, b)
  {
    hide Blk, Pos, Blocks;
    var p := Blocks(tail, b);
    BlocksAt(tail, b);
    LastOfBulk(tail, count, b);
    LinkedFrom(blocks, first, chain, 0);
    if chain != [] { assert blockOf[p + |chain| - 1] == chain[|chain| - 1] && blockOf[p] == chain[0]; }
    if count == 0 { SameBlocks(tail, count, b); }
  }

  lemma SameBlocks(tail: nat, count: nat, b: nat)
    requires b > 0 && count == 0
    ensures Blocks(tail + count, b) == Blocks(tail, b)
  {}

  /** While the last published block is in the index, tailBlock points to it. */
  ghost predicate LastOk(blockOf: map<nat, BlockId>, tailBlock: Option<BlockId>, p: nat) {
    p > 0 && p - 1 in blockOf ==> tailBlock == Some(blockOf[p - 1])
  }

  /** After a bulk with elements it points to the block of the last one. */
  lemma NewLastOk(blockOf: map<nat, BlockId>, x: Option<BlockId>, newTail: nat, b: nat)
    requires b > 0 && newTail > 0 && IsBlockOf(blockOf, x, newTail - 1, b)
    ensures LastOk(blockOf, x, Blocks(newTail, b))
  {}

  lemma SameLast(blocks: seq<Block>, blockOf: map<nat, BlockId>, was: map<nat, BlockId>, chain: seq<BlockId>, x: Option<BlockId>, tail: nat, b: nat)
    requires b > 0 && LastOk(was, x, Blocks(tail, b)) && NewChain(blocks, blockOf, was, chain, tail, b)
    ensures LastOk(blockOf, x, Blocks(tail, b))
  {}

  /** The new blocks have not been dequeued from. */
  lemma NewCounts(blocks: seq<Block>, blocks': seq<Block>, blockOf: map<nat, BlockId>, was: map<nat, BlockId>, chain: seq<BlockId>, head: nat, tail: nat, b: nat)
    requires b > 0 && head <= tail && Counts(blocks, was, head, b) && SameData(blocks, blocks', was) && NewChain(blocks', blockOf, was, chain, tail, b)
    requires forall n <- blockOf :: n < Blocks(tail, b) + |chain|
    ensures Counts(blocks', blockOf, head, b)
  {
    hide Blk, Pos, Blocks;
    var p := Blocks(tail, b);
    forall n | n in blockOf ensures blockOf[n] < |blocks'| && blocks'[blockOf[n]].emptied == if n == Blk(head, b) then Pos(head, b) else 0 {
      if n >= p {
        NewCount(tail, head, n - p, b);
        assert blockOf[n] == chain[n - p] && chain[n - p] in chain;
      } else {
        assert n in was && blockOf[n] == was[n];
      }
    }
  }

  lemma NewContent(blocks: seq<Block>, blocks': seq<Block>, blockOf: map<nat, BlockId>, was: map<nat, BlockId>, head: nat, log: seq<Value>, p: nat, b: nat)
    requires b > 0 && Content(blocks, was, head, log, b) && SameData(blocks, blocks', was) && CutAt(blockOf, was, p)
    ensures Content(blocks', blockOf, head, log, b)
  {
    hide Blk, Pos;
    forall i: nat | head <= i < |log| ensures CellIs(blocks', blockOf, b, i, log[i]) { assert CellIs(blocks, was, b, i, log[i]); }
  }

  lemma SameCounts(blocks: seq<Block>, blocks': seq<Block>, blockOf: map<nat, BlockId>, head: nat, b: nat)
    requires b > 0 && Counts(blocks, blockOf, head, b) && OnlyCells(blocks, blocks')
    ensures Counts(blocks', blockOf, head, b)
  {}

  /** One more block for a tail at a block boundary. */
  lemma OneMore(blocks: seq<Block>, blocks': seq<Block>, blockOf: map<nat, BlockId>, f: nat, x: BlockId, head: nat, log: seq<Value>, b: nat)
    requires b > 0 && head <= |log| && Pos(|log|, b) == 0 && f == Blk(head, b)
    requires (forall n: nat :: n in blockOf <==> f <= n < Blocks(|log|, b)) && (forall n <- blockOf :: blockOf[n] != x)
    requires SameBut(blocks, blocks', {x}) && x < |blocks'| && blocks'[x].emptied == 0
    requires Content(blocks, blockOf, head, log, b) && Counts(blocks, blockOf, head, b)
    ensures var blockOf' := blockOf[Blocks(|log|, b) := x];
            && Content(blocks', blockOf', head, log, b) && Counts(blocks', blockOf', head, b)
            && IsBlockOf(blockOf', Some(x), |log|, b) && Blocks(|log| + 1, b) == Blocks(|log|, b) + 1
  {
    hide Content, Counts, Pos, Blk, Blocks;
    var p := Blocks(|log|, b);
    var blockOf' := blockOf[p := x];
    BlocksAt(|log|, b);
    OneMoreBlock(|log|, b);
    assert CutAt(blockOf', blockOf, p) && Chained(blockOf', p, [x]);
    NewestData(blocks, blocks', blockOf, head, x, b);
    NewContent(blocks, blocks', blockOf', blockOf, head, log, p, b);
    NewCounts(blocks, blocks', blockOf', blockOf, [x], head, |log|, b);
  }

  lemma NewestData(blocks: seq<Block>, blocks': seq<Block>, blockOf: map<nat, BlockId>, head: nat, x: BlockId, b: nat)
    requires b > 0 && Counts(blocks, blockOf, head, b) && SameBut(blocks, blocks', {x}) && forall n <- blockOf :: blockOf[n] != x
    ensures SameData(blocks, blocks', blockOf)
  {}

  // ---- taking elements

  /** The p blocks of the queue from that of `head` on are in the index, and the elements from `head` on are in them. */
  ghost predicate Rest(ix: Index, values: seq<Option<BlockId>>, blocks: seq<Block>, blockOf: map<nat, BlockId>, free: seq<BlockId>, head: nat, log: seq<Value>, p: nat, k: nat) {
    && Window(ix, values, blockOf, Blk(head, Pow2(k)), p, p, k)
    && Placed(|blocks|, blockOf, free, {}) && Sized(blocks, Pow2(k))
    && Content(blocks, blockOf, head, log, Pow2(k)) && Counts(blocks, blockOf, head, Pow2(k))
  }

  /** Taking the element of index i: it is there, and the others stay. */
  lemma TakeContent(blocks: seq<Block>, blockOf: map<nat, BlockId>, i: nat, log: seq<Value>, b: nat)
    requires b > 0 && Content(blocks, blockOf, i, log, b) && i < |log|
    requires forall n <- blockOf, m <- blockOf :: n != m ==> blockOf[n] != blockOf[m]
    ensures CellIs(blocks, blockOf, b, i, log[i])
    ensures var blocks' := SetCell(blocks, blockOf[Blk(i, b)], Pos(i, b), None);
            Content(blocks', blockOf, i + 1, log, b) && (Sized(blocks, b) ==> Sized(blocks', b))
            && |blocks'| == |blocks| && forall y | 0 <= y < |blocks| :: blocks'[y] == blocks[y].(cells := blocks'[y].cells)
  {
    hide Blk, Pos;
    assert CellIs(blocks, blockOf, b, i, log[i]);
    forall j: nat | i + 1 <= j < |log| ensures CellIs(SetCell(blocks, blockOf[Blk(i, b)], Pos(i, b), None), blockOf, b, j, log[j]) {
      assert CellIs(blocks, blockOf, b, j, log[j]);
      OtherCell(blocks, blockOf, b, i, None, j, log[j]);
    }
  }

  /** After its first elements up to `stop` have been taken, the first block counts them, and if that were all it is the first no more. */
  lemma TakenCounts(blocks: seq<Block>, blocks': seq<Block>, blockOf: map<nat, BlockId>, from: nat, stop: nat, b: nat)
    requires b > 0 && Counts(blocks, blockOf, from, b) && from <= stop <= Base(Blk(from, b), b) + b && Blk(from, b) in blockOf
    requires |blocks'| == |blocks| && blockOf[Blk(from, b)] < |blocks|
    requires forall n <- blockOf :: n >= Blk(from, b)
    requires forall n <- blockOf, m <- blockOf :: n != m ==> blockOf[n] != blockOf[m]
    requires blocks'[blockOf[Blk(from, b)]].emptied == blocks[blockOf[Blk(from, b)]].emptied + (stop - from)
    requires forall n <- blockOf :: n != Blk(from, b) && blockOf[n] < |blocks| ==> blocks'[blockOf[n]].emptied == blocks[blockOf[n]].emptied
    ensures var f := Blk(from, b);
            if blocks'[blockOf[f]].emptied == b then Blk(stop, b) == f + 1 && Counts(blocks', blockOf - {f}, stop, b)
            else Blk(stop, b) == f && Counts(blocks', blockOf, stop, b)
  {
    hide Blk, Pos;
    var f := Blk(from, b);
    PosIn(from, b);
    PosIn(stop, b);
    InBlock(stop, f, b);
    InBlock(stop, f + 1, b);
  }

  lemma ContentWithout(blocks: seq<Block>, blockOf: map<nat, BlockId>, stop: nat, log: seq<Value>, f: nat, b: nat)
    requires b > 0 && Content(blocks, blockOf, stop, log, b) && Blk(stop, b) == f + 1
    ensures Content(blocks, blockOf - {f}, stop, log, b)
  {
    forall i: nat | stop <= i < |log| ensures CellIs(blocks, blockOf - {f}, b, i, log[i]) {
      assert CellIs(blocks, blockOf, b, i, log[i]);
      BlkMonotone(stop, i, b);
    }
  }

  /** Content looks at the cells only. */
  lemma ContentCells(blocks: seq<Block>, blocks': seq<Block>, blockOf: map<nat, BlockId>, head: nat, log: seq<Value>, b: nat)
    requires b > 0 && Content(blocks, blockOf, head, log, b)
    requires |blocks'| == |blocks| && forall y | 0 <= y < |blocks| :: blocks'[y].cells == blocks[y].cells
    ensures Content(blocks', blockOf, head, log, b) && (Sized(blocks, b) ==> Sized(blocks', b))
  {
    forall i: nat | head <= i < |log| ensures CellIs(blocks', blockOf, b, i, log[i]) { assert CellIs(blocks, blockOf, b, i, log[i]); }
  }

  /** The slot of a block of the index holds its entry, and the entry the block. */
  lemma SlotHolds(ix: Index, values: seq<Option<BlockId>>, blockOf: map<nat, BlockId>, f: nat, q: nat, p: nat, k: nat, n: nat)
    requires Window(ix, values, blockOf, f, q, p, k) && n in blockOf
    ensures ix.headers != [] && ix.Cur().SlotOf(n) < |ix.Cur().index| && ix.Cur().index[ix.Cur().SlotOf(n)] < |values|
    ensures n in ix.entryOf && ix.Cur().index[ix.Cur().SlotOf(n)] == ix.entryOf[n] && values[ix.entryOf[n]] == Some(blockOf[n])
  {
    CurFacts(ix);
    assert HeaderOk(ix, ix.Cur());
    SlotWraps(ix.Cur(), n);
  }

  /** get_block_index_index_for_index finds the slot of the block of a queue index. */
  lemma FindsSlot(ix: Index, values: seq<Option<BlockId>>, blockOf: map<nat, BlockId>, f: nat, q: nat, p: nat, k: nat, i: nat)
    requires Window(ix, values, blockOf, f, q, p, k) && Blk(i, Pow2(k)) in blockOf
    ensures ix.headers != [] && CanFind(ix, ix.Cur(), ix.Cur().tail, i, k)
    ensures Found(ix, ix.Cur(), ix.Cur().tail, i, k) == ix.Cur().SlotOf(Blk(i, Pow2(k)))
  {
    hide Pow2, Found, CanFind, IndexOk;
    CurFacts(ix);
    assert Blk(i, Pow2(k)) < ix.top && ix.lo <= ix.Cur().tn;
    BlkPos(i, Pow2(k));
    FindsBlock(k, ix, |ix.headers| - 1, i, Blk(i, Pow2(k)), ix.Cur().tn);
  }

  /** (indexIndex + 1) & (capacity - 1) is the slot of the next block. */
  lemma NextSlotOf(ix: Index, n: nat)
    requires ix.headers != []
    ensures And(ix.Cur().SlotOf(n) + 1, ix.Cur().Cap() - 1) == ix.Cur().SlotOf(n + 1)
  {
    MaskedSlot(ix.Cur(), n, 1);
  }

  lemma NothingNew(blocks: seq<Block>, blocks': seq<Block>, blockOf: map<nat, BlockId>, f: nat, p: nat, head: nat, log: seq<Value>, b: nat)
    requires b > 0 && Content(blocks, blockOf, head, log, b) && Counts(blocks, blockOf, head, b) && SameBut(blocks, blocks', {})
    ensures Content(blocks', blockOf, head, log, b) && Counts(blocks', blockOf, head, b)
  {
    forall i: nat | head <= i < |log| ensures CellIs(blocks', blockOf, b, i, log[i]) { assert CellIs(blocks, blockOf, b, i, log[i]); }
  }

  /** Blocks that leave the index do not matter to tailBlock. */
  lemma KeepsLast(was: map<nat, BlockId>, blockOf: map<nat, BlockId>, tailBlock: Option<BlockId>, p: nat)
    requires LastOk(was, tailBlock, p) && forall n <- blockOf :: n in was && blockOf[n] == was[n]
    ensures LastOk(blockOf, tailBlock, p)
  {}

  // ---- destroying the queue

  /** Of the blocks that were in the index those before `from` are gone. */
  ghost predicate Remaining(was: map<nat, BlockId>, blockOf: map<nat, BlockId>, from: nat, p: nat) {
    && (forall n: nat :: n in blockOf <==> n in was && from <= n < p)
    && (forall n <- blockOf :: blockOf[n] == was[n])
  }

  lemma AllRemain(was: map<nat, BlockId>, from: nat, p: nat)
    requires forall n: nat :: n in was <==> from <= n < p
    ensures Remaining(was, was, from, p)
  {}

  lemma BoundaryOrNot(i: nat, b: nat)
    requires b > 0 && i > 0
    ensures Blk(i, b) == if Pos(i, b) == 0 then Blk(i - 1, b) + 1 else Blk(i - 1, b)
  {
    BlocksAt(i, b);
  }

  /** The block that is left after the last element, if any, is the one of tailBlock. */
  lemma LastLeft(was: map<nat, BlockId>, tailBlock: Option<BlockId>, head: nat, tail: nat, b: nat)
    requires b > 0 && head <= tail && LastOk(was, tailBlock, Blocks(tail, b))
    requires forall n: nat :: n in was <==> Blk(head, b) <= n < Blocks(tail, b)
    ensures head < tail ==> Blk(tail - 1, b) + 1 == Blocks(tail, b) && Blk(tail - 1, b) in was && tailBlock == Some(was[Blk(tail - 1, b)])
    ensures head == tail && Pos(tail, b) != 0 ==> Blk(head, b) + 1 == Blocks(tail, b) && Blk(head, b) in was && tailBlock == Some(was[Blk(head, b)])
    ensures head == tail && Pos(tail, b) == 0 ==> Blk(head, b) == Blocks(tail, b)
  {
    BlocksAt(tail, b);
    if head < tail { BlkMonotone(head, tail - 1, b); }
  }

  lemma FindsIn(ix: Index, values: seq<Option<BlockId>>, blockOf: map<nat, BlockId>, f: nat, q: nat, p: nat, k: nat, i: nat)
    requires Window(ix, values, blockOf, f, q, p, k) && Blk(i, Pow2(k)) in blockOf
    ensures ix.headers != [] && CanFind(ix, ix.Cur(), ix.Cur().tail, i, k)
    ensures var e := ix.Cur().index[Found(ix, ix.Cur(), ix.Cur().tail, i, k)]; e < |values| && values[e] == Some(blockOf[Blk(i, Pow2(k))])
  {
    FindsEntry(ix, values, blockOf, Blk(i, Pow2(k)), i, k);
  }

  // ---------------------------------------------------------------- copying an index

  lemma MaskStep(x: nat, c: nat)
    ensures And(And(x, Pow2(c) - 1) + 1, Pow2(c) - 1) == And(x + 1, Pow2(c) - 1)
  {
    hide And;
    AndMask(x, c);
    AndMask(x + 1, c);
    AndMask(x % Pow2(c) + 1, c);
    ModAdd(1, x, Pow2(c));
  }

  /** Going round from slot `tail` one comes back to it after all the slots. */
  lemma MaskRound(tail: nat, i: nat, c: nat)
    requires tail < Pow2(c) && i <= Pow2(c)
    ensures And(tail + i, Pow2(c) - 1) == tail <==> i == 0 || i == Pow2(c)
    ensures And(tail + i, Pow2(c) - 1) < Pow2(c)
  {
    hide And, Pow2;
    AndMask(tail + i, c);
    if tail + i < Pow2(c) { DivModUnique(tail + i, Pow2(c), 0, tail + i); } else { DivModUnique(tail + i, Pow2(c), 1, tail + i - Pow2(c)); }
  }

  lemma RotationIs(prev: Header, j: nat)
    requires |prev.index| == prev.Cap() && j < prev.Cap()
    ensures And(prev.tail + (j + 1), prev.Cap() - 1) < |prev.index| && Rotation(prev)[j] == prev.index[And(prev.tail + (j + 1), prev.Cap() - 1)]
  {
    AndMaskBound(prev.tail + 1 + j, prev.c);
    hide And, Pow2;
  }

  /** The first copying loop of new_block_index: from the slot after the tail round to the tail. */
  method CopyOld(prev: Header, index: array<EntryId>)
    requires |prev.index| == prev.Cap() && prev.tail < prev.Cap() <= index.Length
    modifies index
    ensures forall j | 0 <= j < prev.Cap() :: index[j] == Rotation(prev)[j]
  {
    hide And, Pow2, Rotation;
    var prevPos, i := prev.tail, 0;
    MaskRound(prev.tail, 0, prev.c);
    while true
      invariant 0 <= i < prev.Cap() && prevPos == And(prev.tail + i, prev.Cap() - 1)
      invariant forall j | 0 <= j < i :: index[j] == Rotation(prev)[j]
      decreases prev.Cap() - i
    {
      MaskStep(prev.tail + i, prev.c);
      RotationIs(prev, i);
      MaskRound(prev.tail, i + 1, prev.c);
      prevPos := And(prevPos + 1, prev.Cap() - 1);
      index[i] := prev.index[prevPos];
      i := i + 1;
      if prevPos == prev.tail { break; }
    }
  }

  /** The index arrays of new_block_index: the old index rotated, and then the new entries. */
  method CopyIndex(prev: Header, entries: nat) returns (index: array<EntryId>)
    requires |prev.index| == prev.Cap() && prev.tail < prev.Cap()
    ensures index.Length == 2 * prev.Cap() && index[..prev.Cap()] == Rotation(prev)
    ensures forall i | prev.Cap() <= i < index.Length :: index[i] == entries + (i - prev.Cap())
  {
    hide And, Pow2, Rotation;
    var cap := prev.Cap();
    index := new EntryId[2 * cap];
    CopyOld(prev, index);
    for i := cap to 2 * cap
      invariant forall j | 0 <= j < cap :: index[j] == Rotation(prev)[j]
      invariant forall j | cap <= j < i :: index[j] == entries + (j - cap)
    {
      index[i] := entries + (i - cap);
    }
  }

  lemma IndexRoomAt(ix: Index, k: nat, head: nat, n: nat)
    requires ix.headers != [] && Base(n + 1, Pow2(k)) - head < HALF
    ensures n - Blk(head, Pow2(k)) >= CapOf(ix) ==> k + ix.Cur().c < 64
  {
    hide Base, Blk, Pow2;
    if n - Blk(head, Pow2(k)) >= CapOf(ix) { IndexSmall(k, ix.Cur().c, head, n); }
  }

  /** All of m is in n. */
  ghost predicate SubMap(m: map<nat, BlockId>, n: map<nat, BlockId>) { forall x <- m :: x in n && m[x] == n[x] }

  lemma SubMapSame(m: map<nat, BlockId>)
    ensures SubMap(m, m)
  {}

  lemma SubMapTwice(m: map<nat, BlockId>, n: map<nat, BlockId>, o: map<nat, BlockId>)
    requires SubMap(m, n) && SubMap(n, o)
    ensures SubMap(m, o)
  {}

  class ImplicitProducer {
    const k: nat              // blocks hold 2^k elements
    var blocks: seq<Block>    // memory
    var free: seq<BlockId>    // the pool: initial blocks and free list
    var ix: Index             // the chain of block indices, with its keys
    var values: seq<Option<BlockId>>
    var tailBlock: Option<BlockId>
    var tailIndex: nat
    var headIndex: nat
    var opt: nat              // dequeueOptimisticCount
    var over: nat             // dequeueOvercommit
    const malloc: nat -> bool // whether the i-th allocation succeeds
    var calls: nat            // how many there have been
    ghost var blockOf: map<nat, BlockId>
    ghost var log: seq<Value>

    /** An empty queue with an index of 2^c entries and a pool of `size` blocks. */
    constructor (k: nat, c: nat, size: nat, malloc: nat -> bool)
      requires k + c <= 64 && k <= 63
      ensures Valid() && Contents() == [] && log == [] && this.k == k && |blocks| == |free| == size && this.malloc == malloc
      ensures CapOf(ix) == Pow2(c)
    {
      this.k, this.malloc, calls := k, malloc, 0;
      blocks := seq(size, _ => Block(seq(Pow2(k), _ => None), 0, None));
      free := seq(size, i requires 0 <= i < size => i);
      ix := FirstIndex(c);
      values := seq(Pow2(c), _ => None);
      tailBlock := None;
      tailIndex, headIndex, opt, over := 0, 0, 0, 0;
      blockOf, log := map[], [];
      new;
      FirstIndexOk(c);
      forall x: nat | x < size ensures x in free { assert free[x] == x; }
    }

    /** The queue as a sequence. */
    ghost function Contents(): seq<Value>
      reads `log, `headIndex
    {
      if headIndex <= |log| then log[headIndex..] else []
    }

    ghost function Published(): nat
      reads `tailIndex
    {
      Blocks(tailIndex, Pow2(k))
    }

    ghost predicate Valid()
      reads this
    {
      && Rest(ix, values, blocks, blockOf, free, headIndex, log, Published(), k)
      && headIndex <= tailIndex == |log| && opt == over + headIndex && LastOk(blockOf, tailBlock, Published())
      && k <= 63 && Base(Published(), Pow2(k)) - headIndex < HALF
    }

    /** How many blocks are in the index: those from the block of the head on. */
    ghost function LiveBlocks(): nat
      reads `headIndex, `tailIndex
    {
      if Blk(headIndex, Pow2(k)) <= Published() then Published() - Blk(headIndex, Pow2(k)) else 0
    }

    /** How many calls of malloc it takes to enqueue n more elements. */
    ghost function Needed(n: nat): nat
      reads `free, `ix, `headIndex, `tailIndex
    {
      Demand(CapOf(ix), |free|, LiveBlocks(), Missing(tailIndex, n, Pow2(k)))
    }

    /** n more elements need no allocation: there are free blocks, and slots of the index, for all new blocks. */
    ghost predicate Room(n: nat)
      reads `free, `ix, `headIndex, `tailIndex
    {
      var m := Missing(tailIndex, n, Pow2(k));
      m == 0 || (m <= |free| && LiveBlocks() + m <= CapOf(ix))
    }

    lemma LiveFrom()
      requires headIndex <= Base(Published(), Pow2(k))
      ensures Blk(headIndex, Pow2(k)) <= Published() && LiveBlocks() == Published() - Blk(headIndex, Pow2(k))
    {
      hide Base, Blk, Pow2, Blocks;
      InBlock(headIndex, Published(), Pow2(k));
    }

    lemma NothingNeeded(n: nat)
      requires Blocks(tailIndex + n, Pow2(k)) == Published()
      ensures Needed(n) == 0 && Fits(headIndex, tailIndex, n, Pow2(k)) && Granted(malloc, calls, calls)
    {}

    lemma RoomExactly(n: nat)
      ensures Room(n) <==> Needed(n) == 0
    {
      NoDemand(CapOf(ix), |free|, LiveBlocks(), Missing(tailIndex, n, Pow2(k)));
    }

    /** get_block_index_entry_for_index */
    function Lookup(index: nat): EntryId
      requires ix.headers != [] && CanFind(ix, ix.Cur(), ix.Cur().tail, index, k)
      reads `ix
    {
      ix.Cur().index[Found(ix, ix.Cur(), ix.Cur().tail, index, k)]
    }

    // ---- allocating

    /** new_block_index */
    method NewBlockIndex() returns (ok: bool)
      requires ix.headers != [] && |ix.Cur().index| == ix.Cur().Cap() && ix.Cur().tail < ix.Cur().Cap() && |values| == |ix.keys|
      modifies `ix, `values, `calls
      ensures ok == malloc(old(calls)) && calls == old(calls) + 1
      ensures if ok then ix == Grow(old(ix)) && values == old(values) + seq(old(ix).Cur().Cap(), _ => None) else ix == old(ix) && values == old(values)
    {
      hide Rotation, Pow2;
      ok := malloc(calls);
      calls := calls + 1;
      if ok {
        var prev := ix.Cur();
        var cap := prev.Cap();
        var entries := |ix.keys|;
        var index := CopyIndex(prev, entries);
        var added: seq<EntryId> := seq(cap, j requires 0 <= j < cap => entries + j);
        assert index[..] == Rotation(prev) + added;
        ix := ix.(headers := ix.headers + [Header(prev.c + 1, cap - 1, index[..], cap - 1 - prev.tn, prev.hi, prev.tn)], keys := ix.keys + seq(cap, _ => None));
        values := values + seq(cap, _ => None);
      }
    }

    /** insert_block_index_entry; it allocates when the blocks in the index fill its slots. */
    method InsertEntry(ghost f: nat, ghost q: nat, ghost p: nat) returns (e: Option<EntryId>)
      requires Window(ix, values, blockOf, f, q, p, k) && (p - f >= CapOf(ix) ==> k + ix.Cur().c < 64)
      modifies `ix, `values, `calls
      ensures e == None ==> ix == old(ix) && values == old(values)
      ensures e.Some? ==> Inserted(ix, values, blockOf, f, q, p, k, e.value)
      ensures e.Some? <==> Granted(malloc, old(calls), calls)
      ensures calls == if p - f < CapOf(old(ix)) then old(calls) else old(calls) + 1
      ensures e.Some? ==> CapOf(ix) == if p - f < CapOf(old(ix)) then CapOf(old(ix)) else 2 * CapOf(old(ix))
    {
      hide Window, Inserted, StoreBoth, Grow, Pow2;
      CandidateReady(ix, values, blockOf, f, q, p, k);
      EntryInUse(ix, values, blockOf, f, q, p, k);
      var c := Candidate(ix);
      if ix.keys[c] == None { NoKey(ix, values, blockOf, f, q, p, k, c); }
      if ix.keys[c] == None || values[c] == None {
        InsertOk(ix, values, blockOf, f, q, p, k);
        SameCap(ix);
        ix := StoreBoth(ix);
        return Some(c);
      }
      GrowWindow(ix, values, blockOf, f, q, p, k);
      GrowCap(ix);
      var ok := NewBlockIndex();
      if !ok { return None; }
      CandidateReady(ix, values, blockOf, f, q, p, k);
      InsertOk(ix, values, blockOf, f, q, p, k);
      SameCap(ix);
      c := Candidate(ix);
      ix := StoreBoth(ix);
      return Some(c);
    }

    /** rewind_block_index_tail(); idxEntry->value.store(nullptr); */
    method UndoEntry(e: EntryId, ghost f: nat, ghost q: nat, ghost p: nat)
      requires Inserted(ix, values, blockOf, f, q, p, k, e)
      modifies `ix, `values
      ensures Window(ix, values, blockOf, f, q, p, k) && CapOf(ix) == CapOf(old(ix))
    {
      hide Window, Inserted, Rewind;
      UndoInsert(ix, values, blockOf, f, q, p, k, e);
      InsertedHeaders(ix, values, blockOf, f, q, p, k, e);
      RewindFacts(ix);
      EntryIn(ix, values, blockOf, f, q, p, k, e);
      ix := Rewind(ix);
      values := values[e := None];
    }

    /** requisition_block<CanAlloc>: a free block, or a new one if there is memory. */
    method Requisition() returns (x: Option<BlockId>)
      requires Placed(|blocks|, blockOf, free, {}) && Sized(blocks, Pow2(k))
      modifies `blocks, `free, `calls
      ensures Placed(|blocks|, blockOf, free, if x.Some? then {x.value} else {}) && Sized(blocks, Pow2(k))
      ensures SameBut(old(blocks), blocks, {}) && (x == None ==> blocks == old(blocks) && free == old(free))
      ensures x.Some? <==> Granted(malloc, old(calls), calls)
      ensures if |old(free)| > 0 then |free| == |old(free)| - 1 && calls == old(calls) else free == [] && calls == old(calls) + 1
    {
      hide Placed;
      if free != [] {
        TakeFree(|blocks|, blockOf, free);
        x := Some(free[|free| - 1]);
        free := free[..|free| - 1];
      } else {
        var memory := malloc(calls);
        calls := calls + 1;
        if !memory { return None; }
        TakeNew(|blocks|, blockOf, free);
        x := Some(|blocks|);
        blocks := blocks + [Block(seq(Pow2(k), _ => None), 0, None)];
      }
    }

    /** The new block is cleared and put into the index. */
    method PutEntry(x: BlockId, e: EntryId, ghost f: nat, ghost q: nat, ghost p: nat)
      requires Inserted(ix, values, blockOf, f, q, p, k, e) && Placed(|blocks|, blockOf, free, {x}) && Sized(blocks, Pow2(k))
      modifies `values, `blockOf, `blocks
      ensures Window(ix, values, blockOf, f, q, p + 1, k) && Placed(|blocks|, blockOf, free, {}) && Sized(blocks, Pow2(k))
      ensures blockOf == old(blockOf)[p := x] && p !in old(blockOf) && x < |blocks| && SameBut(old(blocks), blocks, {x})
      ensures blocks[x].emptied == 0 && forall n <- old(blockOf) :: old(blockOf)[n] != x
    {
      hide Window, Inserted;
      PutWindow(ix, values, blockOf, f, q, p, k, e, x);
      EntryIn(ix, values, blockOf, f, q, p, k, e);
      PutIn(|blocks|, blockOf, free, x, p);
      assert x < |blocks|;
      blocks := blocks[x := blocks[x].(emptied := 0)];
      values := values[e := Some(x)];
      blockOf := blockOf[p := x];
    }

    /** newBlock->next = nullptr */
    method Unlink(x: BlockId)
      requires x < |blocks| && Sized(blocks, Pow2(k))
      modifies `blocks
      ensures |blocks| == |old(blocks)| && Sized(blocks, Pow2(k)) && SameBut(old(blocks), blocks, {x})
      ensures blocks[x] == old(blocks)[x].(next := None)
    {
      blocks := blocks[x := blocks[x].(next := None)];
    }

    /** An index entry and a block for it, or neither; enqueue_bulk also clears the block's link. */
    method AddBlock(unlink: bool, ghost f: nat, ghost q: nat, ghost p: nat) returns (x: Option<BlockId>)
      requires Window(ix, values, blockOf, f, q, p, k) && Placed(|blocks|, blockOf, free, {}) && Sized(blocks, Pow2(k))
      requires p - f >= CapOf(ix) ==> k + ix.Cur().c < 64
      modifies `ix, `values, `blockOf, `blocks, `free, `calls
      ensures var d := DemandOne(CapOf(old(ix)), |old(free)|, p - f);
              && (x.Some? <==> Granted(malloc, old(calls), old(calls) + d))
              && old(calls) <= calls <= old(calls) + d && (x.Some? ==> calls == old(calls) + d)
      ensures x.Some? ==> |free| == if |old(free)| > 0 then |old(free)| - 1 else 0
      ensures x.Some? ==> CapOf(ix) == if p - f < CapOf(old(ix)) then CapOf(old(ix)) else 2 * CapOf(old(ix))
      ensures Placed(|blocks|, blockOf, free, {}) && Sized(blocks, Pow2(k))
      ensures x == None ==> Window(ix, values, blockOf, f, q, p, k) && blockOf == old(blockOf) && SameBut(old(blocks), blocks, {})
      ensures x.Some? ==> Window(ix, values, blockOf, f, q, p + 1, k) && blockOf == old(blockOf)[p := x.value] && p !in old(blockOf)
      ensures x.Some? ==> x.value < |blocks| && blocks[x.value].emptied == 0 && (unlink ==> blocks[x.value].next == None)
      ensures x.Some? ==> SameBut(old(blocks), blocks, {x.value}) && forall n <- old(blockOf) :: old(blockOf)[n] != x.value
    {
      hide Window, Inserted, Placed, Sized, CapOf;
      var e := InsertEntry(f, q, p);
      if e == None { return None; }
      x := Requisition();
      if x == None {
        UndoEntry(e.value, f, q, p);
      } else {
        PutEntry(x.value, e.value, f, q, p);
        if unlink { Unlink(x.value); }
      }
    }

    /** The entry of block p + j loses its value, and the tail goes back. */
    method RollOne(currentTailIndex: nat, ghost f: nat, ghost p: nat, ghost j: nat, ghost m: nat)
      requires Rolling(ix, values, blockOf, f, p, j, m, k) && j < m && currentTailIndex == Base(p + j, Pow2(k))
      modifies `ix, `values, `blockOf
      ensures Rolling(ix, values, blockOf, f, p, j + 1, m, k) && blockOf == old(blockOf) - {p + j}
    {
      hide Rolling, Found, CanFind, Rewind, Pow2;
      RollStep(ix, values, blockOf, f, p, j, m, k);
      values := values[Lookup(currentTailIndex) := None];
      blockOf := blockOf - {p + j};
      ix := Rewind(ix);
    }

    /** The entries of the chain lose their values, in ascending order, while the tail goes back. */
    method RollEntries(first: Option<BlockId>, ghost chain: seq<BlockId>, ghost f: nat)
      requires Rolling(ix, values, blockOf, f, Published(), 0, |chain|, k) && Linked(blocks, first, chain)
      modifies `ix, `values, `blockOf
      ensures Rolling(ix, values, blockOf, f, Published(), |chain|, |chain|, k)
      ensures CutAt(old(blockOf), blockOf, Published())
    {
      hide Rolling, Blocks, Linked;
      var p := Blocks(tailIndex, Pow2(k));
      var currentTailIndex := Base(p, Pow2(k)) - Pow2(k);
      var block := first;
      ghost var j, m, was := 0, |chain|, blockOf;
      RollingKeys(ix, values, blockOf, f, p, 0, m, k);
      LinkedFrom(blocks, first, chain, 0);
      while block != None
        invariant 0 <= j <= m && block == (if j < m then Some(chain[j]) else None)
        invariant currentTailIndex == Base(p + j, Pow2(k)) - Pow2(k)
        invariant Rolling(ix, values, blockOf, f, p, j, m, k)
        invariant forall n: nat :: n in blockOf <==> n in was && (n < p || p + j <= n)
        invariant forall n <- blockOf :: blockOf[n] == was[n]
        decreases m - j
      {
        currentTailIndex := currentTailIndex + Pow2(k);
        LinkedFrom(blocks, first, chain, j);
        RollOne(currentTailIndex, f, p, j, m);
        block := blocks[block.value].next;
        j := j + 1;
      }
    }

    /** What a refused bulk undoes: the entries of its blocks and the index tail, and then its blocks. */
    method RollBack(first: Option<BlockId>, startBlock: Option<BlockId>, ghost chain: seq<BlockId>, ghost f: nat)
      requires var p := Published(); Window(ix, values, blockOf, f, p, p + |chain|, k) && Chained(blockOf, p, chain)
      requires Linked(blocks, first, chain) && Placed(|blocks|, blockOf, free, {})
      modifies `ix, `values, `tailBlock, `blockOf, `free
      ensures Window(ix, values, blockOf, f, Published(), Published(), k) && tailBlock == startBlock
      ensures CutAt(old(blockOf), blockOf, Published())
      ensures free == old(free) + chain && Placed(|blocks|, blockOf, free, {})
    {
      hide Window, Placed, Rolling, Blocks, Pow2, CutAt, Linked, Chained;
      ghost var was, p, m := blockOf, Published(), |chain|;
      WindowKeys(ix, values, blockOf, f, p, p + m, k);
      WindowRolling(ix, values, blockOf, f, p, m, k);
      RollEntries(first, chain, f);
      WindowRolling(ix, values, blockOf, f, p, m, k);
      RolledPlaced(|blocks|, was, blockOf, free, p, chain);
      AddToFreeList(first, chain);
      tailBlock := startBlock;
    }

    /** add_blocks_to_free_list */
    method AddToFreeList(first: Option<BlockId>, ghost chain: seq<BlockId>)
      requires Linked(blocks, first, chain)
      modifies `free
      ensures free == old(free) + chain
    {
      var block := first;
      ghost var j := 0;
      while block != None
        invariant 0 <= j <= |chain| && block == (if j < |chain| then Some(chain[j]) else None)
        invariant free == old(free) + chain[..j]
        decreases |chain| - j
      {
        var next := blocks[block.value].next;
        free := free + [block.value];
        block := next;
        j := j + 1;
      }
    }

    /** A bulk that began with the blocks `was` and with tailBlock == startBlock has allocated `chain`. */
    ghost predicate Allocating(startBlock: Option<BlockId>, first: Option<BlockId>, chain: seq<BlockId>, was: map<nat, BlockId>, f: nat)
      reads `ix, `values, `blockOf, `tailIndex, `tailBlock, `blocks, `free
    {
      && Window(ix, values, blockOf, f, Published(), Published() + |chain|, k)
      && Placed(|blocks|, blockOf, free, {}) && Sized(blocks, Pow2(k))
      && NewChain(blocks, blockOf, was, chain, tailIndex, Pow2(k))
      && Links(blocks, tailBlock, startBlock, first, chain, was, tailIndex, Pow2(k))
    }

    /** The rollback undoes the whole allocation. */
    method RollBackAll(first: Option<BlockId>, startBlock: Option<BlockId>, ghost chain: seq<BlockId>, ghost was: map<nat, BlockId>, ghost f: nat)
      requires Allocating(startBlock, first, chain, was, f)
      modifies `ix, `values, `tailBlock, `blockOf, `free
      ensures Allocating(startBlock, None, [], was, f) && free == old(free) + chain
    {
      hide Window, Placed, Blocks, Pow2, Sized, CutAt, Pos, Blk;
      ghost var all := blockOf;
      RollBack(first, startBlock, chain, f);
      CutTwice(all, blockOf, was, Published());
    }

    /** The new block becomes the last of the chain, and of the queue. */
    method Link(startBlock: Option<BlockId>, first: Option<BlockId>, x: BlockId, ghost chain: seq<BlockId>, ghost was: map<nat, BlockId>)
      returns (newFirst: Option<BlockId>)
      requires Links(blocks, tailBlock, startBlock, first, chain, was, tailIndex, Pow2(k))
      requires x < |blocks| && blocks[x].next == None && LinkApart(chain, x, was, tailIndex, Pow2(k)) && Sized(blocks, Pow2(k))
      modifies `tailBlock, `blocks
      ensures Links(blocks, tailBlock, startBlock, newFirst, chain + [x], was, tailIndex, Pow2(k)) && tailBlock == Some(x)
      ensures |blocks| == |old(blocks)| && Sized(blocks, Pow2(k)) && forall y | 0 <= y < |blocks| :: blocks[y] == old(blocks)[y].(next := blocks[y].next)
    {
      if Pos(tailIndex, Pow2(k)) != 0 || first != None { blocks := blocks[tailBlock.value := blocks[tailBlock.value].(next := Some(x))]; }
      tailBlock := Some(x);
      newFirst := if first == None then Some(x) else first;
    }

    /** One more block for the bulk, if the index and the pool have one. */
    method Extend(startBlock: Option<BlockId>, first: Option<BlockId>, ghost chain: seq<BlockId>, ghost was: map<nat, BlockId>, ghost f: nat)
      returns (x: Option<BlockId>, newFirst: Option<BlockId>)
      requires Allocating(startBlock, first, chain, was, f) && (Published() + |chain| - f >= CapOf(ix) ==> ix.headers != [] && k + ix.Cur().c < 64)
      modifies `ix, `values, `blockOf, `blocks, `free, `tailBlock, `calls
      ensures var live := Published() + |chain| - f;
              var d := DemandOne(CapOf(old(ix)), |old(free)|, live);
              && (x.Some? <==> Granted(malloc, old(calls), old(calls) + d))
              && old(calls) <= calls <= old(calls) + d && (x.Some? ==> calls == old(calls) + d)
              && (x.Some? ==> |free| == if |old(free)| > 0 then |old(free)| - 1 else 0)
              && (x.Some? ==> CapOf(ix) == if live < CapOf(old(ix)) then CapOf(old(ix)) else 2 * CapOf(old(ix)))
      ensures x == None ==> newFirst == first && Allocating(startBlock, first, chain, was, f)
      ensures x.Some? ==> Allocating(startBlock, newFirst, chain + [x.value], was, f) && tailBlock == x
      ensures SameData(old(blocks), blocks, was)
    {
      hide Window, Placed, Blocks, Pow2, Sized, NewChain, Links, LinkApart, SameBut, SameData, CapOf;
      ghost var p, blockOf0, blocks0 := Published(), blockOf, blocks;
      InChain(|blocks|, blocks, blockOf, free, was, chain, tailIndex, Pow2(k));
      newFirst := first;
      x := AddBlock(true, f, p, p + |chain|);
      if x.Some? {
        LinksKept(blocks0, blocks, blockOf0, {x.value}, tailBlock, startBlock, first, chain, was, tailIndex, Pow2(k));
        ChainApart(|blocks|, blocks, blockOf0, blockOf, free, was, chain, x.value, tailIndex, Pow2(k));
        ghost var blocks1 := blocks;
        newFirst := Link(startBlock, first, x.value, chain, was);
        ChainGrows(blocks0, blocks1, blocks, blockOf0, blockOf, was, chain, x.value, tailIndex, Pow2(k));
      } else {
        LinksKept(blocks0, blocks, blockOf0, {}, tailBlock, startBlock, first, chain, was, tailIndex, Pow2(k));
      }
    }

    /**
      enqueue_bulk up to the point where all its blocks are allocated: `first` is firstAllocatedBlock,
      `end` is endBlock.  If an allocation fails everything is as before.
     */
    method AllocateBlocks(count: nat, ghost f: nat) returns (ok: bool, first: Option<BlockId>, end: Option<BlockId>, ghost chain: seq<BlockId>)
      requires Allocating(tailBlock, None, [], blockOf, f) && k <= 63 && count + Pow2(k) <= WORD
      requires f == Blk(headIndex, Pow2(k)) && headIndex <= Base(Published(), Pow2(k)) && Base(Published(), Pow2(k)) - headIndex < HALF
      modifies `ix, `values, `blockOf, `blocks, `free, `tailBlock, `calls
      ensures !ok ==> Allocating(old(tailBlock), None, [], old(blockOf), f)
      ensures ok ==> Allocating(old(tailBlock), first, chain, old(blockOf), f)
      ensures ok ==> |chain| == Blocks(tailIndex + count, Pow2(k)) - Published() && end == tailBlock
      ensures SameData(old(blocks), blocks, old(blockOf))
      ensures ok <==> Fits(headIndex, tailIndex, count, Pow2(k)) && Granted(malloc, old(calls), old(calls) + old(Needed(count)))
      ensures old(calls) <= calls <= old(calls) + old(Needed(count)) && (ok ==> calls == old(calls) + old(Needed(count)))
    {
      hide ImplicitProducer.Allocating, Blocks, And, HighMask, Img, Sub, Pow2, CircularLess, Base, CapOf, Blk, SameData, Demand, DemandOne;
      var b, p := Pow2(k), Blocks(tailIndex, Pow2(k));
      ghost var need, was := Blocks(tailIndex + count, b) - p, blockOf;
      ghost var goal := calls + Needed(count);
      LiveFrom();
      var startBlock := tailBlock;
      first, end, chain := None, tailBlock, [];
      BlocksToAllocate(k, tailIndex, count);
      var blockBaseDiff := Sub(And(Img(tailIndex + count - 1), HighMask(64, k)), And(Img(tailIndex - 1), HighMask(64, k)));
      var currentTailIndex := Base(p, b) - b;
      NoneYet(b);
      SameDataSelf(blocks, was);
      while blockBaseDiff > 0
        invariant |chain| <= need && blockBaseDiff == Base(need - |chain|, b)
        invariant currentTailIndex == Base(p + |chain|, b) - b && headIndex <= Base(p + |chain|, b) && Base(p + |chain|, b) - headIndex < HALF
        invariant Allocating(startBlock, first, chain, was, f) && end == tailBlock
        invariant SameData(old(blocks), blocks, was)
        invariant old(calls) <= calls && Granted(malloc, old(calls), calls)
        invariant calls + Demand(CapOf(ix), |free|, p + |chain| - f, need - |chain|) == goal
        decreases blockBaseDiff
      {
        OneBlock(need - |chain|, p + |chain|, b);
        blockBaseDiff := blockBaseDiff - b;
        currentTailIndex := currentTailIndex + b;
        FullGuard(k, p + |chain|, headIndex);
        var full := !CircularLess(Img(headIndex), Img(currentTailIndex + b));
        var x: Option<BlockId> := None;
        ghost var calls1, blocks1 := calls, blocks;
        if !full {
          IndexRoom(startBlock, first, chain, was, f);
          DemandNext(CapOf(ix), |free|, p + |chain| - f, need - |chain|);
          ghost var d := DemandOne(CapOf(ix), |free|, p + |chain| - f);
          x, first := Extend(startBlock, first, chain, was, f);
          SameDataOn(old(blocks), blocks1, blocks, was);
          GrantedOn(malloc, old(calls), calls1, calls1 + d);
          if x == None { NotGranted(malloc, old(calls), calls1 + d, goal); }
        } else {
          BaseUpTo(p + |chain| + 1, p + need, b);
        }
        if x == None {
          RollBackAll(first, startBlock, chain, was, f);
          ok := false;
          return;
        }
        end := x;
        chain := chain + [x.value];
      }
      NoBlocks(need - |chain|, b);
      DemandNext(CapOf(ix), |free|, p + |chain| - f, 0);
      ok := true;
    }

    lemma IndexRoom(startBlock: Option<BlockId>, first: Option<BlockId>, chain: seq<BlockId>, was: map<nat, BlockId>, f: nat)
      requires Allocating(startBlock, first, chain, was, f) && f == Blk(headIndex, Pow2(k)) && Base(Published() + |chain| + 1, Pow2(k)) - headIndex < HALF
      ensures Published() + |chain| - f >= CapOf(ix) ==> ix.headers != [] && k + ix.Cur().c < 64
    {
      hide Window, Placed, Sized, NewChain, Links, Base, Blk, Pow2, Blocks;
      WindowKeys(ix, values, blockOf, f, Published(), Published() + |chain|, k);
      IndexRoomAt(ix, k, headIndex, Published() + |chain|);
    }

    // ---- writing

    /** The elements that go into one block. */
    method WriteBlock(x: Option<BlockId>, xs: seq<Value>, from: nat, stop: nat)
      requires Placed(|blocks|, blockOf, free, {}) && Sized(blocks, Pow2(k)) && |log| == tailIndex <= from <= stop <= tailIndex + |xs|
      requires Content(blocks, blockOf, headIndex, log + xs[..from - tailIndex], Pow2(k))
      requires forall i: nat | from <= i < stop :: IsBlockOf(blockOf, x, i, Pow2(k))
      modifies `blocks
      ensures Content(blocks, blockOf, headIndex, log + xs[..stop - tailIndex], Pow2(k)) && Sized(blocks, Pow2(k)) && OnlyCells(old(blocks), blocks)
    {
      hide Placed, Content, Sized, Blk, Pos, Pow2;
      PlacedIn(|blocks|, blockOf, free, {});
      var currentTailIndex := from;
      while currentTailIndex != stop
        invariant from <= currentTailIndex <= stop && OnlyCells(old(blocks), blocks) && Sized(blocks, Pow2(k))
        invariant Content(blocks, blockOf, headIndex, log + xs[..currentTailIndex - tailIndex], Pow2(k))
        decreases stop - currentTailIndex
      {
        assert IsBlockOf(blockOf, x, currentTailIndex, Pow2(k));
        ghost var before := log + xs[..currentTailIndex - tailIndex];
        var v := xs[currentTailIndex - tailIndex];
        CellThere(blocks, blockOf, Pow2(k), currentTailIndex);
        WriteContent(blocks, blockOf, headIndex, before, v, Pow2(k));
        blocks := SetCell(blocks, x.value, Pos(currentTailIndex, Pow2(k)), Some(v));
        currentTailIndex := currentTailIndex + 1;
        assert before + [v] == log + xs[..currentTailIndex - tailIndex];
      }
    }

    /** One round of the writing loop: the part in one block, and the step to the next block unless it was the last. */
    method WriteRound(xs: seq<Value>, end: Option<BlockId>, from: nat, ghost f: nat) returns (stop: nat, last: bool)
      requires Placed(|blocks|, blockOf, free, {}) && Sized(blocks, Pow2(k)) && |log| == tailIndex <= from <= tailIndex + |xs|
      requires Content(blocks, blockOf, headIndex, log + xs[..from - tailIndex], Pow2(k)) && Walk(blocks, blockOf, tailIndex, Pow2(k))
      requires f <= Blk(tailIndex, Pow2(k)) && forall n: nat :: n in blockOf <==> f <= n < Blocks(tailIndex + |xs|, Pow2(k))
      requires if xs == [] then tailBlock == end
               else from < tailIndex + |xs| && IsBlockOf(blockOf, tailBlock, from, Pow2(k)) && IsBlockOf(blockOf, end, tailIndex + |xs| - 1, Pow2(k))
      modifies `tailBlock, `blocks
      ensures from <= stop <= tailIndex + |xs| && Content(blocks, blockOf, headIndex, log + xs[..stop - tailIndex], Pow2(k))
      ensures Sized(blocks, Pow2(k)) && OnlyCells(old(blocks), blocks) && Walk(blocks, blockOf, tailIndex, Pow2(k))
      ensures if last then stop == tailIndex + |xs| && tailBlock == end
              else xs != [] && from < stop < tailIndex + |xs| && IsBlockOf(blockOf, tailBlock, stop, Pow2(k))
    {
      hide Placed, Content, Sized, Blk, Blocks, StopIndex, Pow2, Walk, OnlyCells;
      var b, newTailIndex := Pow2(k), tailIndex + |xs|;
      PlacedIn(|blocks|, blockOf, free, {});
      stop := StopIndex(from, newTailIndex, b);
      if xs != [] { RoundFacts(blockOf, f, tailIndex, from, newTailIndex, b); }
      WriteBlock(tailBlock, xs, from, stop);
      SameWalk(old(blocks), blocks, blockOf, tailIndex, b);
      last := tailBlock == end;
      if !last {
        WalkStep(blocks, blockOf, tailIndex, Blk(from, b), b);
        tailBlock := blocks[tailBlock.value].next;
      }
    }

    /** The elements are written block by block, following the links, up to the block `end`. */
    method WriteElements(xs: seq<Value>, end: Option<BlockId>, ghost f: nat)
      requires Placed(|blocks|, blockOf, free, {}) && Sized(blocks, Pow2(k)) && |log| == tailIndex
      requires Content(blocks, blockOf, headIndex, log, Pow2(k)) && Walk(blocks, blockOf, tailIndex, Pow2(k))
      requires f <= Blk(tailIndex, Pow2(k)) && forall n: nat :: n in blockOf <==> f <= n < Blocks(tailIndex + |xs|, Pow2(k))
      requires if xs == [] then tailBlock == end
               else IsBlockOf(blockOf, tailBlock, tailIndex, Pow2(k)) && IsBlockOf(blockOf, end, tailIndex + |xs| - 1, Pow2(k))
      modifies `tailBlock, `blocks
      ensures Content(blocks, blockOf, headIndex, log + xs, Pow2(k)) && Sized(blocks, Pow2(k)) && OnlyCells(old(blocks), blocks) && tailBlock == end
    {
      hide Placed, Content, Sized, Blk, Blocks, Pow2, Walk;
      var currentTailIndex := tailIndex;
      assert log + xs[..0] == log && xs[..|xs|] == xs;
      while true
        invariant tailIndex <= currentTailIndex <= tailIndex + |xs| && Sized(blocks, Pow2(k)) && OnlyCells(old(blocks), blocks)
        invariant Content(blocks, blockOf, headIndex, log + xs[..currentTailIndex - tailIndex], Pow2(k))
        invariant if xs == [] then tailBlock == end else currentTailIndex < tailIndex + |xs| && IsBlockOf(blockOf, tailBlock, currentTailIndex, Pow2(k))
        invariant Walk(blocks, blockOf, tailIndex, Pow2(k))
        decreases tailIndex + |xs| - currentTailIndex
      {
        var last: bool;
        currentTailIndex, last := WriteRound(xs, end, currentTailIndex, f);
        if last { break; }
      }
    }

    // ---- enqueue_bulk

    lemma ValidParts()
      requires Valid()
      ensures Allocating(tailBlock, None, [], blockOf, Blk(headIndex, Pow2(k))) && k <= 64
      ensures Blk(headIndex, Pow2(k)) <= Blk(tailIndex, Pow2(k)) && headIndex <= tailIndex == |log| && opt == over + headIndex
      ensures k <= 63 && headIndex <= Base(Published(), Pow2(k)) && Base(Published(), Pow2(k)) - headIndex < HALF
    {
      TailFits(tailIndex, Pow2(k));
      BlkMonotone(headIndex, tailIndex, Pow2(k));
      BlocksAt(tailIndex, Pow2(k));
    }

    lemma ValidFromParts(startBlock: Option<BlockId>, blocks0: seq<Block>, was: map<nat, BlockId>)
      requires Allocating(startBlock, None, [], was, Blk(headIndex, Pow2(k)))
      requires headIndex <= tailIndex == |log| && opt == over + headIndex && SameData(blocks0, blocks, was)
      requires k <= 63 && Base(Published(), Pow2(k)) - headIndex < HALF
      requires Content(blocks0, was, headIndex, log, Pow2(k)) && Counts(blocks0, was, headIndex, Pow2(k)) && LastOk(was, startBlock, Published())
      ensures Valid() && tailBlock == startBlock && blockOf == was
    {
      hide Content, Counts, Blk, Pos, Blocks, Pow2, Window, Placed, Sized, SameData;
      WindowKeys(ix, values, blockOf, Blk(headIndex, Pow2(k)), Published(), Published(), k);
      NewContent(blocks0, blocks, blockOf, was, headIndex, log, Published(), Pow2(k));
      NewCounts(blocks0, blocks, blockOf, was, [], headIndex, tailIndex, Pow2(k));
    }

    /** The second half of enqueue_bulk: the elements are written and published. */
    method PublishBulk(xs: seq<Value>, startBlock: Option<BlockId>, first: Option<BlockId>, end: Option<BlockId>, ghost chain: seq<BlockId>, ghost was: map<nat, BlockId>, ghost f: nat)
      requires Allocating(startBlock, first, chain, was, f) && f == Blk(headIndex, Pow2(k)) <= Blk(tailIndex, Pow2(k))
      requires |chain| == Blocks(tailIndex + |xs|, Pow2(k)) - Published() && end == tailBlock
      requires headIndex <= tailIndex == |log| && opt == over + headIndex && k <= 63 && Base(Blocks(tailIndex + |xs|, Pow2(k)), Pow2(k)) - headIndex < HALF
      requires Content(blocks, blockOf, headIndex, log, Pow2(k)) && Counts(blocks, blockOf, headIndex, Pow2(k)) && LastOk(was, startBlock, Published())
      modifies `tailBlock, `tailIndex, `log, `blocks
      ensures Valid() && log == old(log) + xs
    {
      hide Window, Placed, Sized, Blk, Pos, Blocks, Pow2, Content, Counts, Walk, NewChain, Links, IsBlockOf, LastOk;
      var b := Pow2(k);
      WindowKeys(ix, values, blockOf, f, Published(), Published() + |chain|, k);
      WindowPublished(ix, values, blockOf, f, Published(), Published() + |chain|, k);
      ReadyToWrite(blocks, blockOf, tailBlock, startBlock, first, chain, was, tailIndex, b, |xs|);
      ChainWalks(blocks, blockOf, tailBlock, startBlock, first, chain, was, tailIndex, b);
      if xs == [] { SameLast(blocks, blockOf, was, chain, tailBlock, tailIndex, b); } else { NewLastOk(blockOf, tailBlock, tailIndex + |xs|, b); }
      tailBlock := startBlock;
      if Pos(tailIndex, b) == 0 && first != None { tailBlock := first; }
      WriteElements(xs, end, f);
      SameCounts(old(blocks), blocks, blockOf, headIndex, b);
      tailIndex := tailIndex + |xs|;
      log := log + xs;
    }

    /**
      enqueue_bulk: all elements are appended, or nothing has changed: not the contents, the tail block
      or the blocks in the index.  It succeeds exactly when the queue is not full and malloc answers
      the calls that it needs, which are none exactly when there is room.
     */
    method EnqueueBulk(xs: seq<Value>) returns (ok: bool)
      requires Valid() && |xs| + Pow2(k) <= WORD
      modifies `ix, `values, `blockOf, `blocks, `free, `tailBlock, `tailIndex, `log, `calls
      ensures Valid() && log == if ok then old(log) + xs else old(log)
      ensures !ok ==> tailIndex == old(tailIndex) && tailBlock == old(tailBlock) && blockOf == old(blockOf)
      ensures ok <==> Fits(headIndex, old(tailIndex), |xs|, Pow2(k)) && Granted(malloc, old(calls), old(calls) + old(Needed(|xs|)))
      ensures old(calls) <= calls <= old(calls) + old(Needed(|xs|)) && (ok ==> calls == old(calls) + old(Needed(|xs|)))
    {
      hide ImplicitProducer.Allocating, ImplicitProducer.Valid, ImplicitProducer.Needed, Blk, Pow2, Blocks, Content, Counts, SameData, Base;
      ValidParts();
      ValidData();
      var startBlock := tailBlock;
      ghost var f, was, blocks0 := Blk(headIndex, Pow2(k)), blockOf, blocks;
      var first, end;
      ghost var chain;
      ok, first, end, chain := AllocateBlocks(|xs|, f);
      if ok {
        AllocatedData(startBlock, first, chain, blocks0, was, f);
        PublishBulk(xs, startBlock, first, end, chain, was, f);
      } else {
        ValidFromParts(startBlock, blocks0, was);
      }
    }

    lemma ValidData()
      requires Valid()
      ensures Content(blocks, blockOf, headIndex, log, Pow2(k)) && Counts(blocks, blockOf, headIndex, Pow2(k)) && LastOk(blockOf, tailBlock, Published())
    {}

    lemma AllocatedData(startBlock: Option<BlockId>, first: Option<BlockId>, chain: seq<BlockId>, blocks0: seq<Block>, was: map<nat, BlockId>, f: nat)
      requires Allocating(startBlock, first, chain, was, f) && SameData(blocks0, blocks, was) && headIndex <= tailIndex
      requires Content(blocks0, was, headIndex, log, Pow2(k)) && Counts(blocks0, was, headIndex, Pow2(k))
      ensures Content(blocks, blockOf, headIndex, log, Pow2(k)) && Counts(blocks, blockOf, headIndex, Pow2(k))
    {
      hide Content, Counts, Blk, Pos, Blocks, Pow2, Window, Placed, Sized, SameData, Chained, CutAt, Links;
      WindowKeys(ix, values, blockOf, f, Published(), Published() + |chain|, k);
      NewContent(blocks0, blocks, blockOf, was, headIndex, log, Published(), Pow2(k));
      NewCounts(blocks0, blocks, blockOf, was, chain, headIndex, tailIndex, Pow2(k));
    }

    // ---- enqueue

    /** enqueue: like a bulk of one element. */
    method Enqueue(v: Value) returns (ok: bool)
      requires Valid()
      modifies `ix, `values, `blockOf, `blocks, `free, `tailBlock, `tailIndex, `log, `calls
      ensures Valid() && log == if ok then old(log) + [v] else old(log)
      ensures !ok ==> tailIndex == old(tailIndex) && tailBlock == old(tailBlock) && blockOf == old(blockOf)
      ensures ok <==> Fits(headIndex, old(tailIndex), 1, Pow2(k)) && Granted(malloc, old(calls), old(calls) + old(Needed(1)))
      ensures old(calls) <= calls <= old(calls) + old(Needed(1)) && (ok ==> calls == old(calls) + old(Needed(1)))
    {
      hide ImplicitProducer.Valid, ImplicitProducer.HasRoom, ImplicitProducer.Needed, Fits, Granted, Blocks, Pos, Pow2, Blk, Base;
      ValidParts();
      AtBoundary();
      if Pos(tailIndex, Pow2(k)) == 0 {
        if !CircularLess(Img(headIndex), Img(tailIndex + Pow2(k))) { return false; }
        ok := StartBlock();
        if !ok { return; }
      } else {
        NothingNeeded(1);
        RoomInside();
      }
      WriteLast(v);
      ok := true;
    }

    /** What the test for a full queue comes to, and when one more element takes a block. */
    lemma AtBoundary()
      requires Valid()
      ensures var b := Pow2(k);
              if Pos(tailIndex, b) == 0 then tailIndex == Base(Published(), b) && Blocks(tailIndex + 1, b) == Published() + 1
                && (CircularLess(Img(headIndex), Img(tailIndex + b)) <==> Fits(headIndex, tailIndex, 1, b))
              else Blocks(tailIndex + 1, b) == Published()
      ensures headIndex <= Base(Published(), Pow2(k)) && Base(Published(), Pow2(k)) - headIndex < HALF && k <= 63
    {
      hide Rest, Pow2, Blk, Pos, Base, LastOk, CircularLess, Img, Blocks;
      var b := Pow2(k);
      TailFits(tailIndex, b);
      PosIn(tailIndex, b);
      BlocksAt(tailIndex, b);
      OneMoreBlock(tailIndex, b);
      FullGuard(k, Published(), headIndex);
    }

    /** tailBlock has a cell for the next element. */
    ghost predicate HasRoom()
      reads this
    {
      && Rest(ix, values, blocks, blockOf, free, headIndex, log, Blocks(tailIndex + 1, Pow2(k)), k)
      && headIndex <= tailIndex == |log| && opt == over + headIndex && IsBlockOf(blockOf, tailBlock, tailIndex, Pow2(k))
      && k <= 63 && Base(Blocks(tailIndex + 1, Pow2(k)), Pow2(k)) - headIndex < HALF
    }

    lemma RoomInside()
      requires Valid() && Pos(tailIndex, Pow2(k)) != 0
      ensures HasRoom()
    {
      hide Window, Placed, Sized, Content, Counts, Pow2;
      WindowKeys(ix, values, blockOf, Blk(headIndex, Pow2(k)), Published(), Published(), k);
      BlkMonotone(headIndex, tailIndex, Pow2(k));
      BlocksAt(tailIndex, Pow2(k));
    }

    /** The first half of enqueue at a block boundary. */
    method StartBlock() returns (ok: bool)
      requires Valid() && Pos(tailIndex, Pow2(k)) == 0 && Fits(headIndex, tailIndex, 1, Pow2(k))
      modifies `ix, `values, `blockOf, `blocks, `free, `tailBlock, `calls
      ensures ok ==> HasRoom()
      ensures !ok ==> Valid() && tailBlock == old(tailBlock) && blockOf == old(blockOf)
      ensures ok <==> Granted(malloc, old(calls), old(calls) + old(Needed(1)))
      ensures old(calls) <= calls <= old(calls) + old(Needed(1)) && (ok ==> calls == old(calls) + old(Needed(1)))
    {
      hide Base, CapOf, Window, Placed, Sized, Content, Counts, Blk, Pos, Blocks, Pow2, SameBut, IsBlockOf, LastOk, Granted, CircularLess, Img;
      AtBoundary();
      LiveFrom();
      DemandFirst(CapOf(ix), |free|, LiveBlocks(), 1);
      ghost var f, p, was, blocks0 := Blk(headIndex, Pow2(k)), Published(), blockOf, blocks;
      WindowKeys(ix, values, blockOf, f, p, p, k);
      IndexRoomAt(ix, k, headIndex, p);
      var x := AddBlock(false, f, p, p);
      if x == None {
        NothingNew(blocks0, blocks, blockOf, f, p, headIndex, log, Pow2(k));
        ok := false;
      } else {
        OneMore(blocks0, blocks, was, f, x.value, headIndex, log, Pow2(k));
        WindowPublished(ix, values, blockOf, f, p, p + 1, k);
        tailBlock := x;
        ok := true;
      }
    }

    /** The second half of enqueue. */
    method WriteLast(v: Value)
      requires HasRoom()
      modifies `blocks, `tailIndex, `log
      ensures Valid() && log == old(log) + [v]
    {
      hide Window, Placed, Sized, Content, Counts, Blk, Pos, Blocks, Pow2;
      PlacedIn(|blocks|, blockOf, free, {});
      CellThere(blocks, blockOf, Pow2(k), tailIndex);
      WriteContent(blocks, blockOf, headIndex, log, v, Pow2(k));
      NewLastOk(blockOf, tailBlock, tailIndex + 1, Pow2(k));
      blocks := SetCell(blocks, tailBlock.value, Pos(tailIndex, Pow2(k)), Some(v));
      SameCounts(old(blocks), blocks, blockOf, headIndex, Pow2(k));
      tailIndex := tailIndex + 1;
      log := log + [v];
    }

    // ---- dequeue

    /** The elements of one block are moved out and destroyed. */
    method ReadPart(x: BlockId, from: nat, stop: nat) returns (vs: seq<Value>)
      requires Placed(|blocks|, blockOf, free, {}) && Sized(blocks, Pow2(k)) && Content(blocks, blockOf, from, log, Pow2(k)) && from <= stop <= |log|
      requires forall i: nat | from <= i < stop :: IsBlockOf(blockOf, Some(x), i, Pow2(k))
      modifies `blocks
      ensures vs == log[from..stop] && OnlyCells(old(blocks), blocks) && Sized(blocks, Pow2(k)) && Content(blocks, blockOf, stop, log, Pow2(k))
    {
      hide Placed, Sized, Content, Blk, Pos, Pow2;
      PlacedIn(|blocks|, blockOf, free, {});
      var index := from;
      vs := [];
      while index != stop
        invariant from <= index <= stop && vs == log[from..index] && OnlyCells(old(blocks), blocks) && Sized(blocks, Pow2(k))
        invariant Content(blocks, blockOf, index, log, Pow2(k))
        decreases stop - index
      {
        assert IsBlockOf(blockOf, Some(x), index, Pow2(k));
        TakeContent(blocks, blockOf, index, log, Pow2(k));
        vs := vs + [blocks[x].cells[Pos(index, Pow2(k))].value];
        blocks := SetCell(blocks, x, Pos(index, Pow2(k)), None);
        index := index + 1;
      }
    }

    /** set_many_empty: the block counts them, and leaves the queue when that was all. */
    method SetManyEmpty(x: BlockId, e: EntryId, from: nat, stop: nat)
      requires Window(ix, values, blockOf, Blk(from, Pow2(k)), Blocks(|log|, Pow2(k)), Blocks(|log|, Pow2(k)), k)
      requires Placed(|blocks|, blockOf, free, {}) && Sized(blocks, Pow2(k)) && Content(blocks, blockOf, stop, log, Pow2(k)) && Counts(blocks, blockOf, from, Pow2(k))
      requires from <= stop <= Base(Blk(from, Pow2(k)), Pow2(k)) + Pow2(k) && IsBlockOf(blockOf, Some(x), from, Pow2(k))
      requires Blk(from, Pow2(k)) in ix.entryOf && e == ix.entryOf[Blk(from, Pow2(k))]
      modifies `values, `blockOf, `blocks, `free
      ensures Rest(ix, values, blocks, blockOf, free, stop, log, Blocks(|log|, Pow2(k)), k)
      ensures forall n: nat :: n in blockOf <==> n in old(blockOf) && Blk(stop, Pow2(k)) <= n
      ensures forall n <- blockOf :: blockOf[n] == old(blockOf)[n]
    {
      hide Window, Placed, Sized, Content, Counts, Blk, Pos, Pow2, Base, Blocks;
      ghost var f, p, blocks0 := Blk(from, Pow2(k)), Blocks(|log|, Pow2(k)), blocks;
      PlacedIn(|blocks|, blockOf, free, {});
      WindowKeys(ix, values, blockOf, f, p, p, k);
      blocks := blocks[x := blocks[x].(emptied := blocks[x].emptied + (stop - from))];
      TakenCounts(blocks0, blocks, blockOf, from, stop, Pow2(k));
      ContentCells(blocks0, blocks, blockOf, stop, log, Pow2(k));
      if blocks[x].emptied == Pow2(k) {
        ClearFirst(ix, values, blockOf, f, p, p, k);
        TakeOut(|blocks|, blockOf, free, f);
        PutBack(|blocks|, blockOf - {f}, free, x);
        ContentWithout(blocks, blockOf, stop, log, f, Pow2(k));
        values := values[e := None];
        free := free + [x];
        blockOf := blockOf - {f};
      }
    }

    /** What a consumer takes from one block, found in the given slot of the index. */
    method TakePart(slot: nat, from: nat, stop: nat) returns (vs: seq<Value>)
      requires Rest(ix, values, blocks, blockOf, free, from, log, Blocks(|log|, Pow2(k)), k) && Blk(from, Pow2(k)) in blockOf
      requires ix.headers != [] && slot == ix.Cur().SlotOf(Blk(from, Pow2(k))) && from <= stop <= |log|
      requires stop <= Base(Blk(from, Pow2(k)), Pow2(k)) + Pow2(k)
      modifies `values, `blockOf, `blocks, `free
      ensures vs == log[from..stop] && Rest(ix, values, blocks, blockOf, free, stop, log, Blocks(|log|, Pow2(k)), k)
      ensures forall n: nat :: n in blockOf <==> n in old(blockOf) && Blk(stop, Pow2(k)) <= n
      ensures forall n <- blockOf :: blockOf[n] == old(blockOf)[n]
    {
      hide Window, Placed, Sized, Content, Counts, Blk, Pos, Pow2, Base, Blocks;
      ghost var n, p := Blk(from, Pow2(k)), Blocks(|log|, Pow2(k));
      SlotHolds(ix, values, blockOf, n, p, p, k, n);
      var e := ix.Cur().index[slot];
      var x := values[e].value;
      PartOf(from, stop, Pow2(k));
      vs := ReadPart(x, from, stop);
      SameCounts(old(blocks), blocks, blockOf, from, Pow2(k));
      SetManyEmpty(x, e, from, stop);
    }

    /** get_block_index_index_for_index */
    function LookupSlot(index: nat): nat
      requires ix.headers != [] && CanFind(ix, ix.Cur(), ix.Cur().tail, index, k)
      reads `ix
    {
      Found(ix, ix.Cur(), ix.Cur().tail, index, k)
    }

    lemma FirstSlot(index: nat)
      requires Rest(ix, values, blocks, blockOf, free, index, log, Blocks(|log|, Pow2(k)), k) && index < |log|
      ensures Blk(index, Pow2(k)) in blockOf && ix.headers != [] && CanFind(ix, ix.Cur(), ix.Cur().tail, index, k)
      ensures LookupSlot(index) == ix.Cur().SlotOf(Blk(index, Pow2(k)))
    {
      hide Window, Placed, Sized, Counts, Pow2, Found, CanFind, Blk, Pos;
      ghost var p := Blocks(|log|, Pow2(k));
      assert CellIs(blocks, blockOf, Pow2(k), index, log[index]);
      FindsSlot(ix, values, blockOf, Blk(index, Pow2(k)), p, p, k, index);
    }

    /** dequeue: the oldest element, unless the queue is empty. */
    method Dequeue() returns (r: Option<Value>)
      requires Valid()
      modifies `values, `blockOf, `blocks, `free, `headIndex, `opt
      ensures Valid() && log == old(log)
      ensures r == (if old(Contents()) == [] then None else Some(old(Contents())[0]))
      ensures Contents() == if old(Contents()) == [] then [] else old(Contents())[1..]
    {
      hide Rest, Blk, Base, Pow2, LastOk;
      TailFits(tailIndex, Pow2(k));
      r := None;
      CircularLessIsLess(headIndex, tailIndex);
      if CircularLess(Img(opt - over), Img(tailIndex)) {
        var overcommit, my := over, opt;
        opt := opt + 1;
        if CircularLess(Img(my - overcommit), Img(tailIndex)) {
          var index := headIndex;
          headIndex := headIndex + 1;
          FirstSlot(index);
          OneIn(index, Pow2(k));
          var vs := TakePart(LookupSlot(index), index, index + 1);
          KeepsLast(old(blockOf), blockOf, tailBlock, Published());
          r := Some(vs[0]);
        } else {
          assert false;   // takes a second consumer: module DequeueCounters
        }
      }
    }

    /** The elements of one block, and the slot of the next. */
    method TakeBlock(slot: nat, index: nat, end: nat) returns (vs: seq<Value>, stop: nat, newSlot: nat)
      requires Rest(ix, values, blocks, blockOf, free, index, log, Blocks(|log|, Pow2(k)), k) && index <= end <= |log| && index < |log| && Blk(index, Pow2(k)) in blockOf
      requires ix.headers != [] && slot == ix.Cur().SlotOf(Blk(index, Pow2(k)))
      modifies `values, `blockOf, `blocks, `free
      ensures index <= stop <= end && (index < end ==> index < stop) && vs == log[index..stop] && Rest(ix, values, blocks, blockOf, free, stop, log, Blocks(|log|, Pow2(k)), k)
      ensures stop < end ==> Blk(stop, Pow2(k)) in blockOf && newSlot == ix.Cur().SlotOf(Blk(stop, Pow2(k)))
      ensures SubMap(blockOf, old(blockOf))
    {
      hide Rest, Blk, Base, Pow2, StopIndex, Blocks, And, Header.SlotOf;
      stop := StopIndex(index, end, Pow2(k));
      StopOk(index, end, Pow2(k));
      NextSlotOf(ix, Blk(index, Pow2(k)));
      vs := TakePart(slot, index, stop);
      newSlot := And(slot + 1, ix.Cur().Cap() - 1);
      if stop < end { FirstSlot(stop); }
    }

    /** The blocks of a claim one after the other, in the slots that follow one another in the index. */
    method TakeRange(first: nat, count: nat) returns (vs: seq<Value>)
      requires Rest(ix, values, blocks, blockOf, free, first, log, Blocks(|log|, Pow2(k)), k) && first < |log| && first + count <= |log|
      modifies `values, `blockOf, `blocks, `free
      ensures vs == log[first..first + count] && Rest(ix, values, blocks, blockOf, free, first + count, log, Blocks(|log|, Pow2(k)), k)
      ensures SubMap(blockOf, old(blockOf))
    {
      hide Rest, Blk, Base, Pow2, Blocks, Header.SlotOf, SubMap;
      FirstSlot(first);
      SubMapSame(blockOf);
      var index, slot := first, LookupSlot(first);
      vs := [];
      while true
        invariant first <= index <= first + count && vs == log[first..index] && (index == first || index < first + count)
        invariant Rest(ix, values, blocks, blockOf, free, index, log, Blocks(|log|, Pow2(k)), k) && ix.headers != []
        invariant slot == ix.Cur().SlotOf(Blk(index, Pow2(k))) && Blk(index, Pow2(k)) in blockOf
        invariant SubMap(blockOf, old(blockOf))
        decreases first + count - index
      {
        ghost var was := blockOf;
        var part, stop;
        part, stop, slot := TakeBlock(slot, index, first + count);
        SubMapTwice(blockOf, was, old(blockOf));
        vs := vs + part;
        index := stop;
        if index == first + count { break; }
      }
    }

    /** dequeue_bulk: the oldest elements, up to `max`. */
    method DequeueBulk(max: nat) returns (vs: seq<Value>)
      requires Valid()
      modifies `values, `blockOf, `blocks, `free, `headIndex, `opt
      ensures Valid() && log == old(log)
      ensures vs == old(Contents())[..if max < |old(Contents())| then max else |old(Contents())|]
      ensures Contents() == old(Contents())[|vs|..]
    {
      hide Rest, Blk, Base, Pow2, LastOk;
      TailFits(tailIndex, Pow2(k));
      vs := [];
      SubImages(tailIndex, headIndex);
      Counters.PositiveImage(tailIndex - headIndex);
      var desiredCount := Sub(Img(tailIndex), Img(opt - over));
      if CircularLess(0, desiredCount) {
        desiredCount := if desiredCount < max then desiredCount else max;
        var overcommit, my := over, opt;
        opt := opt + desiredCount;
        var actualCount := Sub(Img(tailIndex), Img(my - overcommit));
        if CircularLess(0, actualCount) {
          actualCount := if desiredCount < actualCount then desiredCount else actualCount;
          if actualCount < desiredCount { assert false; }   // as above
          var firstIndex := headIndex;
          headIndex := headIndex + actualCount;
          vs := TakeRange(firstIndex, actualCount);
          KeepsLast(old(blockOf), blockOf, tailBlock, Published());
        } else {
          assert false;   // as above
        }
      }
    }

    // ---- the end of the producer

    /** add_block_to_free_list, for a block of the index. */
    method FreeBlock(x: BlockId, ghost n: nat, ghost was: map<nat, BlockId>, ghost p: nat)
      requires Placed(|blocks|, blockOf, free, {}) && Remaining(was, blockOf, n, p) && n < p && n in was && was[n] == x
      modifies `blockOf, `free
      ensures Placed(|blocks|, blockOf, free, {}) && Remaining(was, blockOf, n + 1, p)
    {
      hide Placed;
      TakeOut(|blocks|, blockOf, free, n);
      PutBack(|blocks|, blockOf - {n}, free, x);
      free := free + [x];
      blockOf := blockOf - {n};
    }

    /** The block of the element to be destroyed next; the one before, if it is done with, is freed. */
    method BlockFor(index: nat, block: Option<BlockId>, ghost was: map<nat, BlockId>, ghost f: nat, ghost p: nat) returns (x: Option<BlockId>)
      requires Window(ix, values, was, f, p, p, k) && Placed(|blocks|, blockOf, free, {}) && Blk(index, Pow2(k)) in was
      requires if block == None then Remaining(was, blockOf, f, p) && f == Blk(index, Pow2(k))
               else index > 0 && IsBlockOf(was, block, index - 1, Pow2(k)) && Remaining(was, blockOf, Blk(index - 1, Pow2(k)), p)
      modifies `blockOf, `free
      ensures IsBlockOf(was, x, index, Pow2(k)) && Placed(|blocks|, blockOf, free, {}) && Remaining(was, blockOf, Blk(index, Pow2(k)), p)
    {
      hide Window, Placed, Remaining, Blk, Pos, Pow2, CanFind, Found;
      WindowKeys(ix, values, was, f, p, p, k);
      if index > 0 { BoundaryOrNot(index, Pow2(k)); }
      x := block;
      if Pos(index, Pow2(k)) == 0 || block == None {
        if block.Some? { FreeBlock(block.value, Blk(index - 1, Pow2(k)), was, p); }
        FindsIn(ix, values, was, f, p, p, k, index);
        x := values[Lookup(index)];
      }
    }

    /** The block after whose last element nothing more was enqueued, if it is still in the index. */
    method FreeLast(force: bool, ghost was: map<nat, BlockId>)
      requires Placed(|blocks|, blockOf, free, {}) && LastOk(was, tailBlock, Published()) && headIndex <= tailIndex && (force <==> headIndex != tailIndex)
      requires forall n: nat :: n in was <==> Blk(headIndex, Pow2(k)) <= n < Published()
      requires Remaining(was, blockOf, if force then Blk(tailIndex - 1, Pow2(k)) else Blk(headIndex, Pow2(k)), Published())
      modifies `blockOf, `free
      ensures Placed(|blocks|, map[], free, {})
    {
      hide Placed, Blk, Pos, Blocks, Pow2, LastOk;
      LastLeft(was, tailBlock, headIndex, tailIndex, Pow2(k));
      if tailBlock != None && (force || Pos(tailIndex, Pow2(k)) != 0) {
        FreeBlock(tailBlock.value, Published() - 1, was, Published());
      }
      assert blockOf == map[];
    }

    /**
      The destructor: it destroys the remaining elements in order, and every block that is still in
      the index goes to the free list, once.
     */
    method Destroy() returns (destroyed: seq<Value>)
      requires Valid()
      modifies `blocks, `blockOf, `free
      ensures destroyed == old(Contents())
      ensures |blocks| == |old(blocks)| && Placed(|blocks|, map[], free, {})
    {
      hide Window, Sized, Content, Counts, Blk, Pos, Pow2, Blocks, Placed, LastOk, CanFind, Found, Remaining;
      ghost var f, p, was := Blk(headIndex, Pow2(k)), Published(), blockOf;
      WindowKeys(ix, values, blockOf, f, p, p, k);
      AllRemain(blockOf, f, p);
      PlacedIn(|blocks|, blockOf, free, {});
      var tail, index := tailIndex, headIndex;
      var block: Option<BlockId> := None;
      var forceFreeLastBlock := index != tail;
      destroyed := [];
      while index != tail
        invariant headIndex <= index <= tail && destroyed == log[headIndex..index] && |blocks| == |old(blocks)|
        invariant Content(blocks, was, index, log, Pow2(k)) && Placed(|blocks|, blockOf, free, {})
        invariant block == None <==> index == headIndex
        invariant Remaining(was, blockOf, if block == None then f else Blk(index - 1, Pow2(k)), p)
        invariant block.Some? ==> IsBlockOf(was, block, index - 1, Pow2(k))
        decreases tail - index
      {
        TakeContent(blocks, was, index, log, Pow2(k));
        block := BlockFor(index, block, was, f, p);
        destroyed := destroyed + [blocks[block.value].cells[Pos(index, Pow2(k))].value];
        blocks := SetCell(blocks, block.value, Pos(index, Pow2(k)), None);
        index := index + 1;
      }
      FreeLast(forceFreeLastBlock, was);
    }
  }
}
