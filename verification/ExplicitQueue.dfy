/**
  The explicit producer of concurrentqueue.h as one thread sees it: a circular list of blocks that
  are used again in place once they are empty, per-element empty flags in reverse order, and a
  circular block index whose oldest entries are overwritten.  When its allocations succeed it
  behaves like a sequence.

  As in module ImplicitQueue, memory is a sequence of blocks and pointers are addresses in it.
 */
module ExplicitQueue {
  import opened Allocation
  import opened Jobs
  import opened Options
  import opened Words
  import opened BlockNumbers
  import Counters = DequeueCounters

  type Value = Socks

  type BlockId = nat

  datatype Block = Block(cells: seq<Option<Value>>, emptyFlags: seq<bool>, next: BlockId)

  datatype Entry = Entry(base: nat, block: BlockId)

  // ---------------------------------------------------------------- the circular list

  /** The blocks of the list, oldest first; all others are in the pool. */
  ghost predicate Parts(size: nat, order: seq<BlockId>, free: seq<BlockId>) {
    && |order| + |free| == size
    && (forall i | 0 <= i < |order| :: order[i] < size) && (forall i | 0 <= i < |free| :: free[i] < size)
    && (forall i, j | 0 <= i < j < |order| :: order[i] != order[j]) && (forall i, j | 0 <= i < j < |free| :: free[i] != free[j])
    && (forall i, j | 0 <= i < |order| && 0 <= j < |free| :: order[i] != free[j])
  }

  function After(i: nat, n: nat): nat { if i + 1 < n then i + 1 else 0 }

  ghost predicate Ring(blocks: seq<Block>, order: seq<BlockId>) {
    forall i | 0 <= i < |order| :: order[i] < |blocks| && blocks[order[i]].next == order[After(i, |order|)]
  }

  ghost predicate TailIs(tailBlock: Option<BlockId>, order: seq<BlockId>) {
    tailBlock == if order == [] then None else Some(order[|order| - 1])
  }

  function Rotate(order: seq<BlockId>): (r: seq<BlockId>)
    requires order != []
    ensures |r| == |order|
  {
    order[1..] + [order[0]]
  }

  lemma RotateRing(blocks: seq<Block>, order: seq<BlockId>, free: seq<BlockId>)
    requires order != [] && Parts(|blocks|, order, free) && Ring(blocks, order)
    ensures Parts(|blocks|, Rotate(order), free) && Ring(blocks, Rotate(order))
    ensures blocks[order[|order| - 1]].next == order[0] && TailIs(Some(order[0]), Rotate(order))
  {
    var n, r := |order|, Rotate(order);
    forall i | 0 <= i < n ensures r[i] == order[After(i, n)] {}
    assert After(n - 1, n) == 0;
    forall i | 0 <= i < n ensures blocks[r[i]].next == r[After(i, n)] { assert blocks[order[After(i, n)]].next == order[After(After(i, n), n)]; }
  }

  /** x becomes the last block. */
  function Linked(blocks: seq<Block>, tailBlock: Option<BlockId>, x: BlockId): seq<Block>
    requires x < |blocks| && (tailBlock.Some? ==> tailBlock.value < |blocks|)
  {
    match tailBlock
    case None => blocks[x := blocks[x].(next := x)]
    case Some(t) =>
      var linked := blocks[x := blocks[x].(next := blocks[t].next)];
      linked[t := linked[t].(next := x)]
  }

  lemma FirstFree(size: nat, order: seq<BlockId>, free: seq<BlockId>)
    requires Parts(size, order, free) && free != []
    ensures free[0] < size && free[0] !in order
  {}

  lemma InsertRing(blocks: seq<Block>, order: seq<BlockId>, free: seq<BlockId>, tailBlock: Option<BlockId>)
    requires Parts(|blocks|, order, free) && Ring(blocks, order) && TailIs(tailBlock, order) && free != []
    ensures (tailBlock.Some? ==> tailBlock.value < |blocks|) && free[0] < |blocks|
    ensures Parts(|blocks|, order + [free[0]], free[1..]) && Ring(Linked(blocks, tailBlock, free[0]), order + [free[0]])
    ensures |Linked(blocks, tailBlock, free[0])| == |blocks|
    ensures forall y | 0 <= y < |blocks| :: Linked(blocks, tailBlock, free[0])[y] == blocks[y].(next := Linked(blocks, tailBlock, free[0])[y].next)
  {
    FirstFree(|blocks|, order, free);
    InsertParts(|blocks|, order, free);
    InsertLinks(blocks, order, free[0], tailBlock);
  }

  lemma InsertParts(size: nat, order: seq<BlockId>, free: seq<BlockId>)
    requires Parts(size, order, free) && free != []
    ensures Parts(size, order + [free[0]], free[1..])
  {}

  lemma InsertLinks(blocks: seq<Block>, order: seq<BlockId>, x: BlockId, tailBlock: Option<BlockId>)
    requires Ring(blocks, order) && TailIs(tailBlock, order) && x < |blocks| && x !in order && (tailBlock.Some? ==> tailBlock.value < |blocks|)
    requires forall i, j | 0 <= i < j < |order| :: order[i] != order[j]
    ensures Ring(Linked(blocks, tailBlock, x), order + [x]) && |Linked(blocks, tailBlock, x)| == |blocks|
    ensures forall y | 0 <= y < |blocks| :: Linked(blocks, tailBlock, x)[y] == blocks[y].(next := Linked(blocks, tailBlock, x)[y].next)
  {
    var n := |order|;
    var blocks', order' := Linked(blocks, tailBlock, x), order + [x];
    forall i | 0 <= i < n + 1 ensures order'[i] < |blocks| && blocks'[order'[i]].next == order'[After(i, n + 1)] {
      if i == n {
        if n > 0 { assert After(n - 1, n) == 0 && blocks[order[n - 1]].next == order[0]; }
      } else if i == n - 1 {
        assert order[i] == tailBlock.value && blocks'[order[i]].next == x;
      } else {
        assert order[i] != x && order[i] != tailBlock.value && blocks'[order[i]] == blocks[order[i]];
        assert blocks[order[i]].next == order[After(i, n)] == order[i + 1];
      }
    }
  }

  // ---------------------------------------------------------------- the index

  /** The slot d places before the next one. */
  function Back(next: nat, d: nat, size: nat): (s: nat)
    requires next < size && 0 < d <= size
    ensures s < size
  {
    if d <= next then next - d else next + size - d
  }

  function Step(next: nat, size: nat): nat { if next + 1 == size then 0 else next + 1 }

  lemma BackStep(next: nat, d: nat, size: nat)
    requires next < size && 0 < d < size
    ensures Back(Step(next, size), d + 1, size) == Back(next, d, size) != next
  {}

  /** The blocks of the list are in consecutive slots, with consecutive bases; p is the number after the last one. */
  ghost predicate Indexed(entries: seq<Entry>, next: nat, order: seq<BlockId>, p: nat, b: nat) {
    && |order| <= |entries| && |order| <= p && next < |entries|
    && forall i | 0 <= i < |order| :: entries[Back(next, |order| - i, |entries|)] == Entry(Img(Base(p - |order| + i, b)), order[i])
  }

  /** Overwriting the entry of the block that is used again. */
  lemma RotateIndexed(entries: seq<Entry>, next: nat, order: seq<BlockId>, p: nat, b: nat)
    requires Indexed(entries, next, order, p, b) && order != []
    ensures Indexed(entries[next := Entry(Img(Base(p, b)), order[0])], Step(next, |entries|), Rotate(order), p + 1, b)
  {
    hide Base;
    var n, size, r := |order|, |entries|, Rotate(order);
    var entries', next' := entries[next := Entry(Img(Base(p, b)), order[0])], Step(next, size);
    forall i | 0 <= i < n ensures entries'[Back(next', n - i, size)] == Entry(Img(Base(p + 1 - n + i, b)), r[i]) {
      if i < n - 1 {
        BackStep(next, n - i - 1, size);
        assert entries[Back(next, n - (i + 1), size)] == Entry(Img(Base(p - n + (i + 1), b)), order[i + 1]);
      }
    }
  }

  lemma InsertIndexed(entries: seq<Entry>, next: nat, order: seq<BlockId>, x: BlockId, p: nat, b: nat)
    requires Indexed(entries, next, order, p, b) && |order| < |entries|
    ensures Indexed(entries[next := Entry(Img(Base(p, b)), x)], Step(next, |entries|), order + [x], p + 1, b)
  {
    hide Base;
    var n, size, r := |order|, |entries|, order + [x];
    var entries', next' := entries[next := Entry(Img(Base(p, b)), x)], Step(next, size);
    forall i | 0 <= i < n + 1 ensures entries'[Back(next', n + 1 - i, size)] == Entry(Img(Base(p - n + i, b)), r[i]) {
      if i < n {
        BackStep(next, n - i, size);
        assert entries[Back(next, n - i, size)] == Entry(Img(Base(p - n + i, b)), order[i]);
      }
    }
  }

  /** new_block_index: the entries in order, in an index of any larger size. */
  lemma CopyIndexed(entries: seq<Entry>, next: nat, order: seq<BlockId>, p: nat, b: nat, entries': seq<Entry>)
    requires Indexed(entries, next, order, p, b) && |order| < |entries'|
    requires forall j | 0 <= j < |order| :: entries'[j] == entries[Back(next, |order| - j, |entries|)]
    ensures Indexed(entries', |order|, order, p, b)
  {
    hide Base;
    forall i | 0 <= i < |order| ensures entries'[Back(|order|, |order| - i, |entries'|)] == Entry(Img(Base(p - |order| + i, b)), order[i]) {
      assert Back(|order|, |order| - i, |entries'|) == i;
      assert entries[Back(next, |order| - i, |entries|)] == Entry(Img(Base(p - |order| + i, b)), order[i]);
    }
  }

  /** The lookup of a consumer finds the block of its index. */
  lemma LookupHolds(entries: seq<Entry>, next: nat, order: seq<BlockId>, p: nat, k: nat, c: nat, i: nat)
    requires Indexed(entries, next, order, p, Pow2(k)) && k + c <= 64 && |entries| == Pow2(c)
    requires p - |order| <= Blk(i, Pow2(k)) < p
    ensures var front, m := Back(next, 1, |entries|), Blk(i, Pow2(k)); var slot := Slot(front, entries[front].base, Img(i), k, c);
            && slot == Back(next, p - m, |entries|) && entries[slot].block == order[m - (p - |order|)]
  {
    hide Base, Blk, Slot, Img, Indexed, Pow2, Back;
    var b, n := Pow2(k), |order|;
    EntryOf(entries, next, order, p, b, n - 1);
    var front, m := Back(next, 1, |entries|), Blk(i, b);
    BaseTimes(p - 1, b);
    SlotIsDistance(k, c, front, p - 1, i);
    BlkPos(i, b);
    BackFrom(next, p - m, Pow2(c));
    EntryOf(entries, next, order, p, b, m - (p - n));
  }

  lemma EntryOf(entries: seq<Entry>, next: nat, order: seq<BlockId>, p: nat, b: nat, i: nat)
    requires Indexed(entries, next, order, p, b) && i < |order|
    ensures next < |entries| && |order| <= |entries| && |order| <= p
    ensures entries[Back(next, |order| - i, |entries|)] == Entry(Img(Base(p - |order| + i, b)), order[i])
  {}

  lemma BackFrom(next: nat, d: nat, size: nat)
    requires next < size && 0 < d <= size
    ensures (Back(next, 1, size) - (d - 1)) % size == Back(next, d, size)
  {
    var front, e := Back(next, 1, size), d - 1;
    if e <= front { DivModUnique(front - e, size, 0, front - e); } else { DivModUnique(front - e, size, -1, front - e + size); }
  }

  lemma MaskStep(next: nat, c: nat)
    requires next < Pow2(c)
    ensures And(next + 1, Pow2(c) - 1) == Step(next, Pow2(c))
  {
    AndMask(next + 1, c);
    if next + 1 == Pow2(c) { DivModUnique(next + 1, Pow2(c), 1, 0); } else { DivModUnique(next + 1, Pow2(c), 0, next + 1); }
  }

  lemma MaskBack(next: nat, d: nat, c: nat)
    requires next < Pow2(c) && 0 < d <= Pow2(c) && c <= 64
    ensures And(Sub(next, d), Pow2(c) - 1) == Back(next, d, Pow2(c))
  {
    WordIsPow2();
    Pow2Sum(c, 64 - c);
    var size := Pow2(c);
    AndMask(Sub(next, d), c);
    ModTwice(next - d, size, Pow2(64 - c));
    if d <= next { DivModUnique(next - d, size, 0, next - d); } else { DivModUnique(next - d, size, -1, next - d + size); }
  }

  // ---------------------------------------------------------------- empty flags and elements

  /** The flags of block m: those of dequeued elements, in reverse order; all of a block that is only prepared, from number q on. */
  ghost predicate FlagsOf(flags: seq<bool>, m: nat, q: nat, head: nat, b: nat) {
    |flags| == b && forall t | 0 <= t < b :: flags[t] <==> m >= q || Base(m, b) + (b - 1 - t) < head
  }

  ghost predicate Flagged(blocks: seq<Block>, order: seq<BlockId>, p: nat, q: nat, head: nat, b: nat) {
    |order| <= p && forall i | 0 <= i < |order| :: order[i] < |blocks| && FlagsOf(blocks[order[i]].emptyFlags, p - |order| + i, q, head, b)
  }

  ghost predicate AllSet(flags: seq<bool>) { forall t | 0 <= t < |flags| :: flags[t] }

  ghost predicate Sized(blocks: seq<Block>, b: nat) { forall x | 0 <= x < |blocks| :: |blocks[x].cells| == b && |blocks[x].emptyFlags| == b }

  ghost predicate CellIs(blocks: seq<Block>, order: seq<BlockId>, p: nat, b: nat, i: nat, v: Value)
    requires b > 0
  {
    && |order| <= p && p - |order| <= Blk(i, b) < p
    && var x := order[Blk(i, b) - (p - |order|)]; x < |blocks| && Pos(i, b) < |blocks[x].cells| && blocks[x].cells[Pos(i, b)] == Some(v)
  }

  /** The elements from head on are in their cells. */
  ghost predicate Content(blocks: seq<Block>, order: seq<BlockId>, p: nat, head: nat, log: seq<Value>, b: nat)
    requires b > 0
  {
    forall i: nat | head <= i < |log| :: CellIs(blocks, order, p, b, i, log[i])
  }

  /** The oldest block, if it is empty, holds nothing that is still to be dequeued. */
  lemma OldestDone(blocks: seq<Block>, order: seq<BlockId>, p: nat, q: nat, head: nat, b: nat)
    requires b > 0 && Flagged(blocks, order, p, q, head, b) && order != [] && p - |order| < q && AllSet(blocks[order[0]].emptyFlags)
    ensures Base(p - |order|, b) + b <= head
  {
    hide Base;
    assert FlagsOf(blocks[order[0]].emptyFlags, p - |order|, q, head, b);
    assert blocks[order[0]].emptyFlags[0];
  }

  lemma RotateFlagged(blocks: seq<Block>, order: seq<BlockId>, p: nat, q: nat, head: nat, b: nat)
    requires Flagged(blocks, order, p, q, head, b) && order != [] && q <= p && AllSet(blocks[order[0]].emptyFlags)
    ensures Flagged(blocks, Rotate(order), p + 1, q, head, b)
  {
    hide Base;
    var n, r := |order|, Rotate(order);
    forall i | 0 <= i < n ensures r[i] < |blocks| && FlagsOf(blocks[r[i]].emptyFlags, p + 1 - n + i, q, head, b) {
      assert r[i] == order[After(i, n)];
      assert FlagsOf(blocks[order[After(i, n)]].emptyFlags, p - n + After(i, n), q, head, b);
    }
  }

  lemma RotateContent(blocks: seq<Block>, order: seq<BlockId>, p: nat, head: nat, log: seq<Value>, b: nat)
    requires b > 0 && Content(blocks, order, p, head, log, b) && order != [] && |order| <= p && Base(p - |order|, b) + b <= head
    ensures Content(blocks, Rotate(order), p + 1, head, log, b)
  {
    hide Base, Blk, Pos;
    forall i: nat | head <= i < |log| ensures CellIs(blocks, Rotate(order), p + 1, b, i, log[i]) {
      assert CellIs(blocks, order, p, b, i, log[i]);
      InBlock(i, p - |order|, b);
    }
  }

  /** Nothing but links has changed, and the flags of x. */
  ghost predicate SameBut(blocks: seq<Block>, blocks': seq<Block>, x: BlockId) {
    && |blocks'| == |blocks|
    && (forall y | 0 <= y < |blocks| :: blocks'[y].cells == blocks[y].cells)
    && (forall y | 0 <= y < |blocks| && y != x :: blocks'[y].emptyFlags == blocks[y].emptyFlags)
  }

  lemma InsertFlagged(blocks: seq<Block>, blocks': seq<Block>, order: seq<BlockId>, x: BlockId, p: nat, q: nat, q': nat, head: nat, b: nat)
    requires Flagged(blocks, order, p, q, head, b) && SameBut(blocks, blocks', x) && x !in order && x < |blocks| && q <= q' && (q' == q || q == p)
    requires FlagsOf(blocks'[x].emptyFlags, p, q', head, b)
    ensures Flagged(blocks', order + [x], p + 1, q', head, b)
  {
    hide Base;
    var n, r := |order|, order + [x];
    forall i | 0 <= i < n + 1 ensures r[i] < |blocks'| && FlagsOf(blocks'[r[i]].emptyFlags, p - n + i, q', head, b) {
      if i < n { assert order[i] in order && FlagsOf(blocks[order[i]].emptyFlags, p - n + i, q, head, b); }
    }
  }

  lemma InsertContent(blocks: seq<Block>, blocks': seq<Block>, order: seq<BlockId>, x: BlockId, p: nat, head: nat, log: seq<Value>, b: nat)
    requires b > 0 && Content(blocks, order, p, head, log, b) && SameBut(blocks, blocks', x)
    ensures Content(blocks', order + [x], p + 1, head, log, b)
  {
    hide Blk, Pos;
    forall i: nat | head <= i < |log| ensures CellIs(blocks', order + [x], p + 1, b, i, log[i]) { assert CellIs(blocks, order, p, b, i, log[i]); }
  }

  lemma KeptContent(blocks: seq<Block>, blocks': seq<Block>, order: seq<BlockId>, p: nat, head: nat, log: seq<Value>, b: nat, x: BlockId)
    requires b > 0 && Content(blocks, order, p, head, log, b) && SameBut(blocks, blocks', x)
    ensures Content(blocks', order, p, head, log, b)
  {
    hide Blk, Pos;
    forall i: nat | head <= i < |log| ensures CellIs(blocks', order, p, b, i, log[i]) { assert CellIs(blocks, order, p, b, i, log[i]); }
  }

  /** Flags that are all clear are those of a block that starts at or after the head. */
  lemma FreshFlags(flags: seq<bool>, m: nat, head: nat, b: nat)
    requires |flags| == b && head <= Base(m, b) && forall t | 0 <= t < b :: !flags[t]
    ensures FlagsOf(flags, m, m + 1, head, b)
  {}

  lemma PreparedFlags(flags: seq<bool>, m: nat, q: nat, head: nat, b: nat)
    requires |flags| == b && q <= m && forall t | 0 <= t < b :: flags[t]
    ensures FlagsOf(flags, m, q, head, b)
  {}

  /** reset_empty on the first prepared block. */
  lemma ResetFlagged(blocks: seq<Block>, blocks': seq<Block>, order: seq<BlockId>, p: nat, q: nat, head: nat, b: nat, x: BlockId)
    requires Flagged(blocks, order, p, q, head, b) && p - |order| <= q < p && x == order[q - (p - |order|)] && SameBut(blocks, blocks', x)
    requires forall i, j | 0 <= i < j < |order| :: order[i] != order[j]
    requires FlagsOf(blocks'[x].emptyFlags, q, q + 1, head, b)
    ensures Flagged(blocks', order, p, q + 1, head, b)
  {
    hide Base;
    var n := |order|;
    forall i | 0 <= i < n ensures order[i] < |blocks'| && FlagsOf(blocks'[order[i]].emptyFlags, p - n + i, q + 1, head, b) {
      assert FlagsOf(blocks[order[i]].emptyFlags, p - n + i, q, head, b);
      if i != q - (p - n) { assert order[i] != x; }
    }
  }

  // ---------------------------------------------------------------- how much room there is

  /** Of the n blocks before number p, how many are dequeued completely. */
  function Ahead(n: nat, p: nat, head: nat, b: nat): nat
    requires b > 0
  {
    var m := Blk(head, b);
    if m <= p - n then 0 else if m < p then m - (p - n) else n
  }

  lemma AheadIs(n: nat, p: nat, head: nat, b: nat, r: nat)
    requires b > 0 && n <= p && r <= n
    ensures r < Ahead(n, p, head, b) <==> r < n && Base(p - n + r, b) + b <= head
    ensures r == Ahead(n, p, head, b) && head <= Base(p, b) ==> head < Base(p - n + r, b) + b
  {
    hide Blk;
    InBlock(head, p - n + r + 1, b);
    InBlock(head, p - n + r, b);
    InBlock(head, p, b);
    BaseNext(p - n + r, b);
  }

  lemma BaseNext(n: nat, b: nat)
    ensures Base(n + 1, b) == Base(n, b) + b
  {}

  /** A list that grows only when its oldest block is in use and the queue is not full stays within half the index space. */
  lemma RingSmall(k: nat, n: nat, p: nat, head: nat)
    requires k <= 63 && n <= p && head < Base(p - n, Pow2(k)) + Pow2(k) && Base(p + 1, Pow2(k)) - head < HALF
    ensures Base(n + 1, Pow2(k)) <= HALF
  {
    hide Pow2, Base;
    var b := Pow2(k);
    BaseSum(n, p, b);
    BaseTimes(n, b);
    BaseNext(n, b);
    HalfBlocks(k, n);
  }

  lemma BaseSum(n: nat, p: nat, b: nat)
    requires n <= p
    ensures Base(p + 1, b) == Base(p - n, b) + Base(n, b) + b
  {
    hide Base;
    BaseTimes(p + 1, b);
    BaseTimes(p - n, b);
    BaseTimes(n, b);
    Minus(p + 1, p - n, b);
  }

  /** Half the index space is a number of blocks. */
  lemma HalfBlocks(k: nat, n: nat)
    requires k <= 63 && n * Pow2(k) < HALF
    ensures n * Pow2(k) + Pow2(k) <= HALF
  {
    hide Pow2;
    WordIsPow2();
    Pow2Sum(63 - k, k);
    Multiples(n, Pow2(63 - k), Pow2(k));
  }

  lemma Multiples(n: nat, m: nat, b: nat)
    ensures n * b < m * b ==> n * b + b <= m * b
  {
    if n >= m { AtLeast(n, m, b); } else { AtLeast(m, n + 1, b); }
  }

  /** So its index can always grow, and the test for a full queue is exact. */
  lemma RingFacts(k: nat, c: nat, n: nat, p: nat, head: nat)
    requires k <= 63 && n <= p && Base(n, Pow2(k)) <= HALF && Base(p - n, Pow2(k)) <= head <= Base(p, Pow2(k))
    ensures n == Pow2(c) ==> k + c < 64
    ensures CircularLess(Img(head), Img(Base(p, Pow2(k)) + Pow2(k))) <==> Base(p + 1, Pow2(k)) - head < HALF
  {
    hide CircularLess, Img, Pow2;
    WordIsPow2();
    var b := Pow2(k);
    if k < 63 { Pow2Less(k, 63); }
    Pow2Sum(c, k);
    BaseTimes(n, b);
    BaseTimes(p, b);
    BaseTimes(p - n, b);
    Minus(p, p - n, b);
    if k + c >= 64 { Pow2Less(63, k + c); }
    CircularLessExact(head, Base(p, b) + b);
    var d := Base(p, b) + b - head;
    if d < WORD { DivModUnique(d, WORD, 0, d); } else { DivModUnique(d, WORD, 1, 0); }
  }

  /** What holds when a block after number p + m - 1 is wanted, the oldest one not being empty. */
  lemma WantedBlock(k: nat, c: nat, n: nat, p: nat, m: nat, need: nat, head: nat)
    requires k <= 63 && m < need && n <= p + m && Base(n, Pow2(k)) <= HALF && Base(p + m - n, Pow2(k)) <= head <= Base(p, Pow2(k))
    requires head < Base(p + m - n, Pow2(k)) + Pow2(k)
    ensures var b := Pow2(k);
            && Base(need - m, b) - b == Base(need - m - 1, b) && Base(p + m + 1, b) == Base(p + m, b) + b <= Base(p + need, b)
            && (CircularLess(Img(head), Img(Base(p + m, b) + b)) <==> Base(p + m + 1, b) - head < HALF)
            && (n == Pow2(c) ==> k + c < 64) && (Base(p + m + 1, b) - head < HALF ==> Base(n + 1, b) <= HALF)
  {
    hide Base, Pow2, CircularLess, Img;
    var b := Pow2(k);
    BaseNext(need - m - 1, b);
    BaseNext(p + m, b);
    BaseUpTo(p, p + m, b);
    BaseUpTo(p + m + 1, p + need, b);
    RingFacts(k, c, n, p + m, head);
    if Base(p + m + 1, b) - head < HALF { RingSmall(k, n, p + m, head); }
  }

  /** The next `need` blocks are found ahead, or the last one ends less than 2^63 after the head. */
  predicate NotFull(n: nat, p: nat, head: nat, b: nat, need: nat)
    requires b > 0
  {
    need <= Ahead(n, p, head, b) || Base(p + need, b) - head < HALF
  }

  // ---------------------------------------------------------------- writing and reading

  function SetCell(blocks: seq<Block>, x: BlockId, pos: nat, v: Option<Value>): seq<Block>
    requires x < |blocks| && pos < |blocks[x].cells|
  {
    blocks[x := blocks[x].(cells := blocks[x].cells[pos := v])]
  }

  /** Only elements have been written. */
  ghost predicate OnlyCells(blocks: seq<Block>, blocks': seq<Block>) {
    && |blocks'| == |blocks|
    && forall y | 0 <= y < |blocks| :: blocks'[y] == blocks[y].(cells := blocks'[y].cells) && |blocks'[y].cells| == |blocks[y].cells|
  }

  ghost predicate Apart(order: seq<BlockId>) { forall i, j | 0 <= i < j < |order| :: order[i] != order[j] }

  /** Where index i is. */
  ghost predicate Place(blocks: seq<Block>, order: seq<BlockId>, p: nat, b: nat, i: nat, x: BlockId)
    requires b > 0
  {
    |order| <= p && p - |order| <= Blk(i, b) < p && x == order[Blk(i, b) - (p - |order|)] && x < |blocks|
  }

  lemma OtherCell(blocks: seq<Block>, order: seq<BlockId>, p: nat, b: nat, i: nat, x: BlockId, v: Option<Value>, j: nat, w: Value)
    requires b > 0 && i != j && Apart(order) && Place(blocks, order, p, b, i, x) && Pos(i, b) < |blocks[x].cells| && CellIs(blocks, order, p, b, j, w)
    ensures CellIs(SetCell(blocks, x, Pos(i, b), v), order, p, b, j, w)
  {
    BlkPos(i, b);
    BlkPos(j, b);
    hide Blk, Pos;
  }

  lemma WriteContent(blocks: seq<Block>, order: seq<BlockId>, p: nat, head: nat, before: seq<Value>, v: Value, b: nat, x: BlockId)
    requires b > 0 && Content(blocks, order, p, head, before, b) && Sized(blocks, b) && Apart(order) && Place(blocks, order, p, b, |before|, x)
    ensures Pos(|before|, b) < |blocks[x].cells|
    ensures Content(SetCell(blocks, x, Pos(|before|, b), Some(v)), order, p, head, before + [v], b)
    ensures OnlyCells(blocks, SetCell(blocks, x, Pos(|before|, b), Some(v)))
  {
    hide Blk, Pos;
    var i := |before|;
    PosIn(i, b);
    forall j: nat | head <= j < i ensures CellIs(SetCell(blocks, x, Pos(i, b), Some(v)), order, p, b, j, (before + [v])[j]) {
      OtherCell(blocks, order, p, b, i, x, Some(v), j, before[j]);
    }
  }

  lemma TakeContent(blocks: seq<Block>, order: seq<BlockId>, p: nat, i: nat, log: seq<Value>, b: nat)
    requires b > 0 && Content(blocks, order, p, i, log, b) && Apart(order) && i < |log|
    ensures CellIs(blocks, order, p, b, i, log[i])
    ensures var x := order[Blk(i, b) - (p - |order|)];
            Content(SetCell(blocks, x, Pos(i, b), None), order, p, i + 1, log, b) && OnlyCells(blocks, SetCell(blocks, x, Pos(i, b), None))
  {
    hide Blk, Pos;
    assert CellIs(blocks, order, p, b, i, log[i]);
    var x := order[Blk(i, b) - (p - |order|)];
    forall j: nat | i + 1 <= j < |log| ensures CellIs(SetCell(blocks, x, Pos(i, b), None), order, p, b, j, log[j]) {
      OtherCell(blocks, order, p, b, i, x, None, j, log[j]);
    }
  }

  lemma CellsKeep(blocks: seq<Block>, blocks': seq<Block>, order: seq<BlockId>, free: seq<BlockId>, p: nat, q: nat, head: nat, b: nat)
    requires Ring(blocks, order) && Flagged(blocks, order, p, q, head, b) && Sized(blocks, b) && OnlyCells(blocks, blocks')
    ensures Ring(blocks', order) && Flagged(blocks', order, p, q, head, b) && Sized(blocks', b)
  {
    hide FlagsOf;
  }

  /** The flags from `from` to `to` are stored. */
  function Filled(flags: seq<bool>, from: nat, to: nat, v: bool): (r: seq<bool>)
    requires from <= to <= |flags|
    ensures |r| == |flags|
  {
    seq(|flags|, t requires 0 <= t < |flags| => if from <= t < to then v else flags[t])
  }

  /** The flags that set_many_empty stores for the elements from `head` to `stop` of one block are those that were missing. */
  lemma TakenFlags(flags: seq<bool>, m: nat, q: nat, head: nat, stop: nat, b: nat)
    requires b > 0 && FlagsOf(flags, m, q, head, b) && m < q && Base(m, b) <= head <= stop <= Base(m, b) + b
    ensures var from, to := b - (stop - Base(m, b)), b - (head - Base(m, b));
            && (forall t | from <= t < to :: !flags[t])
            && FlagsOf(Filled(flags, from, to, true), m, q, stop, b)
  {
    hide Base;
  }

  lemma TakenFlagged(blocks: seq<Block>, blocks': seq<Block>, order: seq<BlockId>, p: nat, head: nat, stop: nat, b: nat, m: nat)
    requires b > 0 && Flagged(blocks, order, p, p, head, b) && Apart(order) && p - |order| <= m < p && SameBut(blocks, blocks', order[m - (p - |order|)])
    requires FlagsOf(blocks'[order[m - (p - |order|)]].emptyFlags, m, p, stop, b) && Base(m, b) <= head <= stop <= Base(m, b) + b
    ensures Flagged(blocks', order, p, p, stop, b)
  {
    hide Base;
    var n := |order|;
    forall i | 0 <= i < n ensures order[i] < |blocks'| && FlagsOf(blocks'[order[i]].emptyFlags, p - n + i, p, stop, b) {
      assert FlagsOf(blocks[order[i]].emptyFlags, p - n + i, p, head, b);
      var l := p - n + i;
      if l < m { BaseMonotone(l, m, b); }
      if m < l { BaseMonotone(m, l, b); }
    }
  }

  // ---------------------------------------------------------------- the producer

  class ExplicitProducer {
    const k: nat              // blocks hold 2^k elements
    var blocks: seq<Block>    // memory
    var free: seq<BlockId>    // the pool
    var entries: seq<Entry>   // the block index: 2^c entries
    var c: nat
    var front: nat            // the header's front
    var slotsUsed: nat        // pr_blockIndexSlotsUsed
    var nextSlot: nat         // pr_blockIndexFront
    var tailBlock: Option<BlockId>
    var tailIndex: nat
    var headIndex: nat
    var opt: nat              // dequeueOptimisticCount
    var over: nat             // dequeueOvercommit
    const malloc: nat -> bool // whether the i-th allocation succeeds
    var calls: nat            // how many there have been
    ghost var order: seq<BlockId>
    ghost var log: seq<Value>

    /** An empty queue with an index of 2^c entries and a pool of `size` blocks. */
    constructor (k: nat, c: nat, size: nat, malloc: nat -> bool)
      requires k + c <= 64 && k <= 63
      ensures Valid() && Contents() == [] && this.k == k && |blocks| == |free| == size && |entries| == Pow2(c) && this.malloc == malloc
    {
      this.k, this.c, this.malloc, calls := k, c, malloc, 0;
      blocks := seq(size, _ => Block(seq(Pow2(k), _ => None), seq(Pow2(k), _ => false), 0));
      free := seq(size, i requires 0 <= i < size => i);
      entries := seq(Pow2(c), _ => Entry(0, 0));
      front, slotsUsed, nextSlot, tailBlock := Sub(0, 1), 0, 0, None;
      tailIndex, headIndex, opt, over := 0, 0, 0, 0;
      order, log := [], [];
    }

    ghost function Contents(): seq<Value>
      reads `log, `headIndex
    {
      if headIndex <= |log| then log[headIndex..] else []
    }

    /** The list and the index, with p blocks begun, of which those from number q on are not yet published, and all before `head` dequeued. */
    ghost predicate Core(p: nat, q: nat, head: nat)
      reads `blocks, `free, `entries, `c, `slotsUsed, `nextSlot, `order
    {
      && k + c <= 64 && |entries| == Pow2(c) && slotsUsed == |order| && q <= p && head <= Base(q, Pow2(k))
      && Parts(|blocks|, order, free) && Ring(blocks, order) && Sized(blocks, Pow2(k))
      && Indexed(entries, nextSlot, order, p, Pow2(k)) && Flagged(blocks, order, p, q, head, Pow2(k)) && Base(p - |order|, Pow2(k)) <= head
      && k <= 63 && Base(|order|, Pow2(k)) <= HALF
    }

    ghost predicate Built(p: nat, q: nat)
      reads `blocks, `free, `entries, `c, `slotsUsed, `nextSlot, `tailBlock, `headIndex, `order, `log
    {
      Core(p, q, headIndex) && TailIs(tailBlock, order) && Content(blocks, order, p, headIndex, log, Pow2(k))
    }

    ghost function Published(): nat
      reads `tailIndex
    {
      Blocks(tailIndex, Pow2(k))
    }

    ghost predicate Valid()
      reads this
    {
      && Built(Published(), Published()) && (order != [] ==> front == Back(nextSlot, 1, |entries|))
      && (tailIndex > 0 ==> order != []) && headIndex <= tailIndex == |log| && opt == over + headIndex
    }

    /** n more elements take no allocation: their blocks are found ahead, or in the pool, with slots of the index for them. */
    ghost predicate Room(n: nat)
      reads `free, `entries, `order, `headIndex, `tailIndex
    {
      var need := Missing(tailIndex, n, Pow2(k));
      var ahead := Ahead(|order|, Published(), headIndex, Pow2(k));
      need <= ahead || (need - ahead <= |free| && |order| + need - ahead <= |entries|)
    }

    /** How many calls of malloc it takes to enqueue n more elements: the blocks ahead are used again. */
    ghost function Needed(n: nat): nat
      reads `free, `entries, `order, `headIndex, `tailIndex
    {
      var need := Missing(tailIndex, n, Pow2(k));
      var ahead := Ahead(|order|, Published(), headIndex, Pow2(k));
      Demand(|entries|, |free|, |order|, if need <= ahead then 0 else need - ahead)
    }

    lemma RoomExactly(n: nat)
      ensures Room(n) <==> Needed(n) == 0
    {
      var need := Missing(tailIndex, n, Pow2(k));
      var ahead := Ahead(|order|, Published(), headIndex, Pow2(k));
      NoDemand(|entries|, |free|, |order|, if need <= ahead then 0 else need - ahead);
    }

    // ---- flags

    /** is_empty */
    method IsEmpty(x: BlockId) returns (e: bool)
      requires x < |blocks|
      ensures e <==> AllSet(blocks[x].emptyFlags)
    {
      var flags := blocks[x].emptyFlags;
      for i := 0 to |flags|
        invariant forall t | 0 <= t < i :: flags[t]
      {
        if !flags[i] { return false; }
      }
      return true;
    }

    /** The loops of reset_empty, set_all_empty and set_many_empty. */
    method StoreFlags(x: BlockId, from: nat, stop: nat, v: bool)
      requires x < |blocks| && from <= stop <= |blocks[x].emptyFlags|
      modifies `blocks
      ensures blocks == old(blocks)[x := old(blocks)[x].(emptyFlags := Filled(old(blocks)[x].emptyFlags, from, stop, v))]
    {
      ghost var flags := blocks[x].emptyFlags;
      assert Filled(flags, from, from, v) == flags;
      var i := from;
      while i != stop
        invariant from <= i <= stop && |blocks| == |old(blocks)|
        invariant blocks[x] == old(blocks)[x].(emptyFlags := Filled(flags, from, i, v))
        invariant forall y | 0 <= y < |blocks| && y != x :: blocks[y] == old(blocks)[y]
        decreases stop - i
      {
        assert Filled(flags, from, i, v)[i := v] == Filled(flags, from, i + 1, v);
        blocks := blocks[x := blocks[x].(emptyFlags := blocks[x].emptyFlags[i := v])];
        i := i + 1;
      }
    }

    // ---- the next block

    /** The next entry of the index is for block number p. */
    method PutEntry(x: BlockId, ghost p: nat, base: nat)
      requires nextSlot < |entries| == Pow2(c) && base == Base(p, Pow2(k))
      modifies `entries, `nextSlot
      ensures entries == old(entries)[old(nextSlot) := Entry(Img(Base(p, Pow2(k))), x)] && nextSlot == Step(old(nextSlot), |entries|)
    {
      MaskStep(nextSlot, c);
      entries := entries[nextSlot := Entry(Img(base), x)];
      nextSlot := And(nextSlot + 1, |entries| - 1);
    }

    /** The empty block ahead of the tail is used again, as block number p. */
    method ReuseNext(ghost p: nat, ghost q: nat, base: nat)
      requires Built(p, q) && order != [] && AllSet(blocks[order[0]].emptyFlags) && p - |order| < q && base == Base(p, Pow2(k))
      modifies `entries, `nextSlot, `tailBlock, `order
      ensures Built(p + 1, q) && order == Rotate(old(order))
      ensures old(nextSlot) < |entries| == |old(entries)| && nextSlot == Step(old(nextSlot), |entries|)
    {
      hide Ring, Rotate, Sized, Indexed, Flagged, Content, Pow2, Base, AllSet;
      var b := Pow2(k);
      InSize(entries, nextSlot, order, p, b);
      RotateRing(blocks, order, free);
      OldestDone(blocks, order, p, q, headIndex, b);
      BaseNext(p - |order|, b);
      RotateFlagged(blocks, order, p, q, headIndex, b);
      RotateContent(blocks, order, p, headIndex, log, b);
      RotateIndexed(entries, nextSlot, order, p, b);
      tailBlock := Some(blocks[tailBlock.value].next);
      PutEntry(tailBlock.value, p, base);
      order := Rotate(order);
    }

    lemma InSize(entries: seq<Entry>, next: nat, order: seq<BlockId>, p: nat, b: nat)
      requires Indexed(entries, next, order, p, b)
      ensures next < |entries| && |order| <= |entries| && |order| <= p
    {}

    /** reset_empty on the first block that is not yet published. */
    method ResetBlock(x: BlockId, ghost p: nat, ghost q: nat)
      requires Built(p, q) && p - |order| <= q < p && x == order[q - (p - |order|)]
      modifies `blocks
      ensures Built(p, q + 1) && |blocks| == |old(blocks)|
    {
      hide Ring, Sized, Indexed, Flagged, Content, Pow2, Filled, Base;
      var b := Pow2(k);
      ghost var was := blocks;
      BaseNext(q, b);
      StoreFlags(x, 0, |blocks[x].emptyFlags|, false);
      FilledAll(was[x].emptyFlags, false);
      SizedSame(was, blocks, x, b);
      FreshFlags(blocks[x].emptyFlags, q, headIndex, b);
      ResetFlagged(was, blocks, order, p, q, headIndex, b, x);
      KeptContent(was, blocks, order, p, headIndex, log, b, x);
      SameLinks(was, blocks, order);
    }

    lemma FilledAll(flags: seq<bool>, v: bool)
      ensures forall t | 0 <= t < |flags| :: Filled(flags, 0, |flags|, v)[t] == v
    {}

    lemma SizedSame(blocks: seq<Block>, blocks': seq<Block>, x: BlockId, b: nat)
      requires Sized(blocks, b) && SameBut(blocks, blocks', x) && (x < |blocks| ==> |blocks'[x].emptyFlags| == |blocks[x].emptyFlags|)
      ensures Sized(blocks', b) && (x < |blocks| ==> |blocks'[x].emptyFlags| == b)
    {}

    lemma SameLinks(blocks: seq<Block>, blocks': seq<Block>, order: seq<BlockId>)
      requires Ring(blocks, order) && |blocks'| == |blocks| && forall y | 0 <= y < |blocks| :: blocks'[y].next == blocks[y].next
      ensures Ring(blocks', order)
    {}

    /** requisition_block<CanAlloc>: a block of the pool, or a new one if there is memory. */
    method Requisition(ghost p: nat, ghost q: nat) returns (ok: bool)
      requires Built(p, q)
      modifies `blocks, `free, `calls
      ensures Built(p, q) && (ok ==> free != []) && (ok <==> Granted(malloc, old(calls), calls))
      ensures if |old(free)| > 0 then free == old(free) && calls == old(calls) else calls == old(calls) + 1 && (ok ==> |free| == 1)
    {
      hide Ring, Sized, Flagged, Content, Base, Pow2, Indexed, Parts;
      if free == [] {
        var memory := malloc(calls);
        calls := calls + 1;
        if !memory { return false; }
        MoreMemory(blocks, order, p, q, headIndex, log, Pow2(k), Block(seq(Pow2(k), _ => None), seq(Pow2(k), _ => false), 0));
        free := [|blocks|];
        blocks := blocks + [Block(seq(Pow2(k), _ => None), seq(Pow2(k), _ => false), 0)];
      }
      ok := true;
    }

    lemma MoreMemory(blocks: seq<Block>, order: seq<BlockId>, p: nat, q: nat, head: nat, log: seq<Value>, b: nat, x: Block)
      requires b > 0 && Parts(|blocks|, order, []) && Ring(blocks, order) && Sized(blocks, b) && Flagged(blocks, order, p, q, head, b)
      requires Content(blocks, order, p, head, log, b) && |x.cells| == b == |x.emptyFlags|
      ensures Parts(|blocks| + 1, order, [|blocks|]) && Ring(blocks + [x], order) && Sized(blocks + [x], b) && Flagged(blocks + [x], order, p, q, head, b)
      ensures Content(blocks + [x], order, p, head, log, b)
    {
      hide Blk, Pos, Base, FlagsOf;
      forall i: nat | head <= i < |log| ensures CellIs(blocks + [x], order, p, b, i, log[i]) { assert CellIs(blocks, order, p, b, i, log[i]); }
    }

    /** The free block becomes block number p: set_all_empty in a bulk, reset_empty otherwise. */
    method InsertNew(bulk: bool, ghost p: nat, ghost q: nat, base: nat)
      requires Built(p, q) && |order| < |entries| && (bulk || q == p) && base == Base(p, Pow2(k)) && free != []
      requires Base(|order| + 1, Pow2(k)) <= HALF
      modifies `blocks, `free, `entries, `nextSlot, `slotsUsed, `tailBlock, `order
      ensures free == old(free)[1..]
      ensures Built(p + 1, if bulk then q else q + 1) && order == old(order) + [old(free)[0]]
      ensures old(nextSlot) < |entries| == |old(entries)| && nextSlot == Step(old(nextSlot), |entries|)
    {
      hide Ring, Sized, Indexed, Flagged, Content, Pow2, Filled, Linked, Base, Step, Parts;
      var x := free[0];
      FirstFree(|blocks|, order, free);
      ghost var was := blocks;
      StoreFlags(x, 0, |blocks[x].emptyFlags|, bulk);
      FilledAll(was[x].emptyFlags, bulk);
      SameLinks(was, blocks, order);
      InsertRing(blocks, order, free, tailBlock);
      free := free[1..];
      blocks := Linked(blocks, tailBlock, x);
      InsertedData(was, blocks, order, x, bulk, p, q, headIndex, log, Pow2(k));
      InsertIndexed(entries, nextSlot, order, x, p, Pow2(k));
      InSize(entries, nextSlot, order, p, Pow2(k));
      tailBlock := Some(x);
      slotsUsed := slotsUsed + 1;
      PutEntry(x, p, base);
      order := order + [x];
    }

    lemma InsertedData(blocks: seq<Block>, blocks': seq<Block>, order: seq<BlockId>, x: BlockId, bulk: bool, p: nat, q: nat, head: nat, log: seq<Value>, b: nat)
      requires b > 0 && Flagged(blocks, order, p, q, head, b) && Content(blocks, order, p, head, log, b) && Sized(blocks, b) && head <= Base(q, b)
      requires SameBut(blocks, blocks', x) && x !in order && x < |blocks| && q <= p && (bulk || q == p)
      requires |blocks'[x].emptyFlags| == |blocks[x].emptyFlags| && forall t | 0 <= t < |blocks'[x].emptyFlags| :: blocks'[x].emptyFlags[t] == bulk
      ensures Flagged(blocks', order + [x], p + 1, if bulk then q else q + 1, head, b) && Content(blocks', order + [x], p + 1, head, log, b) && Sized(blocks', b)
      ensures head <= Base(if bulk then q else q + 1, b)
    {
      hide Base, Flagged, Content, Sized;
      SizedSame(blocks, blocks', x, b);
      ghost var q' := if bulk then q else q + 1;
      if bulk { PreparedFlags(blocks'[x].emptyFlags, p, q, head, b); } else { FreshFlags(blocks'[x].emptyFlags, p, head, b); BaseNext(p, b); }
      InsertFlagged(blocks, blocks', order, x, p, q, q', head, b);
      InsertContent(blocks, blocks', order, x, p, head, log, b);
    }


    // ---- a larger index

    /** The copying loop of new_block_index. */
    method CopyEntries(size: nat) returns (copied: array<Entry>, j: nat)
      requires nextSlot < |entries| == Pow2(c) && c < 64 && slotsUsed <= |entries| < size
      ensures fresh(copied) && copied.Length == size && j == slotsUsed
      ensures forall t | 0 <= t < slotsUsed :: copied[t] == entries[Back(nextSlot, slotsUsed - t, |entries|)]
    {
      hide Pow2, And, Sub;
      copied, j := new Entry[size](_ => Entry(0, 0)), 0;
      if slotsUsed != 0 {
        MaskBack(nextSlot, slotsUsed, c);
        var i := And(Sub(nextSlot, slotsUsed), |entries| - 1);
        while true
          invariant j < slotsUsed && i == Back(nextSlot, slotsUsed - j, |entries|)
          invariant forall t | 0 <= t < j :: copied[t] == entries[Back(nextSlot, slotsUsed - t, |entries|)]
          decreases slotsUsed - j
        {
          copied[j] := entries[i];
          j := j + 1;
          MaskStep(i, c);
          i := And(i + 1, |entries| - 1);
          if i == nextSlot { break; }
        }
      }
    }

    /** new_block_index: the same blocks in an index of twice the size. */
    method NewBlockIndex(expose: nat, ghost p: nat, ghost q: nat) returns (ok: bool)
      requires Built(p, q) && k + c < 64
      modifies `entries, `nextSlot, `front, `c, `calls
      ensures Built(p, q) && calls == old(calls) + 1 && ok == malloc(old(calls))
      ensures if ok then |entries| == 2 * |old(entries)| && nextSlot == slotsUsed && (0 < expose <= |old(entries)| ==> front == expose - 1)
              else entries == old(entries) && nextSlot == old(nextSlot) && front == old(front)
    {
      hide Ring, Sized, Flagged, Content, Base, Pow2;
      InSize(entries, nextSlot, order, p, Pow2(k));
      var memory := malloc(calls);
      calls := calls + 1;
      if !memory { return false; }
      IndexGrows(c);
      if 0 < expose <= |entries| { SubOne(expose, c); }
      var copied, j := CopyEntries(2 * |entries|);
      CopyIndexed(entries, nextSlot, order, p, Pow2(k), copied[..]);
      c := c + 1;
      front := Sub(expose, 1);
      entries, nextSlot := copied[..], j;
      ok := true;
    }

    lemma SubOne(n: nat, c: nat)
      requires 0 < n <= Pow2(c) && c < 64
      ensures Sub(n, 1) == n - 1
    {
      WordIsPow2();
      Pow2Less(c, 64);
    }

    lemma IndexGrows(c: nat)
      ensures Pow2(c + 1) == 2 * Pow2(c) && Pow2(c) > 0
    {}

    // ---- enqueue

    /** tailBlock has a cell for the next element. */
    ghost predicate HasRoom()
      reads this
    {
      && Built(Blk(tailIndex, Pow2(k)) + 1, Blk(tailIndex, Pow2(k)) + 1) && order != [] && front == Back(nextSlot, 1, |entries|)
      && headIndex <= tailIndex == |log| && opt == over + headIndex
    }

    lemma BackOne(next: nat, size: nat)
      requires next < size
      ensures Back(Step(next, size), 1, size) == next
    {}

    lemma Facts(p: nat, q: nat)
      requires Built(p, q)
      ensures slotsUsed == |order| <= |entries| == Pow2(c) && c <= 64 && |order| <= p && nextSlot < |entries|
      ensures tailBlock == if order == [] then None else Some(order[|order| - 1])
      ensures order != [] ==> order[|order| - 1] < |blocks| && order[0] < |blocks| && blocks[order[|order| - 1]].next == order[0]
      ensures q <= p && headIndex <= Base(q, Pow2(k)) && Base(p - |order|, Pow2(k)) <= headIndex && k <= 63 && Base(|order|, Pow2(k)) <= HALF
    {
      if order != [] { assert After(|order| - 1, |order|) == 0; }
    }

    /** Whether the oldest block is empty. */
    lemma OldestEmpty(p: nat, q: nat)
      requires Built(p, q) && order != []
      ensures |order| <= p && order[0] < |blocks|
      ensures p - |order| < q ==> (AllSet(blocks[order[0]].emptyFlags) <==> Base(p - |order|, Pow2(k)) + Pow2(k) <= headIndex)
    {
      hide Parts, Ring, Sized, Indexed, Content, Pow2, Base;
      ghost var flags, m, b := blocks[order[0]].emptyFlags, p - |order|, Pow2(k);
      assert FlagsOf(flags, m, q, headIndex, b);
      if m < q && AllSet(flags) { assert flags[0]; }
    }

    /** The first half of enqueue at a block boundary. */
    method StartBlock() returns (ok: bool)
      requires Valid() && Pos(tailIndex, Pow2(k)) == 0
      modifies `blocks, `free, `entries, `c, `front, `slotsUsed, `nextSlot, `tailBlock, `order, `calls
      ensures if ok then HasRoom() else Valid()
      ensures ok <==> NotFull(|old(order)|, Published(), headIndex, Pow2(k), 1) && Granted(malloc, old(calls), old(calls) + old(Needed(1)))
      ensures ok <==> NotFull(|old(order)|, Published(), headIndex, Pow2(k), 1) && Granted(malloc, old(calls), calls)
      ensures old(calls) <= calls <= old(calls) + old(Needed(1)) && (ok ==> calls == old(calls) + old(Needed(1)))
    {
      hide ExplicitProducer.Built, ExplicitProducer.Needed, Base, Pow2, Blocks, Blk, Pos, AllSet, Rotate, Ahead, CircularLess, Img, Back, Step;
      OneNeeded();
      ghost var p, n, b := Published(), |order|, Pow2(k);
      PosIn(tailIndex, Pow2(k));
      BlocksAt(tailIndex, Pow2(k));
      Facts(p, p);
      AheadIs(n, p, headIndex, b, 0);
      RingFacts(k, c, n, p, headIndex);
      var ahead := false;
      if tailBlock != None {
        OldestEmpty(p, p);
        ahead := IsEmpty(blocks[tailBlock.value].next);
      }
      if ahead {
        StartAhead();
        ok := true;
      } else {
        if !CircularLess(Img(headIndex), Img(tailIndex + Pow2(k))) { return false; }
        ok := NewBlock(slotsUsed, p, p);
        if !ok { return; }
        RingSmall(k, n, p, headIndex);
        StartNew();
      }
    }

    /** At a block boundary one block is needed. */
    lemma OneNeeded()
      requires Valid() && Pos(tailIndex, Pow2(k)) == 0
      ensures Missing(tailIndex, 1, Pow2(k)) == 1
      ensures Needed(1) == if Ahead(|order|, Published(), headIndex, Pow2(k)) > 0 then 0 else DemandOne(|entries|, |free|, |order|)
    {
      hide ExplicitProducer.Built, Ahead, Blocks, Blk, Pos, Pow2;
      OneMoreBlock(tailIndex, Pow2(k));
      BlocksAt(tailIndex, Pow2(k));
      DemandFirst(|entries|, |free|, |order|, 1);
      DemandNext(|entries|, |free|, |order|, 0);
    }

    /** The empty block ahead is used again. */
    method StartAhead()
      requires Valid() && Pos(tailIndex, Pow2(k)) == 0 && order != [] && AllSet(blocks[order[0]].emptyFlags)
      modifies `blocks, `entries, `front, `nextSlot, `tailBlock, `order
      ensures HasRoom()
    {
      hide ExplicitProducer.Built, Base, Pow2, Blocks, Blk, Pos, AllSet, Rotate;
      ghost var p := Published();
      PosIn(tailIndex, Pow2(k));
      BlocksAt(tailIndex, Pow2(k));
      Facts(p, p);
      var slot := nextSlot;
      ReuseNext(p, p, tailIndex);
      Facts(p + 1, p);
      ResetBlock(tailBlock.value, p + 1, p);
      BackOne(slot, |entries|);
      front := slot;
    }

    /** The free block is used. */
    method StartNew()
      requires Valid() && Pos(tailIndex, Pow2(k)) == 0 && free != [] && |order| < |entries| && Base(|order| + 1, Pow2(k)) <= HALF
      modifies `blocks, `free, `entries, `front, `slotsUsed, `nextSlot, `tailBlock, `order
      ensures HasRoom()
    {
      hide ExplicitProducer.Built, Base, Pow2, Blocks, Blk, Pos;
      ghost var p := Published();
      PosIn(tailIndex, Pow2(k));
      BlocksAt(tailIndex, Pow2(k));
      var slot := nextSlot;
      InsertNew(false, p, p, tailIndex);
      BackOne(slot, |entries|);
      front := slot;
    }

    /** A slot of the index and a block of the pool; a larger index exposes the first `expose` slots. */
    method NewBlock(expose: nat, ghost p: nat, ghost q: nat) returns (ok: bool)
      requires Built(p, q) && (|order| == Pow2(c) ==> k + c < 64)
      modifies `blocks, `free, `entries, `c, `front, `nextSlot, `calls
      ensures Built(p, q) && (ok ==> |order| < |entries| && |free| == if |old(free)| > 0 then |old(free)| else 1)
      ensures var d := DemandOne(|old(entries)|, |old(free)|, |order|);
              && (ok <==> Granted(malloc, old(calls), old(calls) + d)) && (ok <==> Granted(malloc, old(calls), calls))
              && old(calls) <= calls <= old(calls) + d && (ok ==> calls == old(calls) + d)
      ensures |entries| >= |old(entries)| && (ok ==> |entries| == if |order| < |old(entries)| then |old(entries)| else 2 * |old(entries)|)
      ensures |entries| == |old(entries)| ==> front == old(front) && nextSlot == old(nextSlot)
      ensures |entries| != |old(entries)| ==> nextSlot == slotsUsed && (expose == slotsUsed > 0 ==> front == Back(nextSlot, 1, |entries|))
    {
      hide ExplicitProducer.Built, Base, Pow2, Blocks;
      Facts(p, q);
      if slotsUsed == |entries| {
        ok := NewBlockIndex(expose, p, q);
        if !ok { return; }
        Facts(p, q);
      }
      ok := Requisition(p, q);
      Facts(p, q);
    }

    lemma RoomInside()
      requires Valid() && Pos(tailIndex, Pow2(k)) != 0
      ensures HasRoom()
    {
      hide Parts, Ring, Sized, Indexed, Flagged, Content, Pow2, Blk, Blocks, Base;
      BlocksAt(tailIndex, Pow2(k));
    }

    /** The second half of enqueue. */
    method WriteLast(v: Value)
      requires HasRoom()
      modifies `blocks, `tailIndex, `log
      ensures Valid() && log == old(log) + [v]
    {
      hide Ring, Sized, Indexed, Flagged, Content, Pow2, Blk, Pos, Blocks, Base, SetCell, OnlyCells;
      ghost var p, b := Blk(tailIndex, Pow2(k)) + 1, Pow2(k);
      InSize(entries, nextSlot, order, p, b);
      PosIn(tailIndex, b);
      OneMoreBlock(tailIndex, b);
      WriteContent(blocks, order, p, headIndex, log, v, b, tailBlock.value);
      CellsKeep(blocks, SetCell(blocks, tailBlock.value, Pos(tailIndex, b), Some(v)), order, free, p, p, headIndex, b);
      SameSize(blocks, SetCell(blocks, tailBlock.value, Pos(tailIndex, b), Some(v)));
      blocks := SetCell(blocks, tailBlock.value, Pos(tailIndex, Pow2(k)), Some(v));
      tailIndex := tailIndex + 1;
      log := log + [v];
    }

    lemma SameSize(blocks: seq<Block>, blocks': seq<Block>)
      requires OnlyCells(blocks, blocks')
      ensures |blocks'| == |blocks|
    {}

    /**
      enqueue: the element is appended, or nothing changes.  It succeeds exactly when the element fits into
      the last block, or a block is found ahead, or the queue is not full and malloc answers the calls needed.
     */
    method Enqueue(v: Value) returns (ok: bool)
      requires Valid()
      modifies `blocks, `free, `entries, `c, `front, `slotsUsed, `nextSlot, `tailBlock, `order, `tailIndex, `log, `calls
      ensures Valid() && log == if ok then old(log) + [v] else old(log)
      ensures !ok ==> tailIndex == old(tailIndex)
      ensures ok <==> NotFull(|old(order)|, old(Published()), headIndex, Pow2(k), Missing(old(tailIndex), 1, Pow2(k)))
                      && Granted(malloc, old(calls), old(calls) + old(Needed(1)))
      ensures ok <==> NotFull(|old(order)|, old(Published()), headIndex, Pow2(k), Missing(old(tailIndex), 1, Pow2(k))) && Granted(malloc, old(calls), calls)
      ensures old(calls) <= calls <= old(calls) + old(Needed(1)) && (ok ==> calls == old(calls) + old(Needed(1)))
    {
      hide ExplicitProducer.Valid, ExplicitProducer.HasRoom, ExplicitProducer.Needed, Pos, Pow2, Blk, Base, Ahead, Blocks;
      OneMoreBlock(tailIndex, Pow2(k));
      BlocksAt(tailIndex, Pow2(k));
      if Pos(tailIndex, Pow2(k)) == 0 {
        OneNeeded();
        ok := StartBlock();
        if !ok { return; }
      } else {
        NoneNeeded(1);
        RoomInside();
      }
      WriteLast(v);
      ok := true;
    }

    lemma NoneNeeded(n: nat)
      requires Missing(tailIndex, n, Pow2(k)) == 0
      ensures Needed(n) == 0
    {
      hide Ahead;
      DemandNext(|entries|, |free|, |order|, 0);
    }

    // ---- dequeue

    /** The elements of one block are moved out and destroyed. */
    method ReadPart(x: BlockId, from: nat, stop: nat, ghost p: nat) returns (vs: seq<Value>)
      requires Apart(order) && Sized(blocks, Pow2(k)) && Content(blocks, order, p, from, log, Pow2(k)) && from <= stop <= |log|
      requires forall i: nat | from <= i < stop :: Place(blocks, order, p, Pow2(k), i, x)
      modifies `blocks
      ensures vs == log[from..stop] && OnlyCells(old(blocks), blocks) && Content(blocks, order, p, stop, log, Pow2(k))
    {
      hide Sized, Content, Blk, Pos, Pow2;
      var index := from;
      vs := [];
      while index != stop
        invariant from <= index <= stop && vs == log[from..index] && OnlyCells(old(blocks), blocks)
        invariant Content(blocks, order, p, index, log, Pow2(k))
        decreases stop - index
      {
        assert old(Place(blocks, order, p, Pow2(k), index, x));
        TakeContent(blocks, order, p, index, log, Pow2(k));
        vs := vs + [blocks[x].cells[Pos(index, Pow2(k))].value];
        blocks := SetCell(blocks, x, Pos(index, Pow2(k)), None);
        index := index + 1;
      }
    }

    /** set_many_empty: as the source asserts, none of these flags was set. */
    method SetManyEmpty(x: BlockId, from: nat, stop: nat, ghost p: nat)
      requires Core(p, p, from) && Content(blocks, order, p, stop, log, Pow2(k)) && Place(blocks, order, p, Pow2(k), from, x)
      requires from <= stop <= Base(Blk(from, Pow2(k)), Pow2(k)) + Pow2(k) && stop <= Base(p, Pow2(k))
      modifies `blocks
      ensures Core(p, p, stop) && Content(blocks, order, p, stop, log, Pow2(k))
    {
      hide Ring, Sized, Indexed, Flagged, Content, Pow2, Blk, Pos, Base, Filled, FlagsOf, And;
      ghost var m, b, was := Blk(from, Pow2(k)), Pow2(k), blocks;
      PosIn(from, b);
      var count := stop - from;
      FlagsAt(blocks, order, p, from, b, m);
      TakenFlags(blocks[x].emptyFlags, m, p, from, stop, b);
      assert forall t | b - Pos(from, b) - count <= t < b - Pos(from, b) :: !blocks[x].emptyFlags[t];
      StoreFlags(x, Pow2(k) - Pos(from, Pow2(k)) - count, Pow2(k) - Pos(from, Pow2(k)), true);
      TakenFlagged(was, blocks, order, p, from, stop, b, m);
      SizedSame(was, blocks, x, b);
      SameLinks(was, blocks, order);
      KeptContent(was, blocks, order, p, stop, log, b, x);
    }

    lemma FlagsAt(blocks: seq<Block>, order: seq<BlockId>, p: nat, head: nat, b: nat, m: nat)
      requires Flagged(blocks, order, p, p, head, b) && |order| <= p && p - |order| <= m < p
      ensures order[m - (p - |order|)] < |blocks| && FlagsOf(blocks[order[m - (p - |order|)]].emptyFlags, m, p, head, b)
      ensures |blocks[order[m - (p - |order|)]].emptyFlags| == b
    {}

    /** The slot of the block of an index, counted back from the next one. */
    ghost predicate InSlot(slot: nat, index: nat, p: nat)
      reads `nextSlot, `entries
    {
      nextSlot < |entries| && 0 < p - Blk(index, Pow2(k)) <= |entries| && slot == Back(nextSlot, p - Blk(index, Pow2(k)), |entries|)
    }

    lemma SlotBlock(slot: nat, index: nat, stop: nat, p: nat)
      requires Core(p, p, index) && InSlot(slot, index, p) && index <= stop <= Base(Blk(index, Pow2(k)), Pow2(k)) + Pow2(k) && stop <= Base(p, Pow2(k))
      ensures slot < |entries| && Apart(order) && Base(p - |order|, Pow2(k)) <= stop && Place(blocks, order, p, Pow2(k), index, entries[slot].block)
      ensures forall i: nat | index <= i < stop :: Place(blocks, order, p, Pow2(k), i, entries[slot].block)
    {
      hide Ring, Sized, Flagged, Pow2, Blk, Pos, Base;
      var b, n, m := Pow2(k), |order|, Blk(index, Pow2(k));
      InBlock(index, p - n, b);
      PartOf(index, stop, b);
      assert entries[Back(nextSlot, n - (m - (p - n)), |entries|)].block == order[m - (p - n)];
    }

    /** What a consumer takes from one block, found in the given slot of the index. */
    method TakePart(slot: nat, from: nat, stop: nat, ghost p: nat) returns (vs: seq<Value>)
      requires Core(p, p, from) && Content(blocks, order, p, from, log, Pow2(k)) && |log| <= Base(p, Pow2(k))
      requires from <= stop <= Base(Blk(from, Pow2(k)), Pow2(k)) + Pow2(k) && stop <= |log| && InSlot(slot, from, p)
      modifies `blocks
      ensures vs == log[from..stop] && Core(p, p, stop) && Content(blocks, order, p, stop, log, Pow2(k))
    {
      hide Ring, Sized, Indexed, Flagged, Content, Pow2, Blk, Pos, Base, CellIs, OnlyCells;
      SlotBlock(slot, from, stop, p);
      var x := entries[slot].block;
      assert Place(blocks, order, p, Pow2(k), from, x);
      vs := ReadPart(x, from, stop, p);
      CellsKeep(old(blocks), blocks, order, free, p, p, from, Pow2(k));
      SameSize(old(blocks), blocks);
      SetManyEmpty(x, from, stop, p);
    }

    /** The slot that a consumer computes from the front of the index. */
    function LookupSlot(index: nat): nat
      requires front < |entries| && k + c <= 64
      reads `entries, `front, `c
    {
      Slot(front, entries[front].base, Img(index), k, c)
    }

    lemma FirstSlot(index: nat, p: nat)
      requires Core(p, p, index) && order != [] && front == Back(nextSlot, 1, |entries|) && index < Base(p, Pow2(k))
      ensures front < |entries| && InSlot(LookupSlot(index), index, p)
    {
      hide Ring, Sized, Flagged, Pow2, Blk, Pos, Base, Slot, Img, Parts;
      InBlock(index, p - |order|, Pow2(k));
      InBlock(index, p, Pow2(k));
      LookupHolds(entries, nextSlot, order, p, k, c, index);
    }

    lemma BlocksEnd(p: nat, q: nat)
      requires Built(p, q)
      ensures Core(p, q, headIndex) && Content(blocks, order, p, headIndex, log, Pow2(k)) && k + c <= 64 && nextSlot < |entries|
    {}

    /** Every index below the tail is in a published block. */
    lemma TailFits()
      requires Valid()
      ensures tailIndex <= Base(Published(), Pow2(k))
    {
      hide Pow2, Blk, Pos, Base, ExplicitProducer.Built;
      BlocksAt(tailIndex, Pow2(k));
      PosIn(tailIndex, Pow2(k));
      BaseNext(Blk(tailIndex, Pow2(k)), Pow2(k));
    }

    /** dequeue: the oldest element, unless the queue is empty. */
    method Dequeue() returns (r: Option<Value>)
      requires Valid() && tailIndex - headIndex < HALF
      modifies `blocks, `headIndex, `opt
      ensures Valid() && log == old(log)
      ensures r == (if old(Contents()) == [] then None else Some(old(Contents())[0]))
      ensures Contents() == if old(Contents()) == [] then [] else old(Contents())[1..]
    {
      hide ExplicitProducer.Core, Blk, Base, Pow2, Content, ExplicitProducer.InSlot, Slot;
      r := None;
      TailFits();
      CircularLessIsLess(headIndex, tailIndex);
      if CircularLess(Img(opt - over), Img(tailIndex)) {
        var overcommit, my := over, opt;
        opt := opt + 1;
        if CircularLess(Img(my - overcommit), Img(tailIndex)) {
          var index := headIndex;
          ghost var p := Published();
          BlocksEnd(p, p);
          FirstSlot(index, p);
          headIndex := headIndex + 1;
          OneIn(index, Pow2(k));
          var vs := TakePart(LookupSlot(index), index, index + 1, p);
          r := Some(vs[0]);
        } else {
          assert false;   // takes a second consumer: module DequeueCounters
        }
      }
    }

    /** The blocks of a claim one after the other, in the slots that follow one another in the index. */
    method TakeRange(first: nat, count: nat, ghost p: nat) returns (vs: seq<Value>)
      requires Core(p, p, first) && Content(blocks, order, p, first, log, Pow2(k)) && first < |log| <= Base(p, Pow2(k)) && first + count <= |log|
      requires order != [] && nextSlot < |entries| && front == Back(nextSlot, 1, |entries|) && k + c <= 64
      modifies `blocks
      ensures vs == log[first..first + count] && Core(p, p, first + count) && Content(blocks, order, p, first + count, log, Pow2(k))
    {
      hide ExplicitProducer.Core, Blk, Base, Pow2, StopIndex, Content, Slot;
      FirstSlot(first, p);
      var index, indexIndex := first, LookupSlot(first);
      vs := [];
      while true
        invariant first <= index <= first + count && vs == log[first..index] && (index == first || index < first + count)
        invariant Core(p, p, index) && Content(blocks, order, p, index, log, Pow2(k)) && InSlot(indexIndex, index, p)
        decreases first + count - index
      {
        var stop := StopIndex(index, first + count, Pow2(k));
        StopOk(index, first + count, Pow2(k));
        var part := TakePart(indexIndex, index, stop, p);
        NextInSlot(indexIndex, index, stop, first + count, p);
        indexIndex := And(indexIndex + 1, |entries| - 1);
        vs := vs + part;
        index := stop;
        if index == first + count { break; }
      }
    }

    lemma NextInSlot(slot: nat, index: nat, stop: nat, end: nat, p: nat)
      requires Core(p, p, stop) && InSlot(slot, index, p) && (stop < end ==> Blk(stop, Pow2(k)) == Blk(index, Pow2(k)) + 1) && end <= Base(p, Pow2(k))
      ensures |entries| == Pow2(c) && (stop < end ==> InSlot(And(slot + 1, |entries| - 1), stop, p))
    {
      hide Ring, Sized, Flagged, Pow2, Blk, Pos, Base, Parts, And;
      MaskStep(slot, c);
      InBlock(stop, p, Pow2(k));
    }

    /** dequeue_bulk: the oldest elements, up to `max`. */
    method DequeueBulk(max: nat) returns (vs: seq<Value>)
      requires Valid() && tailIndex - headIndex < HALF
      modifies `blocks, `headIndex, `opt
      ensures Valid() && log == old(log)
      ensures vs == old(Contents())[..if max < |old(Contents())| then max else |old(Contents())|]
      ensures Contents() == old(Contents())[|vs|..]
    {
      hide ExplicitProducer.Core, Blk, Base, Pow2, Content;
      vs := [];
      TailFits();
      SubImages(tailIndex, headIndex);
      Counters.PositiveImage(tailIndex - headIndex);
      var desiredCount := Sub(Img(tailIndex), Img(opt - over));
      if CircularLess(0, desiredCount) {
        desiredCount := if desiredCount < max then desiredCount else max;
        var overcommit, my := over, opt;
        opt := opt + desiredCount;
        var actualCount := Sub(Img(tailIndex), Img(my - overcommit));
        if CircularLess(0, actualCount) {
          actualCount := if desiredCount < actualCount then desiredCount else actualCount;
          if actualCount < desiredCount { assert false; }   // as above
          var firstIndex := headIndex;
          ghost var p := Published();
          BlocksEnd(p, p);
          headIndex := headIndex + actualCount;
          vs := TakeRange(firstIndex, actualCount, p);
        } else {
          assert false;   // as above
        }
      }
    }

    // ---- enqueue_bulk: the blocks

    /** r blocks have been prepared after the published ones; `first` is firstAllocatedBlock. */
    ghost predicate Preparing(r: nat, first: Option<BlockId>, startBlock: Option<BlockId>)
      reads this
    {
      && Built(Published() + r, Published()) && r <= |order|
      && first == (if r == 0 then None else Some(order[|order| - r]))
      && (r < |order| ==> startBlock == Some(order[|order| - r - 1])) && (r == 0 ==> startBlock == tailBlock)
      && headIndex <= tailIndex == |log| && opt == over + headIndex
    }

    lemma FactsApart(p: nat, q: nat)
      requires Built(p, q)
      ensures Apart(order)
    {}

    lemma PreparingFacts(r: nat, first: Option<BlockId>, startBlock: Option<BlockId>)
      requires Preparing(r, first, startBlock)
      ensures Built(Published() + r, Published()) && r <= |order| <= Published() + r && |order| == slotsUsed <= |entries| == Pow2(c) && headIndex <= Base(Published(), Pow2(k)) && k <= 63
      ensures Base(Published() + r - |order|, Pow2(k)) <= headIndex && Base(|order|, Pow2(k)) <= HALF
    {
      hide ExplicitProducer.Built;
      Facts(Published() + r, Published());
    }

    lemma AheadAt(r: nat, first: Option<BlockId>, startBlock: Option<BlockId>)
      requires Preparing(r, first, startBlock) && |order| <= Published()
      ensures var ahead, oldest := Ahead(|order|, Published(), headIndex, Pow2(k)), Published() + r - |order|;
              (r < ahead <==> r < |order| && Base(oldest, Pow2(k)) + Pow2(k) <= headIndex) && (r == ahead ==> headIndex < Base(oldest, Pow2(k)) + Pow2(k))
    {
      hide ExplicitProducer.Built, Ahead, Base, Pow2, Blocks;
      PreparingFacts(r, first, startBlock);
      AheadIs(|order|, Published(), headIndex, Pow2(k), r);
    }

    /** The block ahead is taken if it is empty and not one of those already prepared. */
    method PrepareAhead(startBlock: Option<BlockId>, first: Option<BlockId>, base: nat, ghost r: nat) returns (taken: bool, first': Option<BlockId>)
      requires Preparing(r, first, startBlock) && base == Base(Published() + r, Pow2(k)) && |order| <= Published()
      modifies `entries, `nextSlot, `tailBlock, `order
      ensures Preparing(if taken then r + 1 else r, first', startBlock) && |order| == |old(order)| && |entries| == |old(entries)|
      ensures taken <==> r < Ahead(|order|, Published(), headIndex, Pow2(k))
    {
      hide ExplicitProducer.Built, Base, Pow2, AllSet, Blocks, Ahead;
      ghost var p := Published();
      Facts(p + r, p);
      FactsApart(p + r, p);
      AheadAt(r, first, startBlock);
      taken, first' := false, first;
      if tailBlock != None && Some(blocks[tailBlock.value].next) != first {
        OldestEmpty(p + r, p);
        taken := IsEmpty(blocks[tailBlock.value].next);
        if taken {
          ReuseNext(p + r, p, base);
          Facts(p + r + 1, p);
          if first == None { first' := tailBlock; }
        }
      }
    }

    /** A block of the pool is prepared. */
    method PrepareNew(startBlock: Option<BlockId>, first: Option<BlockId>, base: nat, ghost r: nat) returns (first': Option<BlockId>)
      requires Preparing(r, first, startBlock) && base == Base(Published() + r, Pow2(k)) && slotsUsed != |entries| && free != []
      requires Base(|order| + 1, Pow2(k)) <= HALF
      modifies `blocks, `free, `entries, `nextSlot, `slotsUsed, `tailBlock, `order
      ensures Preparing(r + 1, first', startBlock) && |free| == |old(free)| - 1 && |order| == |old(order)| + 1 && |entries| == |old(entries)|
    {
      hide ExplicitProducer.Built, Base, Pow2, Blocks;
      ghost var p := Published();
      Facts(p + r, p);
      InsertNew(true, p + r, p, base);
      Facts(p + r + 1, p);
      first' := if first == None then tailBlock else first;
    }

    /** The first loop of enqueue_bulk with r of the `need` blocks taken; the list has n blocks and the index `size` slots. */
    ghost predicate TakingAhead(blockBaseDiff: nat, currentTailIndex: int, first: Option<BlockId>, startBlock: Option<BlockId>, r: nat, need: nat, n: nat, size: nat)
      reads this
    {
      && Preparing(r, first, startBlock) && r <= need && blockBaseDiff == Base(need - r, Pow2(k)) && currentTailIndex == Base(Published() + r, Pow2(k)) - Pow2(k)
      && |order| == n <= Published() && |entries| == size && r <= Ahead(n, Published(), headIndex, Pow2(k))
    }

    method AheadRound(startBlock: Option<BlockId>, blockBaseDiff: nat, currentTailIndex: int, first: Option<BlockId>, ghost r: nat, ghost need: nat, ghost n: nat, ghost size: nat)
      returns (taken: bool, blockBaseDiff': nat, currentTailIndex': int, first': Option<BlockId>)
      requires TakingAhead(blockBaseDiff, currentTailIndex, first, startBlock, r, need, n, size) && blockBaseDiff > 0
      modifies `entries, `nextSlot, `tailBlock, `order
      ensures TakingAhead(blockBaseDiff', currentTailIndex', first', startBlock, if taken then r + 1 else r, need, n, size)
      ensures (taken <==> r < Ahead(n, Published(), headIndex, Pow2(k))) && (if taken then blockBaseDiff' < blockBaseDiff else blockBaseDiff' == blockBaseDiff)
    {
      hide ExplicitProducer.Preparing, ExplicitProducer.Built, Ahead, Base, Pow2, Blocks;
      OneBlock(need - r, Published() + r, Pow2(k));
      taken, first' := PrepareAhead(startBlock, first, currentTailIndex + Pow2(k), r);
      blockBaseDiff', currentTailIndex' := blockBaseDiff, currentTailIndex;
      if taken { blockBaseDiff', currentTailIndex' := blockBaseDiff - Pow2(k), currentTailIndex + Pow2(k); }
    }

    /** The first loop of enqueue_bulk: as many blocks as possible from ahead. */
    method AllocateAhead(startBlock: Option<BlockId>, diff: nat, ghost need: nat) returns (blockBaseDiff: nat, currentTailIndex: int, first: Option<BlockId>, ghost r: nat)
      requires Preparing(0, None, startBlock) && diff == Base(need, Pow2(k))
      modifies `entries, `nextSlot, `tailBlock, `order
      ensures TakingAhead(blockBaseDiff, currentTailIndex, first, startBlock, r, need, |old(order)|, |old(entries)|)
      ensures var ahead := Ahead(|old(order)|, Published(), headIndex, Pow2(k)); r == if need < ahead then need else ahead
    {
      hide ExplicitProducer.TakingAhead, ExplicitProducer.Preparing, ExplicitProducer.Built, Ahead, Base, Pow2, Blocks;
      PreparingFacts(0, None, startBlock);
      blockBaseDiff, first, r := diff, None, 0;
      currentTailIndex := Base(Blocks(tailIndex, Pow2(k)), Pow2(k)) - Pow2(k);
      StartTaking(diff, startBlock, need);
      var ahead := true;
      while blockBaseDiff > 0 && ahead
        invariant TakingAhead(blockBaseDiff, currentTailIndex, first, startBlock, r, need, |old(order)|, |old(entries)|)
        invariant !ahead ==> r == Ahead(|old(order)|, Published(), headIndex, Pow2(k))
        decreases blockBaseDiff, ahead
      {
        EndTaking(blockBaseDiff, currentTailIndex, first, startBlock, r, need, |old(order)|, |old(entries)|);
        ahead, blockBaseDiff, currentTailIndex, first := AheadRound(startBlock, blockBaseDiff, currentTailIndex, first, r, need, |old(order)|, |old(entries)|);
        if ahead { r := r + 1; }
      }
      EndTaking(blockBaseDiff, currentTailIndex, first, startBlock, r, need, |old(order)|, |old(entries)|);
    }

    lemma StartTaking(diff: nat, startBlock: Option<BlockId>, need: nat)
      requires Preparing(0, None, startBlock) && diff == Base(need, Pow2(k)) && |order| <= Published()
      ensures TakingAhead(diff, Base(Published(), Pow2(k)) - Pow2(k), None, startBlock, 0, need, |order|, |entries|)
    {}

    lemma EndTaking(diff: nat, base: int, first: Option<BlockId>, startBlock: Option<BlockId>, r: nat, need: nat, n: nat, size: nat)
      requires TakingAhead(diff, base, first, startBlock, r, need, n, size)
      ensures r <= need && r <= Ahead(n, Published(), headIndex, Pow2(k)) && (diff == 0 ==> r == need)
      ensures r == Ahead(n, Published(), headIndex, Pow2(k)) ==> |order| <= Published() + r && headIndex < Base(Published() + r - |order|, Pow2(k)) + Pow2(k)
    {
      hide ExplicitProducer.Preparing, ExplicitProducer.Built, Ahead, Pow2, Blocks;
      AheadAt(r, first, startBlock);
      NoBlocksIf(need - r, Pow2(k));
    }

    lemma NoBlocksIf(n: nat, b: nat)
      requires b > 0
      ensures Base(n, b) == 0 ==> n == 0
    {}

    /** The second loop of enqueue_bulk with m of the `need` blocks there, `got` of them new; in all it calls malloc `goal` times. */
    ghost predicate TakingNew(blockBaseDiff: nat, currentTailIndex: int, first: Option<BlockId>, startBlock: Option<BlockId>, m: nat, need: nat, got: nat, calls0: nat, goal: nat)
      reads this
    {
      && Preparing(m, first, startBlock) && got <= m <= need && blockBaseDiff == Base(need - m, Pow2(k)) && currentTailIndex == Base(Published() + m, Pow2(k)) - Pow2(k)
      && (m < need ==> |order| <= Published() + m && headIndex < Base(Published() + m - |order|, Pow2(k)) + Pow2(k))
      && calls >= calls0 && Granted(malloc, calls0, calls) && (got == 0 || Base(Published() + m, Pow2(k)) - headIndex < HALF)
      && calls + Demand(|entries|, |free|, |order|, need - m) == goal
    }

    /** One more block from the pool; the first part of the round in which it is decided whether there is one. */
    method NewRound(startBlock: Option<BlockId>, originalFront: nat, originalSlotsUsed: nat, blockBaseDiff: nat, currentTailIndex: int, first: Option<BlockId>,
      ghost m: nat, ghost need: nat, ghost got: nat, ghost calls0: nat, ghost goal: nat)
      returns (ok: bool, originalFront': nat, blockBaseDiff': nat, currentTailIndex': int, first': Option<BlockId>)
      requires TakingNew(blockBaseDiff, currentTailIndex, first, startBlock, m, need, got, calls0, goal) && blockBaseDiff > 0 && got <= m
      modifies `blocks, `free, `entries, `c, `front, `slotsUsed, `nextSlot, `tailBlock, `order, `calls
      ensures ok ==> TakingNew(blockBaseDiff', currentTailIndex', first', startBlock, m + 1, need, got + 1, calls0, goal) && blockBaseDiff' < blockBaseDiff
      ensures !ok ==> calls0 <= calls <= goal
      ensures !ok ==> !(Base(Published() + need, Pow2(k)) - headIndex < HALF && (Granted(malloc, calls0, goal) || Granted(malloc, calls0, calls)))
    {
      hide ExplicitProducer.Preparing, ExplicitProducer.Built, ExplicitProducer.TakingNew, Base, Pow2, Blocks, CircularLess, Img, Granted, Demand, DemandOne;
      NewRoundFacts(blockBaseDiff, currentTailIndex, first, startBlock, m, need, got, calls0, goal);
      blockBaseDiff', currentTailIndex' := blockBaseDiff - Pow2(k), currentTailIndex + Pow2(k);
      var full := !CircularLess(Img(headIndex), Img(currentTailIndex' + Pow2(k)));
      ghost var calls1, free1, n, size1 := calls, |free|, |order|, |entries|;
      ghost var d := DemandOne(size1, free1, n);
      DemandNext(size1, free1, n, need - m);
      first' := first;
      ok, originalFront' := RoomForBlock(full, originalFront, originalSlotsUsed, first, startBlock, m);
      GrantedOn(malloc, calls0, calls1, calls1 + d);
      GrantedOn(malloc, calls0, calls1, calls);
      if ok {
        first' := PrepareNew(startBlock, first, currentTailIndex', m);
        OneMoreTaken(blockBaseDiff', currentTailIndex', first', startBlock, m, need, got, calls0, goal, n, free1, size1, calls1);
      } else if !full {
        NotGranted(malloc, calls0, calls1 + d, goal);
      }
    }

    lemma NewRoundFacts(diff: nat, base: int, first: Option<BlockId>, startBlock: Option<BlockId>, m: nat, need: nat, got: nat, calls0: nat, goal: nat)
      requires TakingNew(diff, base, first, startBlock, m, need, got, calls0, goal) && diff > 0
      ensures var b, p := Pow2(k), Published();
              && m < need && Preparing(m, first, startBlock) && calls >= calls0 && Granted(malloc, calls0, calls) && slotsUsed == |order|
              && diff >= b && diff - b == Base(need - m - 1, b) && base + b == Base(p + m, b) && base + b + b == Base(p + m + 1, b)
              && (CircularLess(Img(headIndex), Img(base + b + b)) <==> Base(p + m + 1, b) - headIndex < HALF)
              && (|order| == Pow2(c) ==> k + c < 64) && (Base(p + m + 1, b) - headIndex < HALF ==> Base(|order| + 1, b) <= HALF)
              && Base(p + m + 1, b) <= Base(p + need, b) && |order| <= |entries| && calls + Demand(|entries|, |free|, |order|, need - m) == goal
              && |order| <= p + m && headIndex < Base(p + m - |order|, b) + b
    {
      hide ExplicitProducer.Preparing, ExplicitProducer.Built, Base, Pow2, Blocks, CircularLess, Img, Granted, Demand;
      NoneYet(Pow2(k));
      PreparingFacts(m, first, startBlock);
      WantedBlock(k, c, |order|, Published(), m, need, headIndex);
    }

    lemma OneMoreTaken(diff: nat, base: int, first: Option<BlockId>, startBlock: Option<BlockId>, m: nat, need: nat, got: nat, calls0: nat, goal: nat,
      n: nat, free1: nat, size1: nat, calls1: nat)
      requires Preparing(m + 1, first, startBlock) && got <= m < need && diff == Base(need - (m + 1), Pow2(k)) && base == Base(Published() + m, Pow2(k))
      requires |order| == n + 1 && n <= Published() + m && headIndex < Base(Published() + m - n, Pow2(k)) + Pow2(k)
      requires calls >= calls1 >= calls0 && Granted(malloc, calls0, calls) && Base(Published() + m + 1, Pow2(k)) - headIndex < HALF
      requires |free| == (if free1 > 0 then free1 - 1 else 0) && |entries| == if n < size1 then size1 else 2 * size1
      requires calls == calls1 + DemandOne(size1, free1, n) && calls1 + Demand(size1, free1, n, need - m) == goal
      ensures TakingNew(diff, base, first, startBlock, m + 1, need, got + 1, calls0, goal)
    {
      hide ExplicitProducer.Preparing, ExplicitProducer.Built, Pow2, Blocks, Granted, Base, Demand, DemandOne;
      OneMoreBase(Published() + m, Pow2(k));
      DemandNext(size1, free1, n, need - m);
    }

    lemma OneMoreBase(n: nat, b: nat)
      ensures Base(n + 1, b) == Base(n, b) + b
    {}

    /** The second loop of enqueue_bulk: the others from the pool; what a failure leaves is not described. */
    method AllocateNew(startBlock: Option<BlockId>, originalSlot: nat, originalSlotsUsed: nat, diff: nat, lastBase: int, first: Option<BlockId>, ghost r: nat, ghost need: nat)
      returns (ok: bool, first': Option<BlockId>)
      requires r <= need && TakingNew(diff, lastBase, first, startBlock, r, need, 0, calls, calls + Demand(|entries|, |free|, |order|, need - r))
      modifies `blocks, `free, `entries, `c, `front, `slotsUsed, `nextSlot, `tailBlock, `order, `calls
      ensures ok ==> Preparing(need, first', startBlock)
      ensures var goal := old(calls + Demand(|entries|, |free|, |order|, need - r));
              && (ok <==> (r == need || Base(Published() + need, Pow2(k)) - headIndex < HALF) && Granted(malloc, old(calls), goal))
              && (ok <==> (r == need || Base(Published() + need, Pow2(k)) - headIndex < HALF) && Granted(malloc, old(calls), calls))
              && old(calls) <= calls <= goal && (ok ==> calls == goal)
    {
      hide ExplicitProducer.TakingNew, ExplicitProducer.Preparing, ExplicitProducer.Built, Blocks, Pow2, Base, Granted, Demand;
      var blockBaseDiff, currentTailIndex, originalFront := diff, lastBase, originalSlot;
      ghost var m: nat, calls0, goal := r, calls, calls + Demand(|entries|, |free|, |order|, need - r);
      first' := first;
      TakingFacts(blockBaseDiff, currentTailIndex, first', startBlock, m, need, m - r, calls0, goal);
      while blockBaseDiff > 0
        invariant r <= m
        invariant TakingNew(blockBaseDiff, currentTailIndex, first', startBlock, m, need, m - r, calls0, goal)
        decreases blockBaseDiff
      {
        TakingFacts(blockBaseDiff, currentTailIndex, first', startBlock, m, need, m - r, calls0, goal);
        ok, originalFront, blockBaseDiff, currentTailIndex, first' :=
          NewRound(startBlock, originalFront, originalSlotsUsed, blockBaseDiff, currentTailIndex, first', m, need, m - r, calls0, goal);
        if !ok {
          nextSlot, slotsUsed := originalFront, originalSlotsUsed;
          tailBlock := if startBlock == None then first' else startBlock;
          return;
        }
        m := m + 1;
      }
      TakingFacts(blockBaseDiff, currentTailIndex, first', startBlock, m, need, m - r, calls0, goal);
      ok := true;
    }

    lemma TakingFacts(diff: nat, base: int, first: Option<BlockId>, startBlock: Option<BlockId>, m: nat, need: nat, got: nat, calls0: nat, goal: nat)
      requires TakingNew(diff, base, first, startBlock, m, need, got, calls0, goal)
      ensures m <= need && (if diff == 0 then m == need && calls == goal else m < need) && Preparing(m, first, startBlock)
      ensures calls0 <= calls <= goal && Granted(malloc, calls0, calls) && (got == 0 || Base(Published() + m, Pow2(k)) - headIndex < HALF)
    {
      hide ExplicitProducer.Preparing, ExplicitProducer.Built, Pow2, Blocks, Granted, Demand;
      NoBlocksIf(need - m, Pow2(k));
      DemandNext(|entries|, |free|, |order|, 0);
    }

    /** Room in the index and a free block. */
    method RoomForBlock(full: bool, originalFront: nat, originalSlotsUsed: nat, ghost first: Option<BlockId>, ghost startBlock: Option<BlockId>, ghost r: nat)
      returns (ok: bool, originalFront': nat)
      requires Preparing(r, first, startBlock) && (|order| == Pow2(c) ==> k + c < 64)
      modifies `blocks, `free, `entries, `c, `front, `nextSlot, `calls
      ensures ok ==> Preparing(r, first, startBlock) && slotsUsed != |entries| && free != [] && |free| == if |old(free)| > 0 then |old(free)| else 1
      ensures ok ==> |entries| == if |order| < |old(entries)| then |old(entries)| else 2 * |old(entries)|
      ensures var d := DemandOne(|old(entries)|, |old(free)|, |order|);
              && (ok <==> !full && Granted(malloc, old(calls), old(calls) + d)) && (ok <==> !full && Granted(malloc, old(calls), calls))
              && old(calls) <= calls <= old(calls) + d && (ok ==> calls == old(calls) + d)
    {
      hide ExplicitProducer.Built, Base, Pow2, Blocks, Granted, DemandOne;
      ghost var p := Published();
      originalFront' := originalFront;
      Facts(p + r, p);
      if full { return false, originalFront'; }
      var size := |entries|;
      ok := NewBlock(originalSlotsUsed, p + r, p);
      if |entries| != size { originalFront' := originalSlotsUsed; }
      Facts(p + r, p);
    }

    /** Where the first loop stops the second one begins. */
    lemma AheadToNew(diff: nat, base: int, first: Option<BlockId>, startBlock: Option<BlockId>, r: nat, need: nat, n: nat, size: nat)
      requires TakingAhead(diff, base, first, startBlock, r, need, n, size)
      requires var ahead := Ahead(n, Published(), headIndex, Pow2(k)); r == if need < ahead then need else ahead
      ensures r <= need && TakingNew(diff, base, first, startBlock, r, need, 0, calls, calls + Demand(|entries|, |free|, |order|, need - r))
      ensures |order| == n <= size == |entries| && r <= n
    {
      hide ExplicitProducer.Preparing, ExplicitProducer.Built, Ahead, Pow2, Blocks, Base, Demand;
      AheadAt(r, first, startBlock);
      PreparingFacts(r, first, startBlock);
    }

    lemma StartPreparing()
      requires Valid()
      ensures Preparing(0, None, tailBlock) && k <= 64
    {}

    lemma NoBase(n: nat, b: nat)
      requires Base(n, b) > 0
      ensures n > 0
    {}

    /** All blocks for `count` more elements. */
    method AllocateBlocks(count: nat) returns (ok: bool, first: Option<BlockId>, ghost r: nat)
      requires Valid() && count + Pow2(k) <= WORD
      modifies `blocks, `free, `entries, `c, `front, `slotsUsed, `nextSlot, `tailBlock, `order, `calls
      ensures ok <==> NotFull(|old(order)|, Published(), headIndex, Pow2(k), Missing(tailIndex, count, Pow2(k)))
                      && Granted(malloc, old(calls), old(calls) + old(Needed(count)))
      ensures ok <==> NotFull(|old(order)|, Published(), headIndex, Pow2(k), Missing(tailIndex, count, Pow2(k))) && Granted(malloc, old(calls), calls)
      ensures old(calls) <= calls <= old(calls) + old(Needed(count)) && (ok ==> calls == old(calls) + old(Needed(count)))
      ensures ok ==> Preparing(r, first, old(tailBlock)) && r == Blocks(tailIndex + count, Pow2(k)) - Published() && (r == 0 ==> Valid())
    {
      hide ExplicitProducer.Preparing, ExplicitProducer.Valid, ExplicitProducer.TakingNew, ExplicitProducer.TakingAhead, Ahead, Blocks, And, HighMask, Img, Sub, Pow2, Base, Demand;
      StartPreparing();
      BlocksToAllocate(k, tailIndex, count);
      var startBlock, originalFront, originalSlotsUsed := tailBlock, nextSlot, slotsUsed;
      ghost var need := Blocks(tailIndex + count, Pow2(k)) - Published();
      var blockBaseDiff := Sub(And(Img(tailIndex + count - 1), HighMask(64, k)), And(Img(tailIndex - 1), HighMask(64, k)));
      ok, first, r := true, None, need;
      if blockBaseDiff > 0 {
        NoBase(need, Pow2(k));
        var currentTailIndex;
        blockBaseDiff, currentTailIndex, first, r := AllocateAhead(startBlock, blockBaseDiff, need);
        AheadToNew(blockBaseDiff, currentTailIndex, first, startBlock, r, need, |old(order)|, |old(entries)|);
        ok, first := AllocateNew(startBlock, originalFront, originalSlotsUsed, blockBaseDiff, currentTailIndex, first, r, need);
        r := need;
      } else {
        NoBlocks(need, Pow2(k));
        DemandNext(|entries|, |free|, |order|, 0);
      }
    }

    /** The prepared blocks are cleared one after the other, from `first` to tailBlock. */
    method ResetAll(first: BlockId, ghost p: nat, ghost q: nat)
      requires Built(p, q) && q < p && p - |order| <= q && first == order[q - (p - |order|)]
      modifies `blocks
      ensures Built(p, p) && |blocks| == |old(blocks)|
    {
      hide ExplicitProducer.Built;
      var block := first;
      ghost var j := q;
      Facts(p, q);
      while true
        invariant q <= j < p && Built(p, j) && block == order[j - (p - |order|)] && |blocks| == |old(blocks)|
        decreases p - j
      {
        ResetBlock(block, p, j);
        NextOf(p, j + 1, j);
        j := j + 1;
        if Some(block) == tailBlock { break; }
        block := blocks[block].next;
      }
    }

    /** The next block of the list, unless this one is the last. */
    lemma NextOf(p: nat, q: nat, m: nat)
      requires Built(p, q) && |order| <= p && p - |order| <= m < p
      ensures var x := order[m - (p - |order|)];
              && x < |blocks| && (tailBlock == Some(x) <==> m == p - 1)
              && (m < p - 1 ==> blocks[x].next == order[m + 1 - (p - |order|)])
    {
      hide Sized, Indexed, Flagged, Content, Pow2, Base;
      assert blocks[order[m - (p - |order|)]].next == order[After(m - (p - |order|), |order|)];
    }

    // ---- enqueue_bulk: the elements

    /** The elements that go into one block. */
    method WriteBlock(x: Option<BlockId>, xs: seq<Value>, from: nat, stop: nat, ghost p: nat)
      requires Apart(order) && Sized(blocks, Pow2(k)) && |log| == tailIndex <= from <= stop <= tailIndex + |xs|
      requires Content(blocks, order, p, headIndex, log + xs[..from - tailIndex], Pow2(k))
      requires from < stop ==> x.Some? && forall i: nat | from <= i < stop :: Place(blocks, order, p, Pow2(k), i, x.value)
      modifies `blocks
      ensures Content(blocks, order, p, headIndex, log + xs[..stop - tailIndex], Pow2(k)) && OnlyCells(old(blocks), blocks)
    {
      hide Content, Sized, Blk, Pos, Pow2;
      var currentTailIndex := from;
      while currentTailIndex != stop
        invariant from <= currentTailIndex <= stop && OnlyCells(old(blocks), blocks) && Sized(blocks, Pow2(k))
        invariant Content(blocks, order, p, headIndex, log + xs[..currentTailIndex - tailIndex], Pow2(k))
        decreases stop - currentTailIndex
      {
        assert old(Place(blocks, order, p, Pow2(k), currentTailIndex, x.value));
        ghost var before := log + xs[..currentTailIndex - tailIndex];
        var v := xs[currentTailIndex - tailIndex];
        WriteContent(blocks, order, p, headIndex, before, v, Pow2(k), x.value);
        SizedCells(blocks, SetCell(blocks, x.value, Pos(currentTailIndex, Pow2(k)), Some(v)), Pow2(k));
        blocks := SetCell(blocks, x.value, Pos(currentTailIndex, Pow2(k)), Some(v));
        currentTailIndex := currentTailIndex + 1;
        assert before + [v] == log + xs[..currentTailIndex - tailIndex];
      }
    }

    lemma SizedCells(blocks: seq<Block>, blocks': seq<Block>, b: nat)
      requires Sized(blocks, b) && OnlyCells(blocks, blocks')
      ensures Sized(blocks', b)
    {}

    /** One round of the writing loop: the part in one block, and the step to the next block unless it was the last. */
    method WriteRound(xs: seq<Value>, end: Option<BlockId>, from: nat, ghost p: nat) returns (stop: nat, last: bool)
      requires Writing(xs, end, from, p)
      modifies `tailBlock, `blocks
      ensures if last then stop == tailIndex + |xs| && tailBlock == end && Core(p, p, headIndex) && Content(blocks, order, p, headIndex, log + xs, Pow2(k))
              else from < stop && xs != [] && Writing(xs, end, stop, p)
    {
      hide Ring, Sized, Indexed, Flagged, Content, Blk, Blocks, StopIndex, Pow2, Pos, Base;
      var b, newTailIndex := Pow2(k), tailIndex + |xs|;
      stop := StopIndex(from, newTailIndex, b);
      if xs != [] { RoundFacts(xs, end, from, p); }
      WriteBlock(tailBlock, xs, from, stop, p);
      CellsKeep(old(blocks), blocks, order, free, p, p, headIndex, b);
      SameSize(old(blocks), blocks);
      last := tailBlock == end;
      if !last { tailBlock := Some(blocks[tailBlock.value].next); } else { assert xs[..|xs|] == xs; }
    }

    /** The elements before index `from` are written, and tailBlock is the block of the next one; `end` is the last block. */
    ghost predicate Writing(xs: seq<Value>, end: Option<BlockId>, from: nat, p: nat)
      reads this
    {
      && Core(p, p, headIndex) && headIndex <= tailIndex == |log| <= from <= tailIndex + |xs|
      && Content(blocks, order, p, headIndex, log + xs[..from - tailIndex], Pow2(k)) && TailIs(end, order)
      && if xs == [] then tailBlock == end
         else from < tailIndex + |xs| && tailBlock.Some? && Place(blocks, order, p, Pow2(k), from, tailBlock.value) && p == Blocks(tailIndex + |xs|, Pow2(k))
    }

    /** The part of the elements in tailBlock, and what follows it. */
    lemma RoundFacts(xs: seq<Value>, end: Option<BlockId>, from: nat, p: nat)
      requires Writing(xs, end, from, p) && xs != []
      ensures var stop, newTailIndex := StopIndex(from, tailIndex + |xs|, Pow2(k)), tailIndex + |xs|;
              && from < stop <= newTailIndex && tailBlock.value < |blocks|
              && (forall i: nat | from <= i < stop :: Place(blocks, order, p, Pow2(k), i, tailBlock.value))
              && if tailBlock == end then stop == newTailIndex
                 else stop < newTailIndex && Place(blocks, order, p, Pow2(k), stop, blocks[tailBlock.value].next)
    {
      hide Sized, Indexed, Flagged, Content, Blk, StopIndex, Pow2, Base;
      var b, n, m := Pow2(k), |order|, Blk(from, Pow2(k));
      LastOrNext(from, from, tailIndex + |xs|, b);
      LastOfBulk(tailIndex, |xs|, b);
      assert blocks[order[m - (p - n)]].next == order[After(m - (p - n), n)];
    }

    /** The elements are written block by block, following the links, up to the block `end`. */
    method WriteElements(xs: seq<Value>, end: Option<BlockId>, ghost p: nat)
      requires Writing(xs, end, tailIndex, p)
      modifies `tailBlock, `blocks
      ensures tailBlock == end && Core(p, p, headIndex) && Content(blocks, order, p, headIndex, log + xs, Pow2(k)) && TailIs(end, order)
    {
      hide ExplicitProducer.Core, ExplicitProducer.Writing, Pow2, Content;
      var currentTailIndex := tailIndex;
      EndIs(xs, end, tailIndex, p);
      while true
        invariant Writing(xs, end, currentTailIndex, p) && (xs == [] ==> currentTailIndex == tailIndex)
        decreases tailIndex + |xs| - currentTailIndex
      {
        var last: bool;
        EndIs(xs, end, currentTailIndex, p);
        currentTailIndex, last := WriteRound(xs, end, currentTailIndex, p);
        if last { break; }
        EndIs(xs, end, currentTailIndex, p);
      }
    }

    lemma EndIs(xs: seq<Value>, end: Option<BlockId>, from: nat, p: nat)
      requires Writing(xs, end, from, p)
      ensures TailIs(end, order) && from <= tailIndex + |xs|
    {}

    // ---- enqueue_bulk

    /** Where the writing begins. */
    lemma BeginWriting(xs: seq<Value>, p: nat, r: nat, first: Option<BlockId>, startBlock: Option<BlockId>)
      requires Preparing(r, first, startBlock) && p == Published() + r == Blocks(tailIndex + |xs|, Pow2(k))
      ensures Built(p, Published()) && |order| <= p && (first == None <==> r == 0) && headIndex <= tailIndex == |log| && opt == over + headIndex
      ensures r > 0 ==> first.Some? && p - |order| <= Published() && first.value == order[Published() - (p - |order|)]
      ensures var x := if Pos(tailIndex, Pow2(k)) == 0 && first != None then first else startBlock;
              if xs == [] then r == 0 && startBlock == tailBlock
              else x.Some? && Place(blocks, order, p, Pow2(k), tailIndex, x.value)
    {
      hide Sized, Indexed, Flagged, Content, Blk, Pos, Pow2, Base, Parts;
      var b := Pow2(k);
      Facts(p, Published());
      assert xs == [] ==> tailIndex + |xs| == tailIndex;
      BlocksAt(tailIndex, b);
      LastOfBulk(tailIndex, |xs|, b);
      InBlock(tailIndex, p - |order|, b);
      assert forall i | 0 <= i < |order| :: order[i] < |blocks|;
    }

    /** The prepared blocks are cleared, and exposed through the front of the index. */
    method ExposeBlocks(first: Option<BlockId>, ghost p: nat, ghost q: nat)
      requires Built(p, q) && (if first == None then q == p else q < p && p - |order| <= q && first.value == order[q - (p - |order|)])
      modifies `blocks, `front
      ensures Built(p, p) && |blocks| == |old(blocks)|
      ensures if first == None then front == old(front) else nextSlot < |entries| && front == Back(nextSlot, 1, |entries|)
    {
      hide ExplicitProducer.Built, Pow2;
      if first != None {
        ResetAll(first.value, p, q);
        Facts(p, p);
        MaskFront();
        front := And(Sub(nextSlot, 1), |entries| - 1);
      }
    }

    /** The second half of enqueue_bulk: the blocks are exposed, the elements written and published. */
    method PublishBulk(xs: seq<Value>, startBlock: Option<BlockId>, first: Option<BlockId>, ghost r: nat)
      requires Preparing(r, first, startBlock) && r == Blocks(tailIndex + |xs|, Pow2(k)) - Published()
      requires r == 0 ==> Valid()
      modifies `blocks, `front, `tailBlock, `tailIndex, `log
      ensures Valid() && log == old(log) + xs
    {
      hide ExplicitProducer.Core, ExplicitProducer.Preparing, Blocks, Pow2, Content, Pos, Blk, Base, Back, And, Sub;
      ghost var p := Published() + r;
      BeginWriting(xs, p, r, first, startBlock);
      ExposeBlocks(first, p, Published());
      var newTailIndex := tailIndex + |xs|;
      WriteFrom(xs, if Pos(tailIndex, Pow2(k)) == 0 && first != None then first else startBlock, p);
      tailIndex := newTailIndex;
      log := log + xs;
    }

    /** endBlock = tailBlock, tailBlock = x, and the elements. */
    method WriteFrom(xs: seq<Value>, x: Option<BlockId>, ghost p: nat)
      requires Built(p, p) && headIndex <= tailIndex == |log|
      requires if xs == [] then x == tailBlock else x.Some? && Place(blocks, order, p, Pow2(k), tailIndex, x.value) && p == Blocks(tailIndex + |xs|, Pow2(k))
      modifies `tailBlock, `blocks
      ensures tailBlock == old(tailBlock) && Core(p, p, headIndex) && Content(blocks, order, p, headIndex, log + xs, Pow2(k)) && TailIs(tailBlock, order)
    {
      hide ExplicitProducer.Core, Blocks, Pow2, Content, Place, TailIs;
      var endBlock := tailBlock;
      tailBlock := x;
      assert log + xs[..0] == log;
      WriteElements(xs, endBlock, p);
    }

    lemma MaskFront()
      requires nextSlot < |entries| == Pow2(c) && c <= 64
      ensures And(Sub(nextSlot, 1), |entries| - 1) == Back(nextSlot, 1, |entries|)
    {
      MaskBack(nextSlot, 1, c);
    }

    /**
      enqueue_bulk succeeds, and then appends all elements, exactly when the blocks found ahead suffice or the
      queue is not full and malloc answers the calls that are needed, a number known before the call, which is
      0 exactly when there is room.
     */
    method EnqueueBulk(xs: seq<Value>) returns (ok: bool)
      requires Valid() && |xs| + Pow2(k) <= WORD
      modifies `blocks, `free, `entries, `c, `front, `slotsUsed, `nextSlot, `tailBlock, `order, `tailIndex, `log, `calls
      ensures ok ==> Valid() && log == old(log) + xs
      ensures !ok ==> log == old(log) && tailIndex == old(tailIndex)
      ensures ok <==> NotFull(|old(order)|, old(Published()), headIndex, Pow2(k), Missing(old(tailIndex), |xs|, Pow2(k)))
                      && Granted(malloc, old(calls), old(calls) + old(Needed(|xs|)))
      ensures ok <==> NotFull(|old(order)|, old(Published()), headIndex, Pow2(k), Missing(old(tailIndex), |xs|, Pow2(k))) && Granted(malloc, old(calls), calls)
      ensures old(calls) <= calls <= old(calls) + old(Needed(|xs|)) && (ok ==> calls == old(calls) + old(Needed(|xs|)))
    {
      hide ExplicitProducer.Valid, ExplicitProducer.Preparing, ExplicitProducer.Needed, Pow2, Blocks, Ahead;
      var startBlock := tailBlock;
      var first;
      ghost var r;
      ok, first, r := AllocateBlocks(|xs|);
      if ok { PublishBulk(xs, startBlock, first, r); }
    }
  }
}
