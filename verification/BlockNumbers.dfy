/** Which block a queue index of concurrentqueue.h is in, where in the block, and how many blocks a queue takes. */
module BlockNumbers {
  import opened Words

  /** The number of the block of index i, with b elements a block: i / b. */
  function Blk(i: nat, b: nat): nat
    requires b > 0
    decreases i
  {
    if i < b then 0 else 1 + Blk(i - b, b)
  }

  /** The position of index i in its block: i mod b. */
  function Pos(i: nat, b: nat): nat
    requires b > 0
    decreases i
  {
    if i < b then i else Pos(i - b, b)
  }

  /** The first index of block n. */
  function Base(n: nat, b: nat): nat { if n == 0 then 0 else Base(n - 1, b) + b }

  /** How many blocks the first x indices take. */
  function Blocks(x: nat, b: nat): nat
    requires b > 0
  {
    if x == 0 then 0 else Blk(x - 1, b) + 1
  }

  lemma {:induction false} BlkPos(i: nat, b: nat)
    requires b > 0
    ensures Blk(i, b) == i / b && Pos(i, b) == i % b && Pos(i, b) < b
    ensures i == Base(Blk(i, b), b) + Pos(i, b)
    decreases i
  {
    if i < b {
      DivModUnique(i, b, 0, i);
    } else {
      BlkPos(i - b, b);
      DivModUnique(i, b, (i - b) / b + 1, (i - b) % b);
    }
  }

  lemma PosIn(i: nat, b: nat)
    requires b > 0
    ensures Pos(i, b) < b && i == Base(Blk(i, b), b) + Pos(i, b)
  {
    BlkPos(i, b);
  }

  lemma {:induction false} BaseMonotone(n: nat, m: nat, b: nat)
    requires n < m
    ensures Base(n, b) + b <= Base(m, b)
  {
    if n + 1 < m { BaseMonotone(n, m - 1, b); }
  }

  /** i is in block n exactly when it is not before it and not after it. */
  lemma InBlock(i: nat, n: nat, b: nat)
    requires b > 0
    ensures Blk(i, b) == n <==> Base(n, b) <= i < Base(n, b) + b
    ensures Blk(i, b) < n <==> i < Base(n, b)
  {
    BlkPos(i, b);
    if Blk(i, b) < n { BaseMonotone(Blk(i, b), n, b); }
    if n < Blk(i, b) { BaseMonotone(n, Blk(i, b), b); }
  }

  lemma {:induction false} BlkMonotone(i: nat, j: nat, b: nat)
    requires b > 0 && i <= j
    ensures Blk(i, b) <= Blk(j, b)
    decreases j
  {
    if j >= b && i >= b { BlkMonotone(i - b, j - b, b); }
  }

  /** The block of the index after the first x ones. */
  lemma BlocksAt(x: nat, b: nat)
    requires b > 0
    ensures Pos(x, b) == 0 ==> Blk(x, b) == Blocks(x, b)
    ensures Pos(x, b) != 0 ==> Blk(x, b) + 1 == Blocks(x, b)
  {
    BlkPos(x, b);
    if x > 0 {
      BlkPos(x - 1, b);
      InBlock(x - 1, Blk(x, b), b);
      if Pos(x, b) == 0 {
        InBlock(x, Blk(x - 1, b) + 1, b);
        BlkMonotone(x - 1, x, b);
      }
    }
  }

  /** Indices below x are in the first Blocks(x) blocks, and those in later blocks are not below x. */
  lemma BlocksCover(i: nat, x: nat, b: nat)
    requires b > 0
    ensures i < x ==> Blk(i, b) < Blocks(x, b)
    ensures Blk(i, b) >= Blocks(x, b) ==> i >= x
  {
    if i < x { BlkMonotone(i, x - 1, b); }
  }

  lemma BlocksMonotone(x: nat, y: nat, b: nat)
    requires b > 0 && x <= y
    ensures Blocks(x, b) <= Blocks(y, b)
  {
    if x > 0 { BlkMonotone(x - 1, y - 1, b); }
  }

  lemma BlocksFloor(x: nat, b: nat)
    requires b > 0
    ensures Blocks(x, b) == (x - 1) / b + 1
  {
    if x == 0 { DivModUnique(-1, b, -1, b - 1); } else { BlkPos(x - 1, b); }
  }

  /**
    blockBaseDiff, computed on 64-bit words: as many blocks as the loop must allocate, also for an
    empty queue, where startTailIndex - 1 wraps around.
   */
  lemma BlockBaseDiff(k: nat, start: nat, count: nat)
    requires k <= 64 && (Blocks(start + count, Pow2(k)) - Blocks(start, Pow2(k))) * Pow2(k) < WORD
    ensures var mask := HighMask(64, k);
            Sub(And(Img(start + count - 1), mask), And(Img(start - 1), mask)) == (Blocks(start + count, Pow2(k)) - Blocks(start, Pow2(k))) * Pow2(k)
  {
    hide And, HighMask, Img, Sub, Blocks, Pow2;
    var b := Pow2(k);
    var x, y := start + count - 1, start - 1;
    BlockBase(x, k);
    BlockBase(y, k);
    BaseOfBlock(x, b);
    BaseOfBlock(y, b);
    SubImages((x / b) * b, (y / b) * b);
    BlocksFloor(start + count, b);
    BlocksFloor(start, b);
    BlocksMonotone(start, start + count, b);
    var d := x / b - y / b;
    Minus(x / b, y / b, b);
    ImgSmall(d * b);
  }

  /** Less than one block more than the elements themselves. */
  lemma BlocksFit(x: nat, count: nat, b: nat)
    requires b > 0
    ensures 0 <= Blocks(x + count, b) - Blocks(x, b)
    ensures (Blocks(x + count, b) - Blocks(x, b)) * b < count + b
  {
    hide Blocks;
    BlocksFloor(x + count, b);
    BlocksFloor(x, b);
    BlocksMonotone(x, x + count, b);
    var y, z := x + count - 1, x - 1;
    Minus(y / b, z / b, b);
    BaseOfBlock(y, b);
    BaseOfBlock(z, b);
  }

  lemma {:induction false} BaseTimes(n: nat, b: nat)
    ensures Base(n, b) == n * b
  {
    if n > 0 { BaseTimes(n - 1, b); }
  }

  /** The loop over blockBaseDiff runs once for every block that is missing. */
  lemma BlocksToAllocate(k: nat, start: nat, count: nat)
    requires k <= 64 && count + Pow2(k) <= WORD
    ensures Blocks(start, Pow2(k)) <= Blocks(start + count, Pow2(k))
    ensures var mask := HighMask(64, k);
            Sub(And(Img(start + count - 1), mask), And(Img(start - 1), mask)) == Base(Blocks(start + count, Pow2(k)) - Blocks(start, Pow2(k)), Pow2(k))
  {
    hide And, HighMask, Img, Sub, Blocks, Pow2, Base;
    BlocksFit(start, count, Pow2(k));
    BlockBaseDiff(k, start, count);
    BaseTimes(Blocks(start + count, Pow2(k)) - Blocks(start, Pow2(k)), Pow2(k));
  }

  // ---------------------------------------------------------------- ranges of indices, block by block

  /** The end of the block of index i, or the end of the range. */
  function StopIndex(i: nat, end: nat, b: nat): (s: nat)
    requires b > 0
    ensures i <= end ==> i <= s <= end
  {
    InBlock(i, Blk(i, b), b);
    var stop := Base(Blk(i, b), b) + b;
    if end < stop then end else stop
  }

  /** The block of index i is the last one of the range, or the range goes on in the next. */
  lemma LastOrNext(begin: nat, i: nat, end: nat, b: nat)
    requires b > 0 && begin <= i < end
    ensures var stop := StopIndex(i, end, b);
            && i < stop <= end && Blk(begin, b) <= Blk(i, b)
            && (forall j: nat | i <= j < stop :: Blk(j, b) == Blk(i, b))
            && (if Blk(end - 1, b) == Blk(i, b) then stop == end else stop < end && Blk(stop, b) == Blk(i, b) + 1)
  {
    var stop, n := StopIndex(i, end, b), Blk(i, b);
    BlkMonotone(begin, i, b);
    BlkMonotone(i, end - 1, b);
    InBlock(i, n, b);
    InBlock(end - 1, n, b);
    InBlock(end - 1, n + 1, b);
    InBlock(stop, n + 1, b);
    forall j: nat | i <= j < stop ensures Blk(j, b) == n { InBlock(j, n, b); }
  }

  /** The last element of a bulk is in its last block. */
  lemma LastOfBulk(tail: nat, count: nat, b: nat)
    requires b > 0
    ensures count > 0 ==> Blk(tail + count - 1, b) + 1 == Blocks(tail + count, b)
    ensures count > 0 ==> Blk(tail, b) < Blocks(tail + count, b)
  {
    if count > 0 { BlkMonotone(tail, tail + count - 1, b); }
  }

  lemma OneMoreBlock(x: nat, b: nat)
    requires b > 0
    ensures Blocks(x + 1, b) == Blk(x, b) + 1
  {}

  lemma PartOf(from: nat, stop: nat, b: nat)
    requires b > 0 && from <= stop <= Base(Blk(from, b), b) + b
    ensures forall i: nat | from <= i < stop :: Blk(i, b) == Blk(from, b)
  {
    InBlock(from, Blk(from, b), b);
    forall i: nat | from <= i < stop ensures Blk(i, b) == Blk(from, b) { InBlock(i, Blk(from, b), b); }
  }

  lemma OneIn(i: nat, b: nat)
    requires b > 0
    ensures i + 1 <= Base(Blk(i, b), b) + b
  {
    InBlock(i, Blk(i, b), b);
  }

  lemma StopOk(i: nat, end: nat, b: nat)
    requires b > 0 && i <= end
    ensures var stop := StopIndex(i, end, b);
            && i <= stop <= end && stop <= Base(Blk(i, b), b) + b && (i < end ==> i < stop)
            && (stop < end ==> Blk(stop, b) == Blk(i, b) + 1)
  {
    var n := Blk(i, b);
    InBlock(i, n, b);
    InBlock(StopIndex(i, end, b), n + 1, b);
  }

  // ---------------------------------------------------------------- when an enqueue finds the queue full

  /** How many blocks n more elements take. */
  function Missing(tail: nat, n: nat, b: nat): nat
    requires b > 0
  {
    BlocksMonotone(tail, tail + n, b);
    Blocks(tail + n, b) - Blocks(tail, b)
  }

  /** With n more elements the last block still ends less than 2^63 after the head, or no block is needed. */
  predicate Fits(head: nat, tail: nat, n: nat, b: nat)
    requires b > 0
  {
    Blocks(tail + n, b) == Blocks(tail, b) || Base(Blocks(tail + n, b), b) - head < HALF
  }

  /** The test of the code for one more block after p of them. */
  lemma FullGuard(k: nat, p: nat, head: nat)
    requires k <= 63 && head <= Base(p, Pow2(k)) && Base(p, Pow2(k)) - head < HALF
    ensures CircularLess(Img(head), Img(Base(p, Pow2(k)) + Pow2(k))) <==> Base(p + 1, Pow2(k)) - head < HALF
    ensures Base(p + 1, Pow2(k)) == Base(p, Pow2(k)) + Pow2(k)
  {
    WordIsPow2();
    if k < 63 { Pow2Less(k, 63); }
    hide CircularLess, Img;
    var d := Base(p, Pow2(k)) + Pow2(k) - head;
    CircularLessExact(head, Base(p, Pow2(k)) + Pow2(k));
    DivModUnique(d, WORD, 0, d);
  }

  /** Blocks that end less than 2^63 after the head are fewer than the slots of the largest index. */
  lemma IndexSmall(k: nat, c: nat, head: nat, n: nat)
    requires Base(n + 1, Pow2(k)) - head < HALF && n - Blk(head, Pow2(k)) >= Pow2(c)
    ensures k + c < 64
  {
    hide Blk;
    var b, f := Pow2(k), Blk(head, Pow2(k));
    PosIn(head, b);
    BaseTimes(n, b);
    BaseTimes(f, b);
    Minus(n, f, b);
    Pow2Sum(c, k);
    AtLeast(n - f, Pow2(c), b);
    WordIsPow2();
    if k + c >= 64 { Pow2Less(63, k + c); }
  }

  lemma NoneYet(b: nat)
    ensures Base(0, b) == 0
  {}

  lemma OneBlock(n: nat, m: nat, b: nat)
    requires b > 0 && Base(n, b) > 0
    ensures n > 0 && Base(n - 1, b) == Base(n, b) - b && Base(m + 1, b) == Base(m, b) + b
  {}

  lemma NoBlocks(n: nat, b: nat)
    requires b > 0 && Base(n, b) == 0
    ensures n == 0
  {}

  lemma BaseUpTo(n: nat, m: nat, b: nat)
    requires n <= m
    ensures Base(n, b) <= Base(m, b)
  {
    if n < m { BaseMonotone(n, m, b); }
  }

  lemma AtLeast(x: nat, y: nat, b: nat)
    requires x >= y
    ensures x * b >= y * b
  {}

  lemma TailFits(tail: nat, b: nat)
    requires b > 0
    ensures tail <= Base(Blocks(tail, b), b)
  {
    if tail > 0 { PosIn(tail - 1, b); }
  }
}
