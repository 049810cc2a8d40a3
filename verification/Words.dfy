/**
  The 64-bit unsigned arithmetic of concurrentqueue.h.

  Queue indices are modelled as unbounded integers; the code holds their images modulo 2^64.
  The lemmas say when a computation on images agrees with the one on integers.
*/
module Words {

  // ---------------------------------------------------------------- powers of two

  function Pow2(k: nat): (p: nat)
    ensures p > 0
  {
    if k == 0 then 1 else 2 * Pow2(k - 1)
  }

  lemma {:induction false} Pow2Sum(a: nat, b: nat)
    ensures Pow2(a + b) == Pow2(a) * Pow2(b)
  {
    if a > 0 {
      Pow2Sum(a - 1, b);
      TwiceProduct(Pow2(a - 1), Pow2(b), Pow2(a));
    }
  }

  lemma TwiceProduct(x: nat, y: nat, z: nat)
    requires z == 2 * x
    ensures z * y == 2 * (x * y)
  {}

  lemma {:induction false} Pow2Less(a: nat, b: nat)
    requires a < b
    ensures Pow2(a) < Pow2(b) && 2 * Pow2(a) <= Pow2(b)
  {
    if a + 1 < b { Pow2Less(a, b - 1); }
  }

  const WORD := 0x1_0000_0000_0000_0000
  const HALF := 0x8000_0000_0000_0000

  lemma WordIsPow2()
    ensures WORD == Pow2(64) && HALF == Pow2(63)
  {
    assert Pow2(1) == 2 && Pow2(2) == 4 && Pow2(3) == 8 && Pow2(4) == 16;
    Pow2Sum(4, 4);
    assert Pow2(8) == 0x100;
    Pow2Sum(8, 8);
    assert Pow2(16) == 0x1_0000;
    Pow2Sum(16, 16);
    assert Pow2(32) == 0x1_0000_0000;
    Pow2Sum(32, 32);
    assert Pow2(64) == 2 * Pow2(63);
  }

  // ---------------------------------------------------------------- division by a positive number

  lemma MulGap(d: int, b: int)
    requires b > 0
    ensures d >= 1 ==> d * b >= b
    ensures d <= -1 ==> d * b <= -b
  {}

  /** Quotient and remainder are determined by their defining equation. */
  lemma DivModUnique(x: int, b: int, q: int, r: int)
    requires b > 0 && x == q * b + r && 0 <= r < b
    ensures x / b == q && x % b == r
  {
    var q', r' := x / b, x % b;
    assert x == q' * b + r';
    assert (q - q') * b == r' - r;
    MulGap(q - q', b);
  }

  lemma Distribute(e: int, q: int, r: int, b: int)
    ensures (e * q + r) * b == e * (q * b) + r * b
  {
    assert (e * q) * b == e * (q * b);
  }

  lemma MulPositive(q: int, b: int)
    requires q > 0 && b > 0
    ensures q * b > 0
  {}

  lemma MulBetween(r: int, q: int, b: int)
    requires 0 <= r < q && b > 0
    ensures 0 <= r * b < q * b
  {}

  lemma ModScale(d: int, q: int, b: int)
    requires q > 0 && b > 0
    ensures q * b > 0 && (d * b) % (q * b) == (d % q) * b && ((d % q) * b) / b == d % q
  {
    var e, r := d / q, d % q;
    MulPositive(q, b);
    Distribute(e, q, r, b);
    MulBetween(r, q, b);
    DivModUnique(d * b, q * b, e, r * b);
    DivModUnique(r * b, b, r, 0);
  }

  lemma ModTwice(x: int, c: int, q: int)
    requires c > 0 && q > 0
    ensures c * q > 0 && (x % (c * q)) % c == x % c
  {
    assert c * q > 0;
    var e, r := x / (c * q), x % (c * q);
    var f, u := r / c, r % c;
    assert x == e * (c * q) + r == (e * q + f) * c + u;
    DivModUnique(x, c, e * q + f, u);
  }

  lemma ModAdd(x: int, y: int, c: int)
    requires c > 0
    ensures (x + y % c) % c == (x + y) % c
  {
    var e, r := y / c, y % c;
    var f, u := (x + r) / c, (x + r) % c;
    assert x + y == (e + f) * c + u;
    DivModUnique(x + y, c, e + f, u);
  }

  // ---------------------------------------------------------------- images

  /** The 64-bit image of an index. */
  function Img(n: int): nat { n % WORD }

  /** Subtraction of two words. */
  function Sub(a: nat, b: nat): nat { (a - b) % WORD }

  /** circular_less_than<uint64_t> */
  predicate CircularLess(a: nat, b: nat) { Sub(a, b) > HALF }

  lemma SubImages(x: int, y: int)
    ensures Sub(Img(x), Img(y)) == Img(x - y)
  {
    var e, f := x / WORD, y / WORD;
    var d := Img(x) - Img(y);
    assert x - y == (e - f + d / WORD) * WORD + d % WORD;
    DivModUnique(x - y, WORD, e - f + d / WORD, d % WORD);
  }

  /** On images, circular_less_than holds exactly when y is ahead of x by less than half the range. */
  lemma CircularLessExact(x: int, y: int)
    ensures CircularLess(Img(x), Img(y)) <==> 0 < (y - x) % WORD < HALF
  {
    SubImages(x, y);
    var q, r := (x - y) / WORD, (x - y) % WORD;
    if r == 0 {
      DivModUnique(y - x, WORD, -q, 0);
    } else {
      assert y - x == (-q - 1) * WORD + (WORD - r);
      DivModUnique(y - x, WORD, -q - 1, WORD - r);
    }
  }

  predicate Close(x: int, y: int) { -HALF < x - y < HALF }

  /** For indices less than half the range apart it is the order of the integers. */
  lemma CircularLessIsLess(x: int, y: int)
    requires Close(x, y)
    ensures CircularLess(Img(x), Img(y)) <==> x < y
  {
    CircularLessExact(x, y);
    if x <= y { DivModUnique(y - x, WORD, 0, y - x); } else { DivModUnique(y - x, WORD, -1, y - x + WORD); }
  }

  /** size_approx, for a tail read before the head. */
  function SizeSeen(head: nat, tail: nat): nat { if CircularLess(Img(head), Img(tail)) then Sub(Img(tail), Img(head)) else 0 }

  lemma SizeSeenExactly(head: nat, tail: nat)
    requires Close(head, tail)
    ensures SizeSeen(head, tail) == if head < tail then tail - head else 0
  {
    hide CircularLess, Img, Sub;
    CircularLessIsLess(head, tail);
    SubImages(tail, head);
    if head < tail { ImgSmall(tail - head); }
  }

  lemma ImgSmall(n: int)
    ensures 0 <= n < WORD ==> Img(n) == n
    ensures -WORD <= n < 0 ==> Img(n) == n + WORD
  {}

  // ---------------------------------------------------------------- masks

  /** Bitwise and. */
  function And(x: nat, y: nat): nat
    decreases x
  {
    if x == 0 || y == 0 then 0 else 2 * And(x / 2, y / 2) + (x % 2) * (y % 2)
  }

  /** x & (2^k - 1) */
  lemma {:induction false} AndMask(x: nat, k: nat)
    ensures And(x, Pow2(k) - 1) == x % Pow2(k)
    decreases k
  {
    if k == 0 {
    } else if x > 0 {
      AndMask(x / 2, k - 1);
      var p := Pow2(k - 1);
      assert (2 * p - 1) / 2 == p - 1 && (2 * p - 1) % 2 == 1;
      HalveMod(x, k);
    } else {
      DivModUnique(0, Pow2(k), 0, 0);
    }
  }

  /** ~(2^k - 1) on words of w bits. */
  function HighMask(w: nat, k: nat): nat
    requires k <= w
  {
    if k < w then Pow2Less(k, w); Pow2(w) - Pow2(k) else 0
  }

  lemma HighMaskHalves(w: nat, k: nat)
    requires 0 < k <= w
    ensures HighMask(w, k) / 2 == HighMask(w - 1, k - 1) && HighMask(w, k) % 2 == 0
  {}

  lemma HalveMod(x: nat, k: nat)
    requires k > 0
    ensures x % Pow2(k) == 2 * ((x / 2) % Pow2(k - 1)) + x % 2
  {
    var q := Pow2(k - 1);
    var e, r := (x / 2) / q, (x / 2) % q;
    assert x == e * (2 * q) + (2 * r + x % 2);
    DivModUnique(x, 2 * q, e, 2 * r + x % 2);
  }

  lemma AndEven(x: nat, y: nat)
    requires y % 2 == 0
    ensures And(x, y) == 2 * And(x / 2, y / 2)
  {}

  /** x & ~(2^k - 1) on words of w bits. */
  lemma {:induction false} AndClear(x: nat, k: nat, w: nat)
    requires k <= w && x < Pow2(w)
    ensures And(x, HighMask(w, k)) == x - x % Pow2(k)
    decreases w
  {
    if k == 0 {
      assert Pow2(0) == 1 && HighMask(w, 0) == Pow2(w) - 1;
      AndMask(x, w);
      DivModUnique(x, Pow2(w), 0, x);
    } else if k == w {
      DivModUnique(x, Pow2(w), 0, x);
    } else if x == 0 {
      DivModUnique(0, Pow2(k), 0, 0);
    } else {
      AndClear(x / 2, k - 1, w - 1);
      HighMaskHalves(w, k);
      HalveMod(x, k);
      AndEven(x, HighMask(w, k));
    }
  }

  /** The base of the block that holds an index: index & ~(BLOCK_SIZE - 1). */
  lemma BlockBase(n: int, k: nat)
    requires k <= 64
    ensures And(Img(n), HighMask(64, k)) == Img(n - n % Pow2(k))
  {
    hide And, HighMask, Pow2;
    WordIsPow2();
    AndClear(Img(n), k, 64);
    Pow2Sum(64 - k, k);
    BaseImage(n, Pow2(k), Pow2(64 - k));
  }

  lemma BaseImage(n: int, b: int, p: int)
    requires b > 0 && p > 0 && WORD == p * b
    ensures Img(n) - Img(n) % b == Img(n - n % b)
  {
    ModTwice(n, b, p);
    var q, m := n / WORD, Img(n) - n % b;
    DivModUnique(n - n % b, WORD, q, m);
  }

  // ---------------------------------------------------------------- looking up a block

  /**
    The slot computed by get_block_index_index_for_index for a queue index, from the slot and the
    key of the index tail, with blocks of 2^k elements and 2^c slots.  BLOCK_SIZE is an unsigned
    constant, so the code divides the difference as an unsigned word.
   */
  function Slot(tailSlot: nat, tailKey: nat, index: nat, k: nat, c: nat): nat
    requires k <= 64
  {
    And((tailSlot + Sub(And(index, HighMask(64, k)), tailKey) / Pow2(k)) % WORD, Pow2(c) - 1)
  }

  /** The slot found for index i, when the tail slot belongs to block m, is the true distance away. */
  ghost predicate SlotAgrees(k: nat, c: nat, tailSlot: nat, m: int, i: int)
    requires k <= 64
  {
    Slot(tailSlot, Img(m * Pow2(k)), Img(i), k, c) == (tailSlot + i / Pow2(k) - m) % Pow2(c)
  }

  lemma BaseOfBlock(i: int, b: nat)
    requires b > 0
    ensures i - i % b == (i / b) * b
  {}

  lemma Minus(x: int, y: int, b: int)
    ensures x * b - y * b == (x - y) * b
  {}

  lemma ImgScale(d: int, k: nat)
    requires k <= 64
    ensures Img(d * Pow2(k)) / Pow2(k) == d % Pow2(64 - k)
  {
    WordIsPow2();
    Pow2Sum(64 - k, k);
    hide Pow2;
    ModScale(d, Pow2(64 - k), Pow2(k));
  }

  /** The unsigned quotient of the difference of two block bases. */
  lemma BlockOffset(m: int, i: int, k: nat)
    requires k <= 64
    ensures Sub(And(Img(i), HighMask(64, k)), Img(m * Pow2(k))) / Pow2(k) == (i / Pow2(k) - m) % Pow2(64 - k)
  {
    hide And, HighMask, Img, Sub, Pow2;
    var b, n := Pow2(k), i / Pow2(k);
    BlockBase(i, k);
    BaseOfBlock(i, b);
    SubImages(n * b, m * b);
    Minus(n, m, b);
    ImgScale(n - m, k);
  }

  /** Also for a tail ahead of the index, where the difference is negative. */
  lemma SlotIsDistance(k: nat, c: nat, tailSlot: nat, m: int, i: int)
    requires k + c <= 64
    ensures SlotAgrees(k, c, tailSlot, m, i)
  {
    hide And, HighMask, Img, Sub, Pow2;
    var cap, q, d := Pow2(c), Pow2(64 - k), i / Pow2(k) - m;
    BlockOffset(m, i, k);
    var x := tailSlot + d % q;
    AndMask(x % WORD, c);
    WordIsPow2();
    Pow2Sum(c, 64 - c);
    ModTwice(x, cap, Pow2(64 - c));
    Pow2Sum(c, 64 - k - c);
    ModTwice(d, cap, Pow2(64 - k - c));
    ModAdd(tailSlot, d % q, cap);
    ModAdd(tailSlot, d, cap);
  }

  /** The bound on the capacity is needed: one slot before a tail in slot 0 comes out wrong without it. */
  lemma SlotNeedsRoom(k: nat, c: nat)
    requires k <= 64 && c <= 64 && k + c > 64
    ensures !SlotAgrees(k, c, 0, 1, 0)
  {
    hide And, HighMask, Sub, Pow2;
    var cap, q := Pow2(c), Pow2(64 - k);
    BlockOffset(1, 0, k);
    DivModUnique(0, Pow2(k), 0, 0);
    DivModUnique(-1, q, -1, q - 1);
    DivModUnique(-1, cap, -1, cap - 1);
    Pow2Less(64 - k, c);
    WordIsPow2();
    if c < 64 { Pow2Less(c, 64); }
    DivModUnique(q - 1, WORD, 0, q - 1);
    AndMask(q - 1, c);
    DivModUnique(q - 1, cap, 0, q - 1);
  }

  /** The lookup is right for all tails and indices exactly when the slots fit in the index space. */
  lemma SlotExact(k: nat, c: nat)
    requires k <= 64 && c <= 64
    ensures (forall tailSlot: nat, m: int, i: int :: SlotAgrees(k, c, tailSlot, m, i)) <==> k + c <= 64
  {
    if k + c <= 64 {
      forall tailSlot: nat, m: int, i: int ensures SlotAgrees(k, c, tailSlot, m, i) {
        SlotIsDistance(k, c, tailSlot, m, i);
      }
    } else {
      SlotNeedsRoom(k, c);
    }
  }
}
