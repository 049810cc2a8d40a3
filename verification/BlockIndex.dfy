/**
  The circular block index of the implicit producer of concurrentqueue.h: insertion,
  rewinding and growth (insert_block_index_entry, rewind_block_index_tail, new_block_index)
  and the lookup that consumers do in it, possibly in an index that has been replaced since.

  A block is named by its number: the block with base n * BLOCK_SIZE has number n, and a key
  holds the number (the code: the 64-bit image of the base).  Entries are shared between an
  index and the ones that replace it, so they have their own identities.
*/
module BlockIndex {
  import opened Options
  import opened Words

  type EntryId = nat

  /**
    A BlockIndexHeader with 2^c slots.  Auxiliary: block n has slot (n + off) mod 2^c, `tn` is the
    block that the tail slot stands for (-1: none yet) and the blocks below `hi` were inserted here or copied.
   */
  datatype Header = Header(c: nat, tail: nat, index: seq<EntryId>, off: int, hi: nat, tn: int) {
    function Cap(): nat { Pow2(c) }

    function SlotOf(n: int): nat { (n + off) % Cap() }
  }

  /**
    All headers ever made, the current one last, and the keys of all entries.  Auxiliary: the
    blocks in [lo, top) have an entry each; the entries of the blocks below lo may be reused.
   */
  datatype Index = Index(headers: seq<Header>, keys: seq<Option<nat>>, lo: nat, top: nat, entryOf: map<nat, EntryId>) {
    function Cur(): Header
      requires headers != []
    {
      headers[|headers| - 1]
    }
  }

  predicate Distinct(s: seq<EntryId>) { forall i, j | 0 <= i < j < |s| :: s[i] != s[j] }

  /** The blocks in [lo, top) have distinct entries that hold their numbers. */
  ghost predicate WindowOk(ix: Index) {
    && ix.lo <= ix.top
    && (forall n | ix.lo <= n < ix.top :: n in ix.entryOf && ix.entryOf[n] < |ix.keys| && ix.keys[ix.entryOf[n]] == Some(n))
  }

  /** Header h finds every block of the window that it knows in that block's own entry. */
  ghost predicate HeaderOk(ix: Index, h: Header) {
    && |h.index| == h.Cap()
    && h.tail == h.SlotOf(h.tn)
    && (forall i | 0 <= i < |h.index| :: h.index[i] < |ix.keys|)
    && Distinct(h.index)
    && -1 <= h.tn < h.hi <= ix.top
    && h.hi <= ix.lo + h.Cap()
    && (forall n | ix.lo <= n < h.hi :: n in ix.entryOf && h.index[h.SlotOf(n)] == ix.entryOf[n])
  }

  ghost predicate IndexOk(ix: Index) {
    && WindowOk(ix)
    && ix.headers != []
    && (forall i | 0 <= i < |ix.headers| :: HeaderOk(ix, ix.headers[i]))
    && ix.Cur().hi == ix.top
  }

  // ---------------------------------------------------------------- slots of one header

  lemma SlotsApart(h: Header, n: int, m: int)
    requires n < m < n + h.Cap()
    ensures h.SlotOf(n) != h.SlotOf(m)
  {
    var cap := h.Cap();
    var x, y := n + h.off, m + h.off;
    if x % cap == y % cap {
      DivModUnique(y - x, cap, y / cap - x / cap, 0);
      DivModUnique(y - x, cap, 0, y - x);
    }
  }

  lemma SlotWraps(h: Header, n: int)
    ensures h.SlotOf(n) == h.SlotOf(n - h.Cap())
    ensures 0 <= h.SlotOf(n) < h.Cap()
  {
    var cap := h.Cap();
    var x := n + h.off;
    DivModUnique(x - cap, cap, x / cap - 1, x % cap);
  }

  lemma SlotNext(h: Header, n: int, d: int)
    ensures h.SlotOf(n + d) == (h.SlotOf(n) + d) % h.Cap()
  {
    ModAdd(d, n + h.off, h.Cap());
  }

  /** (tail + d) & (capacity - 1), for d of either sign. */
  lemma MaskedSlot(h: Header, n: int, d: nat)
    ensures And(h.SlotOf(n) + d, h.Cap() - 1) == h.SlotOf(n + d)
  {
    AndMask(h.SlotOf(n) + d, h.c);
    SlotNext(h, n, d);
  }

  // ---------------------------------------------------------------- the producer's steps

  function SetCur(ix: Index, h: Header): Index
    requires ix.headers != []
  {
    ix.(headers := ix.headers[|ix.headers| - 1 := h])
  }

  /** (tail + 1) & (capacity - 1) */
  function NewTail(h: Header): nat { And(h.tail + 1, h.Cap() - 1) }

  /** The number of the block that the producer inserts next. */
  function NextBlock(ix: Index): int
    requires ix.headers != []
  {
    ix.Cur().tn + 1
  }

  /** The entry that insert_block_index_entry looks at. */
  function Candidate(ix: Index): EntryId
    requires ix.headers != [] && NewTail(ix.Cur()) < |ix.Cur().index|
  {
    ix.Cur().index[NewTail(ix.Cur())]
  }

  /** idxEntry->key.store(blockStartIndex) */
  function StoreKey(ix: Index): Index
    requires ix.headers != [] && NewTail(ix.Cur()) < |ix.Cur().index| && Candidate(ix) < |ix.keys| && NextBlock(ix) >= 0
  {
    var h, n, e := ix.Cur(), NextBlock(ix), Candidate(ix);
    var ix1 := ix.(keys := ix.keys[e := Some(n)]);
    if n < ix.top then ix1
    else SetCur(ix1, h.(hi := n + 1)).(top := n + 1, entryOf := ix.entryOf[n := e],
                                       lo := if ix.lo <= n - h.Cap() then n + 1 - h.Cap() else ix.lo)
  }

  /** localBlockIndex->tail.store(newTail) */
  function StoreTail(ix: Index): Index
    requires ix.headers != []
  {
    SetCur(ix, ix.Cur().(tail := NewTail(ix.Cur()), tn := ix.Cur().tn + 1))
  }

  /** rewind_block_index_tail */
  function Rewind(ix: Index): Index
    requires ix.headers != []
  {
    var h := ix.Cur();
    SetCur(ix, h.(tail := And(Img(h.tail - 1), h.Cap() - 1), tn := h.tn - 1))
  }

  /** The old entries from the oldest to the newest: prevPos goes from (tail + 1) & (capacity - 1) to tail. */
  function Rotation(h: Header): (r: seq<EntryId>)
    requires |h.index| == h.Cap()
    ensures |r| == h.Cap()
  {
    seq(h.Cap(), j requires 0 <= j < h.Cap() => AndMaskBound(h.tail + 1 + j, h.c); h.index[And(h.tail + 1 + j, h.Cap() - 1)])
  }

  /** new_block_index with an index to replace: twice the slots, the old entries first. */
  function Grow(ix: Index): Index
    requires ix.headers != [] && |ix.Cur().index| == ix.Cur().Cap()
  {
    var h := ix.Cur();
    var cap := h.Cap();
    var added: seq<EntryId> := seq(cap, j requires 0 <= j < cap => |ix.keys| + j);
    ix.(headers := ix.headers + [Header(h.c + 1, cap - 1, Rotation(h) + added, cap - 1 - h.tn, h.hi, h.tn)],
        keys := ix.keys + seq(cap, _ => None))
  }

  lemma AndMaskBound(x: nat, c: nat)
    ensures 0 <= And(x, Pow2(c) - 1) < Pow2(c)
  {
    AndMask(x, c);
  }

  /** The first new_block_index, with 2^c entries that are all free. */
  function FirstIndex(c: nat): Index {
    var cap := Pow2(c);
    Index([Header(c, cap - 1, seq(cap, j requires 0 <= j < cap => j), 0, 0, -1)], seq(cap, _ => None), 0, 0, map[])
  }

  lemma FirstIndexOk(c: nat)
    ensures IndexOk(FirstIndex(c))
  {
    DivModUnique(-1, Pow2(c), -1, Pow2(c) - 1);
  }

  /** Which entry the producer finds for block n = NextBlock(ix). */
  lemma CandidateIs(ix: Index)
    requires IndexOk(ix) && ix.lo <= NextBlock(ix)
    ensures var h, n := ix.Cur(), NextBlock(ix);
            && NewTail(h) == h.SlotOf(n) < |h.index| && Candidate(ix) < |ix.keys| && n <= ix.top
            && (n < ix.top ==> Candidate(ix) == ix.entryOf[n])
            && (n == ix.top && ix.lo + h.Cap() == n ==> Candidate(ix) == ix.entryOf[ix.lo])
            && (n == ix.top && n < ix.lo + h.Cap() ==> forall m | ix.lo <= m < ix.top :: ix.entryOf[m] != Candidate(ix))
  {
    var h, n := ix.Cur(), NextBlock(ix);
    assert HeaderOk(ix, h);
    MaskedSlot(h, h.tn, 1);
    SlotWraps(h, n);
    if n == ix.top && n < ix.lo + h.Cap() {
      forall m | ix.lo <= m < ix.top ensures ix.entryOf[m] != Candidate(ix) {
        SlotsApart(h, m, n);
        SlotWraps(h, m);
      }
    }
  }

  /** Distinct blocks of the window have distinct entries. */
  lemma EntriesApart(ix: Index)
    requires IndexOk(ix)
    ensures forall n, m | ix.lo <= n < ix.top && ix.lo <= m < ix.top && n != m :: ix.entryOf[n] != ix.entryOf[m]
  {
    forall n, m | ix.lo <= n < m < ix.top ensures ix.entryOf[n] != ix.entryOf[m] {
      var h := ix.Cur();
      assert HeaderOk(ix, h);
      SlotsApart(h, n, m);
      SlotWraps(h, n);
      SlotWraps(h, m);
    }
  }

  lemma StoreKeyWindow(ix: Index)
    requires IndexOk(ix) && ix.lo <= NextBlock(ix) && NewTail(ix.Cur()) < |ix.Cur().index| && Candidate(ix) < |ix.keys|
    ensures WindowOk(StoreKey(ix))
  {
    CandidateIs(ix);
    EntriesApart(ix);
    var ix' := StoreKey(ix);
    var e, n := Candidate(ix), NextBlock(ix);
    forall m | ix'.lo <= m < ix'.top ensures m in ix'.entryOf && ix'.entryOf[m] < |ix'.keys| && ix'.keys[ix'.entryOf[m]] == Some(m) {
      if m != n {
        assert m in ix.entryOf && ix.keys[ix.entryOf[m]] == Some(m);
      }
    }
  }

  /** A header stays right while the window only moves up and keeps its entries. */
  lemma HeaderFrame(ix: Index, ix': Index, h: Header)
    requires HeaderOk(ix, h)
    requires |ix.keys| <= |ix'.keys| && ix.lo <= ix'.lo && ix.top <= ix'.top
    requires forall n | ix'.lo <= n < h.hi && n in ix.entryOf :: n in ix'.entryOf && ix'.entryOf[n] == ix.entryOf[n]
    ensures HeaderOk(ix', h)
  {}

  lemma StoreKeyCur(ix: Index)
    requires WindowOk(ix) && ix.headers != [] && HeaderOk(ix, ix.Cur()) && ix.Cur().hi == ix.top && NextBlock(ix) == ix.top
    requires NewTail(ix.Cur()) == ix.Cur().SlotOf(ix.top) < |ix.Cur().index| && Candidate(ix) < |ix.keys|
    ensures HeaderOk(StoreKey(ix), StoreKey(ix).Cur())
  {}

  lemma StoreKeyHeader(ix: Index, i: nat)
    requires IndexOk(ix) && ix.lo <= NextBlock(ix) && NewTail(ix.Cur()) < |ix.Cur().index| && Candidate(ix) < |ix.keys|
    requires i < |ix.headers|
    ensures var ix' := StoreKey(ix); |ix'.headers| == |ix.headers| && HeaderOk(ix', ix'.headers[i])
  {
    CandidateIs(ix);
    var ix' := StoreKey(ix);
    assert HeaderOk(ix, ix.headers[i]);
    if NextBlock(ix) == ix.top && i == |ix.headers| - 1 { StoreKeyCur(ix); } else { HeaderFrame(ix, ix', ix.headers[i]); }
  }

  lemma StoreKeyOk(ix: Index)
    requires IndexOk(ix) && ix.lo <= NextBlock(ix) && NewTail(ix.Cur()) < |ix.Cur().index| && Candidate(ix) < |ix.keys|
    ensures IndexOk(StoreKey(ix)) && NextBlock(StoreKey(ix)) == NextBlock(ix) < StoreKey(ix).top
    ensures NextBlock(ix) in StoreKey(ix).entryOf && StoreKey(ix).entryOf[NextBlock(ix)] == Candidate(ix)
  {
    CandidateIs(ix);
    StoreKeyWindow(ix);
    forall i | 0 <= i < |ix.headers| ensures HeaderOk(StoreKey(ix), StoreKey(ix).headers[i]) { StoreKeyHeader(ix, i); }
  }

  /** Changing the tail of the current header to another block of the window. */
  lemma SetTailOk(ix: Index, tail: nat, tn: int)
    requires IndexOk(ix) && -1 <= tn < ix.top && tail == ix.Cur().SlotOf(tn)
    ensures IndexOk(SetCur(ix, ix.Cur().(tail := tail, tn := tn)))
  {
    hide Pow2;
    var h' := ix.Cur().(tail := tail, tn := tn);
    var ix' := SetCur(ix, h');
    HeaderWithTail(ix, ix.Cur(), tail, tn);
    hide HeaderOk;
    forall i | 0 <= i < |ix'.headers| ensures HeaderOk(ix', ix'.headers[i]) {
      HeaderSame(ix, ix', if i < |ix.headers| - 1 then ix.headers[i] else h');
    }
  }

  lemma HeaderWithTail(ix: Index, h: Header, tail: nat, tn: int)
    requires HeaderOk(ix, h) && -1 <= tn < h.hi && tail == h.SlotOf(tn)
    ensures HeaderOk(ix, h.(tail := tail, tn := tn))
  {
    hide Pow2;
    var h' := h.(tail := tail, tn := tn);
    assert forall n: int :: h'.SlotOf(n) == h.SlotOf(n);
  }

  /** Of the index, a header depends on the keys and the window only. */
  lemma HeaderSame(ix: Index, ix': Index, h: Header)
    requires HeaderOk(ix, h) && ix'.keys == ix.keys && ix'.lo == ix.lo && ix'.top == ix.top && ix'.entryOf == ix.entryOf
    ensures HeaderOk(ix', h)
  {
    hide Pow2;
  }

  lemma StoreTailOk(ix: Index)
    requires IndexOk(ix) && NextBlock(ix) < ix.top
    ensures IndexOk(StoreTail(ix))
  {
    MaskedSlot(ix.Cur(), ix.Cur().tn, 1);
    SetTailOk(ix, NewTail(ix.Cur()), ix.Cur().tn + 1);
  }

  lemma CurHeader(ix: Index)
    requires IndexOk(ix)
    ensures HeaderOk(ix, ix.Cur()) && ix.Cur().tail == ix.Cur().SlotOf(ix.Cur().tn) && ix.Cur().tn < ix.top
  {}

  lemma RewindOk(ix: Index)
    requires IndexOk(ix) && ix.Cur().tn >= 0 && ix.Cur().c <= 64
    ensures IndexOk(Rewind(ix))
  {
    hide And, Img, Pow2, HeaderOk;
    var h := ix.Cur();
    MaskedBack(h, h.tn);
    CurHeader(ix);
    SetTailOk(ix, And(Img(h.tail - 1), h.Cap() - 1), h.tn - 1);
  }

  /** (tail - 1) & (capacity - 1), also when the subtraction wraps. */
  lemma MaskedBack(h: Header, n: int)
    requires h.c <= 64
    ensures And(Img(h.SlotOf(n) - 1), h.Cap() - 1) == h.SlotOf(n - 1)
  {
    WordIsPow2();
    Pow2Sum(h.c, 64 - h.c);
    hide And, Pow2;
    ModTwice(h.SlotOf(n) - 1, h.Cap(), Pow2(64 - h.c));
    AndMask(Img(h.SlotOf(n) - 1), h.c);
    SlotNext(h, n, -1);
  }

  // ---------------------------------------------------------------- growth

  lemma RotationAt(h: Header, j: nat)
    requires |h.index| == h.Cap() && h.tail == h.SlotOf(h.tn) && j < h.Cap()
    ensures 0 <= h.SlotOf(h.tn + 1 + j) < |h.index| && Rotation(h)[j] == h.index[h.SlotOf(h.tn + 1 + j)]
  {
    hide And, Pow2;
    MaskedSlot(h, h.tn, 1 + j);
    SlotWraps(h, h.tn + 1 + j);
  }

  lemma RotationDistinct(h: Header)
    requires |h.index| == h.Cap() && h.tail == h.SlotOf(h.tn) && Distinct(h.index)
    ensures Distinct(Rotation(h)) && forall j | 0 <= j < h.Cap() :: Rotation(h)[j] in h.index
  {
    hide Rotation, Pow2;
    forall j | 0 <= j < h.Cap() ensures Rotation(h)[j] in h.index { RotationAt(h, j); }
    forall i, j | 0 <= i < j < h.Cap() ensures Rotation(h)[i] != Rotation(h)[j] {
      RotationAt(h, i);
      RotationAt(h, j);
      SlotsApart(h, h.tn + 1 + i, h.tn + 1 + j);
    }
  }

  lemma GrowSlots(ix: Index)
    requires ix.headers != [] && HeaderOk(ix, ix.Cur()) && ix.Cur().hi == ix.top
    ensures var h, g := ix.Cur(), Grow(ix).Cur();
            forall n: nat | ix.Cur().tn - h.Cap() < n <= h.tn :: g.SlotOf(n) == n + h.Cap() - 1 - h.tn && g.index[g.SlotOf(n)] == h.index[h.SlotOf(n)]
  {
    hide Rotation;
    var h, g := ix.Cur(), Grow(ix).Cur();
    var cap := h.Cap();
    forall n: nat | h.tn - cap < n <= h.tn
      ensures g.SlotOf(n) == n + cap - 1 - h.tn && g.index[g.SlotOf(n)] == h.index[h.SlotOf(n)]
    {
      var j := n + cap - 1 - h.tn;
      DivModUnique(n + g.off, g.Cap(), 0, j);
      RotationAt(h, j);
      SlotWraps(h, n + cap);
    }
  }

  lemma GrowCur(ix: Index)
    requires WindowOk(ix) && ix.headers != [] && HeaderOk(ix, ix.Cur()) && ix.Cur().hi == ix.top && ix.Cur().tn == ix.top - 1
    ensures HeaderOk(Grow(ix), Grow(ix).Cur())
  {
    var h, g := ix.Cur(), Grow(ix).Cur();
    GrowSlots(ix);
    GrowIndex(ix);
    DivModUnique(h.tn + g.off, g.Cap(), 0, h.Cap() - 1);
  }

  /** The new index has no entry twice, the copied ones before the added ones. */
  lemma GrowIndex(ix: Index)
    requires ix.headers != [] && HeaderOk(ix, ix.Cur())
    ensures var h, g := ix.Cur(), Grow(ix).Cur();
            && |g.index| == g.Cap() == 2 * h.Cap() && Distinct(g.index)
            && (forall i | 0 <= i < |g.index| :: g.index[i] < |Grow(ix).keys|)
            && (forall i | h.Cap() <= i < g.Cap() :: g.index[i] == |ix.keys| + i - h.Cap() && Grow(ix).keys[g.index[i]] == None)
  {
    hide Rotation;
    RotationDistinct(ix.Cur());
  }

  /** Growing preserves what every index finds, and makes room: the next slot holds a fresh entry. */
  lemma GrowOk(ix: Index)
    requires IndexOk(ix) && ix.Cur().tn == ix.top - 1
    ensures IndexOk(Grow(ix)) && NextBlock(Grow(ix)) == NextBlock(ix)
    ensures Grow(ix).Cur().c == ix.Cur().c + 1 && Grow(ix).lo == ix.lo && Grow(ix).entryOf == ix.entryOf && Grow(ix).top == ix.top
    ensures NewTail(Grow(ix).Cur()) < |Grow(ix).Cur().index|
    ensures Candidate(Grow(ix)) == |ix.keys| < |Grow(ix).keys| && Grow(ix).keys[|ix.keys|] == None
  {
    GrowFields(ix);
    GrowHeaders(ix);
    hide HeaderOk, Grow, And, Pow2;
    GrowNext(ix);
  }

  lemma GrowFields(ix: Index)
    requires ix.headers != [] && |ix.Cur().index| == ix.Cur().Cap()
    ensures var ix', h := Grow(ix), ix.Cur();
            && ix'.headers != [] && ix'.Cur().c == h.c + 1 && ix'.lo == ix.lo && ix'.entryOf == ix.entryOf && ix'.top == ix.top && ix'.Cur().hi == h.hi
            && NextBlock(ix') == NextBlock(ix) && |ix.keys| < |ix'.keys|
  {
    hide Rotation;
  }

  lemma GrowHeaders(ix: Index)
    requires IndexOk(ix) && ix.Cur().tn == ix.top - 1
    ensures IndexOk(Grow(ix))
  {
    var ix' := Grow(ix);
    GrowCur(ix);
    GrowFields(ix);
    forall i | 0 <= i < |ix.headers| ensures HeaderOk(ix', ix'.headers[i]) { HeaderFrame(ix, ix', ix.headers[i]); }
    hide HeaderOk, Pow2, Rotation;
  }

  /** The next slot is the first of the added ones. */
  lemma GrowNext(ix: Index)
    requires IndexOk(ix)
    ensures NewTail(Grow(ix).Cur()) < |Grow(ix).Cur().index|
    ensures Candidate(Grow(ix)) == |ix.keys| < |Grow(ix).keys| && Grow(ix).keys[|ix.keys|] == None
  {
    hide Pow2, And, Rotation;
    var cap := ix.Cur().Cap();
    assert HeaderOk(ix, ix.Cur());
    GrowIndex(ix);
    AndMask(cap, Grow(ix).Cur().c);
    DivModUnique(cap, 2 * cap, 0, cap);
  }

  // ---------------------------------------------------------------- the lookup of a consumer

  /**
    A consumer looks for block n.  It has loaded header h, then the tail slot of h while that stood
    for a block p, then the key in that slot; in the meantime the producer may have wrapped around
    the index, rewound it or replaced it.  As long as n is not below the window, the key it reads is
    p's, the slot it computes is n's and the entry there is n's.
   */
  lemma LookupFindsBlock(ix: Index, h: Header, k: nat, i: nat, n: nat, p: nat)
    requires IndexOk(ix) && h in ix.headers && k + h.c <= 64
    requires n == i / Pow2(k) && ix.lo <= n < h.hi && ix.lo <= p < h.hi
    ensures h.SlotOf(p) < |h.index| && h.index[h.SlotOf(p)] < |ix.keys| && ix.keys[h.index[h.SlotOf(p)]] == Some(p)
    ensures Slot(h.SlotOf(p), Img(p * Pow2(k)), Img(i), k, h.c) == h.SlotOf(n) < |h.index|
    ensures n in ix.entryOf && h.index[h.SlotOf(n)] == ix.entryOf[n]
  {
    hide And, Img, Pow2, Slot;
    assert HeaderOk(ix, h);
    SlotWraps(h, p);
    SlotWraps(h, n);
    SlotIsDistance(k, h.c, h.SlotOf(p), p, i);
    SlotNext(h, p, n - p);
  }

  /** The entry that the code's lookup yields for a queue index in header h. */
  function Found(ix: Index, h: Header, tail: nat, i: nat, k: nat): nat
    requires k <= 64 && tail < |h.index| && h.index[tail] < |ix.keys| && ix.keys[h.index[tail]].Some?
  {
    Slot(tail, Img(ix.keys[h.index[tail]].value * Pow2(k)), Img(i), k, h.c)
  }

  predicate CanFind(ix: Index, h: Header, tail: nat, i: nat, k: nat) {
    && k <= 64 && tail < |h.index| && h.index[tail] < |ix.keys| && ix.keys[h.index[tail]].Some?
    && Found(ix, h, tail, i, k) < |h.index| && h.index[Found(ix, h, tail, i, k)] < |ix.keys|
  }

  lemma FindsBlock(k: nat, ix: Index, h: nat, i: nat, n: nat, p: nat)
    requires IndexOk(ix) && h < |ix.headers| && k + ix.headers[h].c <= 64
    requires n == i / Pow2(k) && ix.lo <= n < ix.headers[h].hi && ix.lo <= p < ix.headers[h].hi
    ensures CanFind(ix, ix.headers[h], ix.headers[h].SlotOf(p), i, k)
    ensures Found(ix, ix.headers[h], ix.headers[h].SlotOf(p), i, k) == ix.headers[h].SlotOf(n)
    ensures n in ix.entryOf && ix.headers[h].index[ix.headers[h].SlotOf(n)] == ix.entryOf[n]
  {
    assert HeaderOk(ix, ix.headers[h]);
    LookupFindsBlock(ix, ix.headers[h], k, i, n, p);
  }
}
