/**
  try_dequeue and size_approx over the list of producers (concurrentqueue.h), as one thread runs them
  undisturbed.  The scan stops at the third non-empty producer and picks the fullest one seen, whose
  dequeue then succeeds.  With other threads at work between the steps, the fullest may appear empty
  and the loop over the other producers is entered: that is module TryDequeueProtocol.
*/
module TryDequeue {
  import opened Options
  import opened Words
  import opened BlockNumbers
  import opened ImplicitQueue

  /** What each producer of the list holds. */
  ghost function Streams(ps: seq<ImplicitProducer>): (ss: seq<seq<Value>>)
    reads ps
    ensures |ss| == |ps| && forall i | 0 <= i < |ps| :: ss[i] == ps[i].Contents()
  {
    if ps == [] then [] else Streams(ps[..|ps| - 1]) + [ps[|ps| - 1].Contents()]
  }

  ghost predicate AllValid(ps: seq<ImplicitProducer>)
    reads ps
  {
    forall i | 0 <= i < |ps| :: ps[i].Valid()
  }

  predicate Distinct(ps: seq<ImplicitProducer>) { forall i, j | 0 <= i < j < |ps| :: ps[i] != ps[j] }

  // ---------------------------------------------------------------- on what the producers hold

  predicate AllEmpty(ss: seq<seq<Value>>) { forall i | 0 <= i < |ss| :: ss[i] == [] }

  function NonEmpty(ss: seq<seq<Value>>): nat {
    if ss == [] then 0 else NonEmpty(ss[..|ss| - 1]) + if ss[|ss| - 1] != [] then 1 else 0
  }

  function Total(ss: seq<seq<Value>>): nat { if ss == [] then 0 else Total(ss[..|ss| - 1]) + |ss[|ss| - 1]| }

  /** Producer b is the first of the fullest among the first n. */
  predicate Fullest(ss: seq<seq<Value>>, n: nat, b: nat) {
    && b < n <= |ss| && ss[b] != []
    && (forall j | 0 <= j < n :: |ss[j]| <= |ss[b]|)
    && (forall j | 0 <= j < b :: |ss[j]| < |ss[b]|)
  }

  /** The scan looks at the producers up to the third non-empty one. */
  predicate ScanEnd(ss: seq<seq<Value>>, n: nat) {
    n <= |ss| && NonEmpty(ss[..n]) <= 3 && (n == |ss| || NonEmpty(ss[..n]) == 3) && (n > 0 ==> NonEmpty(ss[..n - 1]) < 3)
  }

  /** The size that size_approx adds up drops by one with every element taken. */
  lemma {:induction false} TotalDrops(ss: seq<seq<Value>>, b: nat)
    requires b < |ss| && ss[b] != []
    ensures Total(ss[b := ss[b][1..]]) == Total(ss) - 1
  {
    var n := |ss| - 1;
    if b < n {
      TotalDrops(ss[..n], b);
      assert ss[b := ss[b][1..]][..n] == ss[..n][b := ss[b][1..]];
    } else {
      assert ss[b := ss[b][1..]][..n] == ss[..n];
    }
  }

  // ---------------------------------------------------------------- the operations

  lemma SizeIs(p: ImplicitProducer)
    requires p.Valid()
    ensures |p.Contents()| == p.tailIndex - p.headIndex < HALF
  {
    hide Rest, LastOk;
    TailFits(p.tailIndex, Pow2(p.k));
  }

  /** ProducerBase::size_approx, exact when nothing is in progress. */
  function SizeOf(p: ImplicitProducer): (n: nat)
    requires p.Valid()
    reads p
    ensures n == |p.Contents()|
  {
    SizeIs(p);
    SizeSeenExactly(p.headIndex, p.tailIndex);
    SizeSeen(p.headIndex, p.tailIndex)
  }

  /** ConcurrentQueue::size_approx */
  method SizeApprox(ps: seq<ImplicitProducer>) returns (size: nat)
    requires AllValid(ps)
    ensures size == Total(Streams(ps)) % WORD
  {
    hide ImplicitProducer.Valid, Streams, ImplicitProducer.Contents;
    size := 0;
    ghost var ss := Streams(ps);
    var i := 0;
    while i < |ps|
      invariant i <= |ps| && size == Total(ss[..i]) % WORD
    {
      assert ss[..i + 1][..i] == ss[..i];
      size := (size + SizeOf(ps[i])) % WORD;
      i := i + 1;
    }
    assert ss[..|ps|] == ss;
  }

  /** One more producer looked at. */
  lemma ScanOne(ss: seq<seq<Value>>, n: nat)
    requires n < |ss|
    ensures NonEmpty(ss[..n + 1]) == NonEmpty(ss[..n]) + if ss[n] != [] then 1 else 0
  {
    assert ss[..n + 1][..n] == ss[..n];
  }

  /** One producer's dequeue, among the others. */
  method DequeueFrom(ps: seq<ImplicitProducer>, i: nat) returns (r: Option<Value>)
    requires AllValid(ps) && Distinct(ps) && i < |ps|
    modifies ps
    ensures AllValid(ps)
    ensures r == if old(Streams(ps))[i] == [] then None else Some(old(Streams(ps))[i][0])
    ensures Streams(ps) == if old(Streams(ps))[i] == [] then old(Streams(ps)) else old(Streams(ps))[i := old(Streams(ps))[i][1..]]
  {
    hide Streams, ImplicitProducer.Valid, ImplicitProducer.Contents;
    assert ps[i].Valid();
    SizeIs(ps[i]);
    r := ps[i].Dequeue();
    SizeIs(ps[i]);
    forall j | 0 <= j < |ps| ensures ps[j].Valid() && (j != i ==> ps[j].Contents() == old(ps[j].Contents())) {
      assert old(ps[j].Valid());
    }
  }

  /** What the scan has found after n producers, in its variables. */
  predicate Scanned(ss: seq<seq<Value>>, n: nat, count: nat, best: Option<nat>, bestSize: nat) {
    && n <= |ss| && count == NonEmpty(ss[..n]) <= 3 && (n > 0 ==> NonEmpty(ss[..n - 1]) < 3)
    && (best.Some? ==> Fullest(ss, n, best.value) && bestSize == |ss[best.value]|)
  }

  lemma ScannedOne(ss: seq<seq<Value>>, n: nat, count: nat, best: Option<nat>, bestSize: nat, size: nat)
    requires Scanned(ss, n, count, best, bestSize) && count < 3 && n < |ss| && size == |ss[n]|
    requires best == None ==> bestSize == 0 && forall j | 0 <= j < n :: ss[j] == []
    ensures if size > 0 then Scanned(ss, n + 1, count + 1, if size > bestSize then Some(n) else best, if size > bestSize then size else bestSize)
            else Scanned(ss, n + 1, count, best, bestSize)
  {
    hide NonEmpty;
    ScanOne(ss, n);
  }

  /** The scan of try_dequeue: nothing exactly when every producer is empty, otherwise the fullest producer that it saw. */
  method Scan(ps: seq<ImplicitProducer>) returns (best: Option<nat>, n: nat)
    requires AllValid(ps)
    ensures best == None <==> AllEmpty(Streams(ps))
    ensures best.Some? ==> ScanEnd(Streams(ps), n) && Fullest(Streams(ps), n, best.value)
  {
    hide Streams, ImplicitProducer.Contents, ImplicitProducer.Valid, NonEmpty, Scanned, Fullest;
    ghost var ss := Streams(ps);
    var nonEmptyCount, bestSize := 0, 0;
    best, n := None, 0;
    ScannedNone(ss);
    while nonEmptyCount < 3 && n < |ps|
      invariant n <= |ps| && Scanned(ss, n, nonEmptyCount, best, bestSize)
      invariant best == None ==> bestSize == 0 && nonEmptyCount == 0 && forall j | 0 <= j < n :: ss[j] == []
    {
      var size := SizeOf(ps[n]);
      ScannedOne(ss, n, nonEmptyCount, best, bestSize, size);
      if size > 0 {
        if size > bestSize {
          bestSize := size;
          best := Some(n);
        }
        nonEmptyCount := nonEmptyCount + 1;
      }
      n := n + 1;
    }
    if best.Some? { ScannedAll(ss, n, nonEmptyCount, best, bestSize); }
  }

  lemma ScannedNone(ss: seq<seq<Value>>)
    ensures Scanned(ss, 0, 0, None, 0)
  {}

  lemma ScannedAll(ss: seq<seq<Value>>, n: nat, count: nat, best: Option<nat>, bestSize: nat)
    requires Scanned(ss, n, count, best, bestSize) && (count >= 3 || n >= |ss|) && best.Some?
    ensures ScanEnd(ss, n) && Fullest(ss, n, best.value) && !AllEmpty(ss)
  {}

  /**
    try_dequeue, undisturbed: it fails exactly when every producer is empty, and otherwise takes the
    oldest element of the fullest producer of the scan and changes nothing else.
   */
  method Dequeue(ps: seq<ImplicitProducer>) returns (r: Option<Value>, ghost n: nat, ghost from: nat)
    requires AllValid(ps) && Distinct(ps)
    modifies ps
    ensures AllValid(ps)
    ensures r == None <==> AllEmpty(old(Streams(ps)))
    ensures r == None ==> Streams(ps) == old(Streams(ps))
    ensures r.Some? ==> ScanEnd(old(Streams(ps)), n) && Fullest(old(Streams(ps)), n, from) && r.value == old(Streams(ps))[from][0]
                        && Streams(ps) == old(Streams(ps))[from := old(Streams(ps))[from][1..]]
                        && Total(Streams(ps)) == Total(old(Streams(ps))) - 1
  {
    hide AllValid, Streams, ImplicitProducer.Contents, ScanEnd, NonEmpty;
    ghost var was := Streams(ps);
    var best;
    r, from := None, 0;
    best, n := Scan(ps);
    if best == None { return; }
    r := DequeueFrom(ps, best.value);
    from := best.value;
    TotalDrops(was, from);
  }
}
