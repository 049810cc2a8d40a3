/**
  The shuffle buffer of poll_handler (server.cpp): every event becomes one job, jobs are flushed in
  batches of BUFFER_SHUFFLING or on a timeout, each batch shuffled and handed to the producer of
  module ImplicitQueue.  Shuffling is any sequence of exchanges.  enqueue_bulk may refuse a batch;
  poll_handler does not look at its result.  The class is about calls that no worker overlaps; for workers
  that claim and release meanwhile the batches are the bulks of a run of module ImplicitProtocol.
*/
module Batching {
  import opened Jobs
  import opened Options
  import opened Words
  import opened BlockNumbers
  import opened Allocation
  import opened Bulks
  import opened ImplicitQueue
  import Protocol = ImplicitProtocol
  import Runs = ImplicitProtocolRuns
  import Bulking = ImplicitProtocolBulks
  import Housing = ImplicitProtocolBlocks
  import Backing = ImplicitProtocolProvided

  /** What one round of epoll_wait yields: an error, a timeout, or the jobs that its events ask for. */
  datatype Poll = Error | Timeout | Events(jobs: seq<Socks>)

  /**
    The jobs of a flush as they arrived and, shuffled, as the bulk that enqueue_bulk accepted or not.
    What could be known before a call that no worker overlaps: whether the queue had index space for them,
    how often malloc had been called, and how many more calls they needed.
   */
  datatype Batch = Batch(arrived: seq<Socks>, bulk: Bulk, timeout: bool, fits: bool, calls: nat, needed: nat)

  // ---------------------------------------------------------------- all batches together

  function Arrived(bs: seq<Batch>): seq<Socks> { if bs == [] then [] else Arrived(bs[..|bs| - 1]) + bs[|bs| - 1].arrived }

  function BulksOf(bs: seq<Batch>): (r: seq<Bulk>)
    ensures |r| == |bs|
  {
    seq(|bs|, i requires 0 <= i < |bs| => bs[i].bulk)
  }

  /** What the queue has been given. */
  function Enqueued(bs: seq<Batch>): seq<Socks> { Contents(BulksOf(bs)) }

  /** There is index space for the batch, and malloc answers the calls that it needs. */
  predicate Provided(b: Batch, malloc: nat -> bool) { b.fits && Granted(malloc, b.calls, b.calls + b.needed) }

  /** A batch is a permutation of what arrived, full unless a timeout flushed it. */
  predicate Flushed(b: Batch, size: nat) {
    multiset(b.bulk.jobs) == multiset(b.arrived) && if b.timeout then |b.arrived| < size else |b.arrived| == size
  }

  predicate AllFlushed(bs: seq<Batch>, size: nat) { forall i | 0 <= i < |bs| :: Flushed(bs[i], size) }

  /** And accepted exactly if it is provided for. */
  predicate BatchOk(b: Batch, size: nat, malloc: nat -> bool) { Flushed(b, size) && (b.bulk.ok <==> Provided(b, malloc)) }

  predicate BatchesOk(bs: seq<Batch>, size: nat, malloc: nat -> bool) { forall i | 0 <= i < |bs| :: BatchOk(bs[i], size, malloc) }

  lemma LastBulk(bs: seq<Batch>)
    requires bs != []
    ensures var n := |bs| - 1; Enqueued(bs) == Enqueued(bs[..n]) + if bs[n].bulk.ok then bs[n].bulk.jobs else []
  {
    var n := |bs| - 1;
    assert BulksOf(bs)[..n] == BulksOf(bs[..n]);
  }

  lemma {:induction false} NoMore(bs: seq<Batch>, size: nat)
    requires AllFlushed(bs, size)
    ensures |Enqueued(bs)| <= |Arrived(bs)|
    ensures (exists i :: 0 <= i < |bs| && !bs[i].bulk.ok && bs[i].arrived != []) ==> |Enqueued(bs)| < |Arrived(bs)|
  {
    if bs != [] {
      var n := |bs| - 1;
      NoMore(bs[..n], size);
      LastBulk(bs);
      SameLength(bs[n], size);
      if i :| 0 <= i < n && !bs[i].bulk.ok && bs[i].arrived != [] { assert bs[..n][i] == bs[i]; }
    }
  }

  lemma SameLength(b: Batch, size: nat)
    requires Flushed(b, size)
    ensures |b.bulk.jobs| == |b.arrived|
  {
    assert |multiset(b.bulk.jobs)| == |b.bulk.jobs| && |multiset(b.arrived)| == |b.arrived|;
  }

  /** The queue gets all jobs that were flushed, each as often as it arrived, exactly when it accepted every batch with jobs. */
  lemma NoneRefusedExactly(bs: seq<Batch>, size: nat)
    requires AllFlushed(bs, size)
    ensures multiset(Enqueued(bs)) == multiset(Arrived(bs)) <==> forall i | 0 <= i < |bs| :: bs[i].arrived == [] || bs[i].bulk.ok
  {
    hide Enqueued, Arrived;
    if forall i | 0 <= i < |bs| :: bs[i].arrived == [] || bs[i].bulk.ok {
      AllOk(bs, size);
    } else {
      NoMore(bs, size);
      assert |multiset(Enqueued(bs))| == |Enqueued(bs)| && |multiset(Arrived(bs))| == |Arrived(bs)|;
    }
  }

  lemma {:induction false} AllOk(bs: seq<Batch>, size: nat)
    requires AllFlushed(bs, size) && forall i | 0 <= i < |bs| :: bs[i].arrived == [] || bs[i].bulk.ok
    ensures multiset(Enqueued(bs)) == multiset(Arrived(bs))
  {
    hide Enqueued;
    if bs == [] {
      NoBatches();
    } else {
      var n := |bs| - 1;
      AllOk(bs[..n], size);
      LastBulk(bs);
      assert Flushed(bs[n], size);
      SameLength(bs[n], size);
    }
  }

  lemma NoBatches()
    ensures Enqueued([]) == []
  {}

  /**
    If no worker overlaps the calls, that is exactly when every batch with jobs was provided for: there was
    index space, and malloc had an answer to every call that its blocks and the growth of the index took.
    Any other batch is lost.
   */
  lemma NothingLostExactly(bs: seq<Batch>, size: nat, malloc: nat -> bool)
    requires BatchesOk(bs, size, malloc)
    ensures multiset(Enqueued(bs)) == multiset(Arrived(bs)) <==> forall i | 0 <= i < |bs| :: bs[i].arrived == [] || Provided(bs[i], malloc)
  {
    hide Provided, Enqueued, Arrived, Flushed;
    forall i | 0 <= i < |bs| ensures Flushed(bs[i], size) && (bs[i].bulk.ok <==> Provided(bs[i], malloc)) { assert BatchOk(bs[i], size, malloc); }
    NoneRefusedExactly(bs, size);
  }

  /** When there is no memory to be had, nothing is lost exactly as long as every batch finds room: free blocks and slots. */
  lemma NothingLostWithoutMemory(bs: seq<Batch>, size: nat)
    requires BatchesOk(bs, size, _ => false)
    ensures multiset(Enqueued(bs)) == multiset(Arrived(bs)) <==> forall i | 0 <= i < |bs| :: bs[i].arrived == [] || (bs[i].fits && bs[i].needed == 0)
  {
    var none: nat -> bool := _ => false;
    NothingLostExactly(bs, size, none);
    forall i | 0 <= i < |bs| ensures Provided(bs[i], none) <==> bs[i].fits && bs[i].needed == 0 { NoMemory(none, bs[i].calls, bs[i].needed); }
  }

  lemma NoMemory(malloc: nat -> bool, calls: nat, needed: nat)
    requires forall i: nat :: !malloc(i)
    ensures Granted(malloc, calls, calls + needed) <==> needed == 0
  {
    if needed > 0 { assert !malloc(calls); }
  }

  lemma {:induction false} AddBatch(bs: seq<Batch>, b: Batch, size: nat, malloc: nat -> bool)
    requires BatchesOk(bs, size, malloc) && BatchOk(b, size, malloc)
    ensures BatchesOk(bs + [b], size, malloc) && Arrived(bs + [b]) == Arrived(bs) + b.arrived && (bs + [b])[..|bs|] == bs
    ensures Enqueued(bs + [b]) == if b.bulk.ok then Enqueued(bs) + b.bulk.jobs else Enqueued(bs)
  {
    assert (bs + [b])[..|bs|] == bs;
    LastBulk(bs + [b]);
  }

  // ---------------------------------------------------------------- the batches in the lock-free queue

  /**
    The batches of the poll thread are the bulks of a run of module ImplicitProtocol, in which workers
    claim and read while it enqueues.  Of two places claimed one after the other the first is not of a
    later batch, so that no worker gets a job of a batch once a later claim has gone beyond it.
   */
  lemma NeverInterleaved(bs: seq<Batch>, ss: seq<Protocol.State>, acts: seq<Protocol.Action>, i: nat, j: nat, p: nat, q: nat, m: nat, n: nat)
    requires Runs.IsRun(ss, acts) && Bulking.Finished(ss, acts) == BulksOf(bs)
    requires i < j && Bulking.ClaimedIn(ss, acts, i, p) && Bulking.ClaimedIn(ss, acts, j, q)
    requires OfBulk(BulksOf(bs), m, p) && OfBulk(BulksOf(bs), n, q)
    ensures p < q && m <= n
  {
    Bulking.NeverInterleaved(ss, acts, i, j, p, q, m, n);
  }

  /** What a worker is handed at place p is a job of the one batch that holds the place, and that was accepted. */
  lemma ServedFromBatch(bs: seq<Batch>, size: nat, ss: seq<Protocol.State>, acts: seq<Protocol.Action>, p: nat) returns (m: nat)
    requires AllFlushed(bs, size) && Runs.IsRun(ss, acts) && Runs.AllClaim(acts, 1) && Bulking.Finished(ss, acts) == BulksOf(bs)
    requires p in ss[|acts|].st.delivered
    ensures OfBulk(BulksOf(bs), m, p) && (forall n: nat | OfBulk(BulksOf(bs), n, p) :: n == m)
    ensures bs[m].bulk.ok && ss[|acts|].st.delivered[p] in bs[m].arrived
  {
    hide Protocol.Enabled, Protocol.Next, Runs.Init, Runs.AllClaim, Bulking.Finished, StartOf;
    m := Bulking.ServedFromBulk(ss, acts, p);
    ghost var job := ss[|acts|].st.delivered[p];
    assert Flushed(bs[m], size) && job in bs[m].bulk.jobs;
    assert job in multiset(bs[m].bulk.jobs);
  }

  /** What has been handed out, in the order of the places. */
  function Served(st: Protocol.Store): seq<Socks>
    requires forall i: nat | i < st.head :: i in st.delivered
  {
    seq(st.head, i requires 0 <= i < st.head => st.delivered[i])
  }

  /** The workers have caught up with the poll thread, whose batches are the bulks of the run. */
  ghost predicate CaughtUp(bs: seq<Batch>, size: nat, ss: seq<Protocol.State>, acts: seq<Protocol.Action>) {
    && AllFlushed(bs, size) && Runs.IsRun(ss, acts) && Runs.AllClaim(acts, 1) && Bulking.Finished(ss, acts) == BulksOf(bs)
    && Housing.Quiet(ss[|acts|]) && ss[|acts|].st.head == |ss[|acts|].st.log|
  }

  /** Then every job that was flushed has been handed out, and as often as it arrived, exactly when no batch with jobs was refused. */
  lemma EveryJobServedExactly(bs: seq<Batch>, size: nat, ss: seq<Protocol.State>, acts: seq<Protocol.Action>)
    requires CaughtUp(bs, size, ss, acts)
    ensures forall i: nat | i < ss[|acts|].st.head :: i in ss[|acts|].st.delivered
    ensures multiset(Served(ss[|acts|].st)) == multiset(Arrived(bs)) <==> forall i | 0 <= i < |bs| :: bs[i].arrived == [] || bs[i].bulk.ok
  {
    hide Protocol.Enabled, Protocol.Next, Runs.Init, Runs.AllClaim, Runs.Served, Bulking.Finished, Arrived, AllFlushed;
    NoneRefusedExactly(bs, size);
    Housing.BlocksConserved(ss, acts);
    Runs.AlwaysFifo(ss, acts);
    Bulking.LogIsBulks(ss, acts);
    var s := ss[|acts|];
    AllHandedOut(s);
  }

  /**
    It is so if every batch with jobs was provided for when its call began, and no other thread has taken
    blocks from the pool during the call: whatever the workers did meanwhile.
   */
  lemma EveryJobServed(bs: seq<Batch>, size: nat, ss: seq<Protocol.State>, acts: seq<Protocol.Action>)
    requires CaughtUp(bs, size, ss, acts) && forall i | 0 <= i < |bs| :: bs[i].arrived == [] || Backing.BackedOf(ss, acts)[i]
    ensures forall i: nat | i < ss[|acts|].st.head :: i in ss[|acts|].st.delivered
    ensures multiset(Served(ss[|acts|].st)) == multiset(Arrived(bs))
  {
    hide Protocol.Enabled, Protocol.Next, Runs.Init, Runs.AllClaim, Bulking.Finished, Backing.BackedOf, Arrived, Served, AllFlushed, Housing.Quiet;
    EveryJobServedExactly(bs, size, ss, acts);
    Backing.BackedSucceed(ss, acts);
    forall i | 0 <= i < |bs| ensures bs[i].arrived == [] || bs[i].bulk.ok { assert BulksOf(bs)[i] == bs[i].bulk; }
  }

  lemma AllHandedOut(s: Protocol.State)
    requires Housing.Conserved(s) && Runs.FirstInFirstOut(s) && s.st.head == |s.st.log|
    ensures (forall i: nat | i < s.st.head :: i in s.st.delivered) && Served(s.st) == s.st.log
  {}

  // ---------------------------------------------------------------- the poll loop

  lemma Swapped(s: seq<Socks>, i: nat, j: nat)
    requires i < |s| && j < |s|
    ensures multiset(s[i := s[j]][j := s[i]]) == multiset(s)
  {}

  lemma InBatches(bs: seq<Batch>, m: nat, p: nat)
    requires OfBulk(BulksOf(bs), m, p)
    ensures m < |bs| && BulksOf(bs)[m] == bs[m].bulk
  {}

  /** So many batches of this size and the jobs that wait are all that have come. */
  predicate Tally(batches: int, waiting: int, size: nat, all: nat) { batches * size + waiting == all }

  lemma TallyStarts(size: nat, waiting: nat)
    ensures Tally(0, waiting, size, waiting)
  {}

  /** One more job waits, or is the last of a batch. */
  lemma TallyGoesOn(batches: int, waiting: int, size: nat, all: nat)
    requires Tally(batches, waiting, size, all)
    ensures Tally(batches, waiting + 1, size, all + 1) && (waiting + 1 == size ==> Tally(batches + 1, 0, size, all + 1))
  {}

  lemma TallyIs(batches: int, waiting: int, size: nat, all: nat)
    requires Tally(batches, waiting, size, all) && 0 <= waiting < size
    ensures all / size == batches && all % size == waiting
  {
    DivModUnique(all, size, batches, waiting);
  }

  class PollHandler {
    const size: nat                 // BUFFER_SHUFFLING
    const queue: ImplicitProducer   // the producer of the poll thread
    var buffer: seq<Socks>
    var waiting: nat
    ghost var batches: seq<Batch>

    constructor (size: nat, queue: ImplicitProducer)
      requires size >= 1 && queue.Valid() && queue.log == [] && size + Pow2(queue.k) <= WORD
      ensures Valid() && batches == [] && Seen() == [] && this.size == size && this.queue == queue
    {
      this.size, this.queue := size, queue;
      buffer := seq(size, _ => Socks(-1, -1, -1));
      waiting, batches := 0, [];
    }

    /** All that the queue was ever given are the batches that it accepted. */
    ghost predicate Valid()
      reads this, queue
    {
      && size >= 1 && |buffer| == size && waiting < size && Filled()
    }

    ghost predicate Filled()
      reads `batches, queue
    {
      && queue.Valid() && size + Pow2(queue.k) <= WORD
      && BatchesOk(batches, size, queue.malloc) && queue.log == Enqueued(batches)
    }

    /** The jobs of all events so far: those flushed and those that wait. */
    ghost function Seen(): seq<Socks>
      reads this
      requires waiting <= |buffer|
    {
      Arrived(batches) + buffer[..waiting]
    }

    /** std::shuffle: exchanges from the back, each with some place not after it. */
    method Shuffle()
      requires waiting <= |buffer|
      modifies `buffer
      ensures |buffer| == |old(buffer)| && multiset(buffer[..waiting]) == multiset(old(buffer)[..waiting])
    {
      var i := waiting;
      while i > 1
        invariant i <= waiting && |buffer| == |old(buffer)| && multiset(buffer[..waiting]) == multiset(old(buffer)[..waiting])
      {
        i := i - 1;
        var j: nat :| j <= i;
        Swapped(buffer[..waiting], i, j);
        ghost var before := buffer[..waiting];
        buffer := buffer[i := buffer[j]][j := buffer[i]];
        assert buffer[..waiting] == before[i := before[j]][j := before[i]];
      }
    }

    /** shuffle, enqueue_bulk, waiting = 0 */
    method Flush(ghost timeout: bool)
      requires size >= 1 && |buffer| == size && waiting <= size && (if timeout then waiting < size else waiting == size) && Filled()
      modifies `buffer, `waiting, `batches, queue
      ensures Valid() && waiting == 0 && Seen() == old(Seen())
      ensures |batches| == |old(batches)| + 1 && batches[..|old(batches)|] == old(batches) && batches[|old(batches)|].timeout == timeout
      ensures var b := batches[|old(batches)|];
              && b.fits == old(Fits(queue.headIndex, queue.tailIndex, waiting, Pow2(queue.k)))
              && b.calls == old(queue.calls) && b.needed == old(queue.Needed(waiting))
    {
      hide ImplicitProducer.Valid, ImplicitProducer.Needed, BatchesOk, Enqueued, Arrived, Fits, Granted, Pow2;
      ghost var arrived := buffer[..waiting];
      Shuffle();
      var jobs := buffer[..waiting];
      ghost var fits, calls, needed := Fits(queue.headIndex, queue.tailIndex, |jobs|, Pow2(queue.k)), queue.calls, queue.Needed(|jobs|);
      var ok := queue.EnqueueBulk(jobs);
      ghost var b := Batch(arrived, Bulk(jobs, ok), timeout, fits, calls, needed);
      AddBatch(batches, b, size, queue.malloc);
      batches := batches + [b];
      waiting := 0;
    }

    /**
      One round of the loop over the epoll results.  With BUFFER_SHUFFLING >= 1 the buffer never
      overflows, and every event has become one job of one batch, or of the buffer, in the order of arrival.
     */
    method Round(poll: Poll)
      requires Valid() && (poll.Events? ==> poll.jobs != [])
      modifies `buffer, `waiting, `batches, queue
      ensures Valid() && Seen() == old(Seen()) + (if poll.Events? then poll.jobs else [])
      ensures poll.Timeout? ==> waiting == 0 && |batches| == |old(batches)| + 1
      ensures poll.Error? ==> waiting == old(waiting) && |batches| == |old(batches)|
      ensures poll.Events? ==> waiting == (old(waiting) + |poll.jobs|) % size && |batches| == |old(batches)| + (old(waiting) + |poll.jobs|) / size
      ensures |old(batches)| <= |batches| && batches[..|old(batches)|] == old(batches)
      ensures forall i | |old(batches)| <= i < |batches| :: batches[i].timeout == poll.Timeout?
    {
      hide Filled, Arrived, Tally;
      TallyStarts(size, waiting);
      var nfds := if poll.Error? then -1 else if poll.Timeout? then 0 else |poll.jobs|;
      var i := 0;
      assert old(Seen()) + (if nfds > 0 then poll.jobs[..0] else []) == old(Seen());
      while true
        invariant 0 <= i && (nfds > 0 ==> i < nfds) && (nfds <= 0 ==> i == 0) && Valid()
        invariant Seen() == old(Seen()) + if nfds > 0 then poll.jobs[..i] else []
        invariant nfds > 0 ==> Tally(|batches| - |old(batches)|, waiting, size, old(waiting) + i)
        invariant nfds <= 0 ==> waiting == old(waiting) && |batches| == |old(batches)|
        invariant |old(batches)| <= |batches| && batches[..|old(batches)|] == old(batches)
        invariant forall i | |old(batches)| <= i < |batches| :: batches[i].timeout == poll.Timeout?
        decreases nfds - i
      {
        if nfds > 0 {
          assert poll.jobs[..i] + [poll.jobs[i]] == poll.jobs[..i + 1];
          TallyGoesOn(|batches| - |old(batches)|, waiting, size, old(waiting) + i);
          Append(poll.jobs[i]);
        }
        if nfds == 0 || waiting == size {
          Flush(nfds == 0);
        }
        i := i + 1;
        if !(i < nfds) { break; }
      }
      if nfds > 0 {
        assert poll.jobs[..i] == poll.jobs;
        TallyIs(|batches| - |old(batches)|, waiting, size, old(waiting) + |poll.jobs|);
      }
    }

    /** buffer[waiting++] = job */
    method Append(job: Socks)
      requires waiting < |buffer|
      modifies `buffer, `waiting
      ensures |buffer| == |old(buffer)| && waiting == old(waiting) + 1 && Seen() == old(Seen()) + [job]
    {
      buffer := buffer[waiting := job];
      waiting := waiting + 1;
      assert buffer[..waiting] == old(buffer)[..old(waiting)] + [job];
    }

    /** A worker's dequeue: the oldest job, which is at its place of its batch. */
    method Work() returns (job: Option<Socks>, ghost m: nat)
      requires Valid()
      modifies queue
      ensures Valid()
      ensures job == if old(queue.Contents()) == [] then None else Some(old(queue.Contents())[0])
      ensures job.Some? ==> OfBulk(BulksOf(batches), m, old(queue.headIndex))
                            && job.value == batches[m].bulk.jobs[old(queue.headIndex) - StartOf(BulksOf(batches), m)]
    {
      hide ImplicitProducer.Valid, BatchesOk, OfBulk, StartOf;
      ghost var place := queue.headIndex;
      job := queue.Dequeue();
      m := 0;
      if job.Some? {
        assert job.value == queue.log[place] && queue.log == Enqueued(batches);
        m := Bulking.TheBulk(BulksOf(batches), place);
        InBatches(batches, m, place);
      }
    }
  }

  /** The first job needs a block, which is not there. */
  lemma NeedsBlock(queue: ImplicitProducer)
    requires queue.Valid() && queue.log == [] && queue.free == []
    ensures queue.Needed(1) > 0
  {
    hide Rest, LastOk, Pow2;
    BlkPos(0, Pow2(queue.k));
  }

  /** A batch of one job that is refused: no block in the pool, and no memory.  The job is gone. */
  method RefusedBatch(job: Socks) returns (h: PollHandler)
    ensures h.Valid() && h.Seen() == [job] && h.waiting == 0 && h.queue.log == []
  {
    hide ImplicitProducer.Valid, ImplicitProducer.Needed, PollHandler.Filled, PollHandler.Seen, Pow2;
    BlockOf32();
    var none: nat -> bool := _ => false;
    var queue := new ImplicitProducer(5, 5, 0, none);
    h := new PollHandler(1, queue);
    FlushOne(h, job);
  }

  /** The only job, when every call of malloc fails. */
  method FlushOne(h: PollHandler, job: Socks)
    requires h.Valid() && h.size == 1 && h.waiting == 0 && h.batches == [] && h.Seen() == []
    requires h.queue.log == [] && h.queue.free == [] && forall i: nat :: !h.queue.malloc(i)
    modifies h`buffer, h`waiting, h`batches, h.queue
    ensures h.Valid() && h.Seen() == [job] && h.waiting == 0 && h.queue.log == []
  {
    hide ImplicitProducer.Valid, ImplicitProducer.Needed, PollHandler.Seen, BatchesOk, Enqueued, Fits, Granted, Pow2;
    h.Append(job);
    NeedsBlock(h.queue);
    h.Flush(false);
    OneRefused(h);
  }

  lemma BlockOf32()
    ensures Pow2(5) == 32
  {}

  lemma OneRefused(h: PollHandler)
    requires h.Valid() && |h.batches| == 1 && h.batches[0].needed > 0 && forall i: nat :: !h.queue.malloc(i)
    ensures h.queue.log == []
  {
    hide ImplicitProducer.Valid, Granted, Arrived;
    NoMemory(h.queue.malloc, h.batches[0].calls, h.batches[0].needed);
    assert BatchOk(h.batches[0], h.size, h.queue.malloc);
    LastBulk(h.batches);
  }
}
