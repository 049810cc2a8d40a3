/**
  Whole calls of try_dequeue in runs of module TryDequeueProtocol: which producers a call looks at, from
  which it dequeues and in which order, and that it ends.
*/
module TryDequeueCalls {
  import opened Options
  import opened Words
  import Counters = DequeueCounters
  import DequeueCalls
  import opened TryDequeueProtocol

  /** The call that begins with step b is still going on, or just over, in state n. */
  ghost predicate InCall(ss: seq<State>, acts: seq<Action>, b: nat, n: nat) {
    && IsRun(ss, acts) && b < n < |ss| && ss[b].at.Outside? && acts[b].Mine?
  }

  // ---------------------------------------------------------------- what a call looks at and tries

  /** The thread's last step before step n. */
  function LastOwn(acts: seq<Action>, n: nat): nat
    requires n <= |acts|
  {
    if n == 0 || acts[n - 1].Mine? then (if n == 0 then 0 else n - 1) else LastOwn(acts, n - 1)
  }

  /** What size_approx makes of the tail and the head of producer i, which are read in the thread's last step and in step n. */
  function SizeAt(ss: seq<State>, acts: seq<Action>, n: nat, i: nat): nat
    requires n < |ss| == |acts| + 1
  {
    var m := LastOwn(acts, n);
    if m < |ss| && i < |ss[n].ps| && i < |ss[m].ps| then SizeSeen(ss[n].ps[i].head, ss[m].ps[i].tail) else 0
  }

  /** The sizes that the call has seen, of the producers 0, 1, ... */
  function Looks(ss: seq<State>, acts: seq<Action>, b: nat, n: nat): seq<nat>
    requires b <= n < |ss| == |acts| + 1
    decreases n
  {
    if n == b then []
    else
      var before := Looks(ss, acts, b, n - 1);
      if acts[n - 1].Mine? && ss[n - 1].at.LoadHead? then before + [SizeAt(ss, acts, n - 1, |before|)] else before
  }

  /** The thread begins to dequeue from producer i. */
  predicate Begins(s: State, s': State, i: nat) {
    && i < |s.ps| && i < |s'.ps| && s.me < |s.ps[i].pcs| && s.me < |s'.ps[i].pcs|
    && !s.ps[i].pcs[s.me].LoadOver? && s'.ps[i].pcs[s.me].LoadOver?
  }

  /** The producer, among the first k, at which the thread begins to dequeue with this step. */
  function BegunAt(s: State, s': State, k: nat): (r: Option<nat>)
    ensures r.Some? ==> r.value < k && Begins(s, s', r.value)
    ensures r == None ==> forall i | 0 <= i < k :: !Begins(s, s', i)
  {
    if k == 0 then None else if Begins(s, s', k - 1) then Some(k - 1) else BegunAt(s, s', k - 1)
  }

  /** The producers from which the call dequeues, in the order in which it begins with them. */
  function Tries(ss: seq<State>, b: nat, n: nat): seq<nat>
    requires b <= n < |ss| && SameList(ss)
    decreases n
  {
    if n == b then []
    else Tries(ss, b, n - 1) + match BegunAt(ss[n - 1], ss[n], |ss[0].ps|) case Some(i) => [i] case None => []
  }

  // ---------------------------------------------------------------- what it should be

  function NonEmpty(looks: seq<nat>): nat { if looks == [] then 0 else NonEmpty(looks[..|looks| - 1]) + if looks[|looks| - 1] > 0 then 1 else 0 }

  /** Producer f is the first of the largest that were seen, and not empty. */
  predicate Largest(looks: seq<nat>, f: nat) {
    && f < |looks| && looks[f] > 0
    && (forall j | 0 <= j < |looks| :: looks[j] <= looks[f]) && (forall j | 0 <= j < f :: looks[j] < looks[f])
  }

  predicate NoneSeen(looks: seq<nat>) { forall j | 0 <= j < |looks| :: looks[j] == 0 }

  /** The scan is over: it has seen all producers, or three that are not empty and no more. */
  predicate ScanOver(looks: seq<nat>, n: nat) {
    |looks| <= n && (|looks| == n || NonEmpty(looks) == 3) && (looks != [] ==> NonEmpty(looks[..|looks| - 1]) < 3)
  }

  /** The producers below n but f. */
  function Others(f: nat, n: nat): seq<nat> { if n == 0 then [] else Others(f, n - 1) + if n - 1 == f then [] else [n - 1] }

  /** The largest one is tried first, then the others in their order. */
  function Order(f: nat, n: nat): seq<nat> { [f] + Others(f, n) }

  predicate ScanState(looks: seq<nat>, i: nat, count: nat, best: Option<nat>, bestSize: nat) {
    && i == |looks| && count == NonEmpty(looks) && (looks != [] ==> NonEmpty(looks[..|looks| - 1]) < 3)
    && match best case None => bestSize == 0 && NoneSeen(looks) case Some(f) => Largest(looks, f) && bestSize == looks[f]
  }

  ghost predicate OnCourse(s: State, looks: seq<nat>, tries: seq<nat>) {
    match s.at
    case Outside => false
    case LoadTail(i, count, best, bestSize) => ScanState(looks, i, count, best, bestSize) && count < 3 && i < |s.ps| && tries == []
    case LoadHead(i, tail, count, best, bestSize) => ScanState(looks, i, count, best, bestSize) && count < 3 && i < |s.ps| && tries == []
    case Dequeuing(i, f, next) => next <= |s.ps| && ScanOver(looks, |s.ps|) && Largest(looks, f) && tries == Order(f, next) && tries[|tries| - 1] == i
    case Done(ok) =>
      && ScanOver(looks, |s.ps|)
      && if ok then exists f, next :: Largest(looks, f) && tries == Order(f, next)
         else if NoneSeen(looks) then tries == [] else exists f :: Largest(looks, f) && tries == Order(f, |s.ps|)
  }

  lemma Looked(looks: seq<nat>, i: nat, count: nat, best: Option<nat>, bestSize: nat, size: nat)
    requires ScanState(looks, i, count, best, bestSize) && count < 3
    ensures if size == 0 then ScanState(looks + [size], i + 1, count, best, bestSize)
            else ScanState(looks + [size], i + 1, count + 1, if size > bestSize then Some(i) else best, if size > bestSize then size else bestSize)
  {
    assert (looks + [size])[..|looks|] == looks;
  }

  lemma NoneIsZero(looks: seq<nat>)
    requires NoneSeen(looks)
    ensures NonEmpty(looks) == 0
  {
    if looks != [] { NoneIsZero(looks[..|looks| - 1]); }
  }

  /** The producer, if any, that the thread begins with in a step that leads to s'. */
  function Beginning(s': State): seq<nat> {
    if s'.at.Dequeuing? && s'.at.i < |s'.ps| && s'.me < |s'.ps[s'.at.i].pcs| && s'.ps[s'.at.i].pcs[s'.me].LoadOver? then [s'.at.i] else []
  }

  lemma ScanCourse(s: State, i: nat, count: nat, best: Option<nat>, bestSize: nat, looks: seq<nat>)
    requires Listed(s) && ScanState(looks, i, count, best, bestSize) && count <= 3 && i <= |s.ps|
    ensures var s' := Scan(s, i, count, best, bestSize); OnCourse(s', looks, Beginning(s'))
  {
    hide NonEmpty;
    if best == None { NoneIsZero(looks); }
    if !(count < 3 && i < |s.ps|) && best.Some? {
      assert Order(best.value, 0) == [best.value];
    }
  }

  lemma {:induction false} TryNextCourse(s: State, f: nat, next: nat, looks: seq<nat>, n: nat)
    requires Listed(s) && n == |s.ps| && ScanOver(looks, n) && Largest(looks, f) && next <= n
    ensures var s' := TryNext(s, f, next); OnCourse(s', looks, Order(f, next) + Beginning(s'))
    decreases n - next
  {
    hide ScanOver, Largest;
    var s' := TryNext(s, f, next);
    if next == n {
      assert Order(f, n) + [] == Order(f, n);
      SomethingSeen(looks, f);
    } else if next == f {
      assert Others(f, next + 1) == Others(f, next);
      TryNextCourse(s, f, next + 1, looks, n);
    } else {
      assert Order(f, next) + [next] == Order(f, next + 1);
    }
  }

  lemma SomethingSeen(looks: seq<nat>, f: nat)
    requires Largest(looks, f)
    ensures !NoneSeen(looks)
  {}

  // ---------------------------------------------------------------- each step

  function AsSeq(i: Option<nat>): seq<nat> { match i case Some(k) => [k] case None => [] }

  /** The producers with which the thread is busy. */
  lemma BusyWith(s: State, i: nat)
    requires Inv(s) && i < |s.ps|
    ensures s.me < |s.ps[i].pcs| && (s.ps[i].pcs[s.me].Idle? <==> !(s.at.Dequeuing? && s.at.i == i))
  {}

  lemma SizesStay(s: State, a: Action)
    requires Inv(s) && Enabled(s, a)
    ensures |Next(s, a).ps| == |s.ps| && Next(s, a).me == s.me
  {
    hide Counters.Inv, Counters.Accounted, Next, Enabled;
    StillGrown(s, s, a);
  }

  lemma OverMoves(c: Counters.State, t: nat)
    requires Counters.Enabled(c, Counters.Run(t)) && c.pcs[t].LoadOver?
    ensures t < |Counters.Next(c, Counters.Run(t)).pcs| && Counters.Next(c, Counters.Run(t)).pcs[t].LoadOpt?
  {}

  /** If it comes to LoadOver, it was not there before. */
  lemma NotTwice(s: State)
    requires Inv(s) && Enabled(s, Mine) && Beginning(Next(s, Mine)) != []
    ensures var i := Next(s, Mine).at.i; i < |s.ps| && s.me < |s.ps[i].pcs| && !s.ps[i].pcs[s.me].LoadOver?
  {
    hide Counters.Inv, Counters.Accounted, Counters.Enabled, Counters.Next, Scan, TryNext;
    var s', i := Next(s, Mine), Next(s, Mine).at.i;
    SizesStay(s, Mine);
    BusyWith(s, i);
    if s.ps[i].pcs[s.me].LoadOver? { OverMoves(s.ps[i], s.me); }
  }

  lemma BegunIs(s: State)
    requires Inv(s) && Enabled(s, Mine)
    ensures |Next(s, Mine).ps| == |s.ps| && AsSeq(BegunAt(s, Next(s, Mine), |s.ps|)) == Beginning(Next(s, Mine))
  {
    hide Inv, Enabled, Next;
    var s' := Next(s, Mine);
    SizesStay(s, Mine);
    NextInv(s, Mine);
    if Beginning(s') != [] { NotTwice(s); }
    assert Beginning(s') != [] ==> Begins(s, s', s'.at.i);
    match BegunAt(s, s', |s.ps|) {
      case Some(i) => BusyWith(s', i);
      case None =>
    }
  }

  lemma OtherBegins(s: State, a: Action)
    requires Inv(s) && Enabled(s, a) && a.Other?
    ensures |Next(s, a).ps| == |s.ps| && Next(s, a).at == s.at && BegunAt(s, Next(s, a), |s.ps|) == None
  {
    hide Counters.Inv, Counters.Accounted, Counters.Enabled, Counters.Next;
    OthersStay(s.ps[a.i], a.a, s.me);
    match BegunAt(s, Next(s, a), |s.ps|) {
      case Some(i) => BusyWith(s, i);
      case None =>
    }
  }

  /** A step of the thread, after which it may have seen one more size. */
  lemma MineCourse(s: State, looks: seq<nat>, tries: seq<nat>)
    requires Inv(s) && Enabled(s, Mine) && OnCourse(s, looks, tries)
    ensures OnCourse(Next(s, Mine), looks + SizeNow(s), tries + Beginning(Next(s, Mine)))
  {
    hide Inv, Enabled, Next, OnCourse;
    match s.at {
      case LoadTail(_, _, _, _) => TailCourse(s, looks, tries);
      case LoadHead(_, _, _, _, _) => HeadCourse(s, looks, tries);
      case Dequeuing(_, _, _) =>
        DequeueCourse(s, looks, tries);
        assert looks + [] == looks;
      case _ => NotOutside(s, looks, tries);
    }
  }

  /** What it sees, when it has read a tail and reads the head. */
  function SizeNow(s: State): seq<nat> { if s.at.LoadHead? && s.at.i < |s.ps| then [SizeSeen(s.ps[s.at.i].head, s.at.tail)] else [] }

  lemma NotOutside(s: State, looks: seq<nat>, tries: seq<nat>)
    requires Enabled(s, Mine) && OnCourse(s, looks, tries)
    ensures !s.at.Outside? && !s.at.Done?
  {}

  lemma TailCourse(s: State, looks: seq<nat>, tries: seq<nat>)
    requires Enabled(s, Mine) && s.at.LoadTail? && OnCourse(s, looks, tries)
    ensures OnCourse(Next(s, Mine), looks + SizeNow(s), tries + Beginning(Next(s, Mine)))
  {
    hide ScanState;
    assert tries + [] == tries && looks + [] == looks;
  }

  lemma HeadCourse(s: State, looks: seq<nat>, tries: seq<nat>)
    requires Enabled(s, Mine) && s.at.LoadHead? && OnCourse(s, looks, tries)
    ensures OnCourse(Next(s, Mine), looks + SizeNow(s), tries + Beginning(Next(s, Mine)))
  {
    hide Scan, ScanState;
    var LoadHead(i, tail, count, best, bestSize) := s.at;
    var size := SizeSeen(s.ps[i].head, tail);
    Looked(looks, i, count, best, bestSize, size);
    if size == 0 { HeadScan(s, i + 1, count, best, bestSize, looks + [0]); }
    else { HeadScan(s, i + 1, count + 1, if size > bestSize then Some(i) else best, if size > bestSize then size else bestSize, looks + [size]); }
  }

  lemma HeadScan(s: State, i: nat, count: nat, best: Option<nat>, bestSize: nat, looks: seq<nat>)
    requires Listed(s) && ScanState(looks, i, count, best, bestSize) && count <= 3 && i <= |s.ps|
    requires best.Some? ==> best.value < |s.ps|
    ensures OnCourse(Scan(s, i, count, best, bestSize), looks, [] + Beginning(Scan(s, i, count, best, bestSize)))
  {
    hide Scan, OnCourse;
    ScanCourse(s, i, count, best, bestSize, looks);
    var b := Beginning(Scan(s, i, count, best, bestSize));
    assert [] + b == b;
  }

  lemma DequeueCourse(s: State, looks: seq<nat>, tries: seq<nat>)
    requires Inv(s) && Enabled(s, Mine) && s.at.Dequeuing? && OnCourse(s, looks, tries)
    ensures OnCourse(Next(s, Mine), looks, tries + Beginning(Next(s, Mine)))
  {
    hide Counters.Inv, Counters.Accounted, Counters.Enabled, Counters.Next, TryNext, ScanOver, NonEmpty, Largest, Order;
    var Dequeuing(i, f, next) := s.at;
    var s', s1 := Next(s, Mine), Stepped(s);
    CountersGrow(s.ps[i], Counters.Run(s.me));
    if !s1.ps[i].pcs[s.me].Idle? || s.ps[i].pcs[s.me].Claim? {
      NoRestart(s);
      assert tries + [] == tries;
    } else {
      TryNextCourse(s1, f, next, looks, |s.ps|);
    }
  }

  /** A step within dequeue does not begin it again. */
  lemma NoRestart(s: State)
    requires Inv(s) && Enabled(s, Mine) && s.at.Dequeuing?
    ensures var i, s1 := s.at.i, Stepped(s); s.me < |s1.ps[i].pcs| && !s1.ps[i].pcs[s.me].LoadOver?
  {
    hide Counters.Inv, Counters.Accounted, Counters.Desired, Counters.Granted;
  }

  lemma OtherCourse(s: State, a: Action, looks: seq<nat>, tries: seq<nat>)
    requires Inv(s) && Enabled(s, a) && a.Other? && OnCourse(s, looks, tries)
    ensures OnCourse(Next(s, a), looks, tries)
  {
    hide ScanOver, NonEmpty, Largest, Order, ScanState, Counters.Next, Counters.Enabled;
    OtherBegins(s, a);
  }

  // ---------------------------------------------------------------- whole calls

  /** The tail that the call works with is the one that it read in its last step. */
  ghost predicate TailRead(ss: seq<State>, acts: seq<Action>, n: nat)
    requires n < |ss| == |acts| + 1
  {
    ss[n].at.LoadHead? ==>
      var m, i := LastOwn(acts, n), ss[n].at.i;
      m < n && i < |ss[m].ps| && ss[n].at.tail == ss[m].ps[i].tail
  }

  lemma ScanReads(s: State, i: nat, count: nat, best: Option<nat>, bestSize: nat)
    requires Listed(s) && (best.Some? ==> best.value < |s.ps|)
    ensures !Scan(s, i, count, best, bestSize).at.LoadHead?
  {}

  lemma {:induction false} TryNextReads(s: State, best: nat, next: nat)
    requires Listed(s)
    ensures !TryNext(s, best, next).at.LoadHead?
    decreases |s.ps| - next
  {
    if next < |s.ps| && next == best { TryNextReads(s, best, next + 1); }
  }

  lemma HeadAfterTail(s: State)
    requires Inv(s) && Enabled(s, Mine) && Next(s, Mine).at.LoadHead?
    ensures s.at.LoadTail? && Next(s, Mine).at.i == s.at.i < |s.ps| && Next(s, Mine).at.tail == s.ps[s.at.i].tail
  {
    hide Counters.Inv, Counters.Accounted, Counters.Next, Counters.Enabled, Scan, TryNext;
    match s.at {
      case Outside => ScanReads(s, 0, 0, None, 0);
      case LoadHead(i, tail, count, best, bestSize) =>
        var size := SizeSeen(s.ps[i].head, tail);
        ScanReads(s, i + 1, count, best, bestSize);
        ScanReads(s, i + 1, count + 1, if size > bestSize then Some(i) else best, if size > bestSize then size else bestSize);
      case Dequeuing(i, best, next) =>
        CountersGrow(s.ps[i], Counters.Run(s.me));
        TryNextReads(Stepped(s), best, next);
      case _ =>
    }
  }

  lemma TailReadStep(ss: seq<State>, acts: seq<Action>, n: nat)
    requires n < |acts| && |ss| == |acts| + 1 && Inv(ss[n]) && Enabled(ss[n], acts[n]) && ss[n + 1] == Next(ss[n], acts[n]) && TailRead(ss, acts, n)
    ensures TailRead(ss, acts, n + 1)
  {
    hide Inv, Enabled, Next;
    if acts[n].Mine? {
      if ss[n + 1].at.LoadHead? { HeadAfterTail(ss[n]); }
    } else {
      OtherBegins(ss[n], acts[n]);
    }
  }

  /** One more state of a call. */
  ghost predicate Known(ss: seq<State>, acts: seq<Action>, b: nat, n: nat)
    requires b <= n < |ss| == |acts| + 1 && SameList(ss)
  {
    OnCourse(ss[n], Looks(ss, acts, b, n), Tries(ss, b, n)) && TailRead(ss, acts, n)
  }

  lemma KnownFirst(ss: seq<State>, acts: seq<Action>, b: nat)
    requires b < |acts| && |ss| == |acts| + 1 && SameList(ss) && Inv(ss[b]) && Enabled(ss[b], Mine) && acts[b].Mine? && ss[b].at.Outside?
    requires ss[b + 1] == Next(ss[b], Mine)
    ensures Known(ss, acts, b, b + 1)
  {
    hide OnCourse, Inv, Scan, BegunAt, ScanOver;
    BegunIs(ss[b]);
    ScanCourse(ss[b], 0, 0, None, 0, []);
    TailReadStep(ss, acts, b);
    assert Tries(ss, b, b + 1) == Beginning(ss[b + 1]);
    assert Looks(ss, acts, b, b) == [] && Looks(ss, acts, b, b + 1) == [];
  }

  lemma KnownStep(ss: seq<State>, acts: seq<Action>, b: nat, n: nat)
    requires b < n < |acts| && |ss| == |acts| + 1 && SameList(ss) && Inv(ss[n]) && Enabled(ss[n], acts[n]) && ss[n + 1] == Next(ss[n], acts[n])
    requires Known(ss, acts, b, n)
    ensures Known(ss, acts, b, n + 1)
  {
    hide OnCourse, Inv, Enabled, Next, BegunAt, LastOwn, TailRead;
    TailReadStep(ss, acts, n);
    var looks, tries := Looks(ss, acts, b, n), Tries(ss, b, n);
    if acts[n].Mine? {
      BegunIs(ss[n]);
      MineCourse(ss[n], looks, tries);
      SizesAre(ss, acts, n, looks, tries);
      assert looks + SizeNow(ss[n]) == Looks(ss, acts, b, n + 1);
    } else {
      OtherBegins(ss[n], acts[n]);
      OtherCourse(ss[n], acts[n], looks, tries);
      assert tries + [] == tries;
    }
  }

  lemma SizesAre(ss: seq<State>, acts: seq<Action>, n: nat, looks: seq<nat>, tries: seq<nat>)
    requires n < |acts| && |ss| == |acts| + 1 && SameList(ss) && OnCourse(ss[n], looks, tries) && TailRead(ss, acts, n)
    ensures SizeNow(ss[n]) == if ss[n].at.LoadHead? then [SizeAt(ss, acts, n, |looks|)] else []
  {
    hide LastOwn, ScanOver, Largest, NonEmpty, Order;
  }

  lemma {:induction false} Course(ss: seq<State>, acts: seq<Action>, b: nat, n: nat)
    requires InCall(ss, acts, b, n)
    ensures SameList(ss) && Known(ss, acts, b, n)
  {
    hide Inv, Enabled, Next, Init, Known;
    RunsSame(ss, acts);
    RunInvariant(ss, acts, n - 1);
    if n == b + 1 {
      KnownFirst(ss, acts, b);
    } else {
      Course(ss, acts, b, n - 1);
      KnownStep(ss, acts, b, n - 1);
    }
  }

  /** The thread has claimed an element of producer i in a step of the call. */
  ghost predicate HasClaimed(ss: seq<State>, b: nat, n: nat, i: nat)
    requires n < |ss|
  {
    exists m :: b <= m < n && ClaimsAt(ss[m], ss[m + 1], i)
  }

  lemma {:induction false} SuccessClaims(ss: seq<State>, acts: seq<Action>, b: nat, n: nat)
    requires InCall(ss, acts, b, n) && ss[n].at == Done(true)
    ensures SameList(ss) && Tries(ss, b, n) != [] && HasClaimed(ss, b, n, Tries(ss, b, n)[|Tries(ss, b, n)| - 1])
  {
    hide Inv, Enabled, Next, Init, OnCourse, ClaimsAt, BegunAt;
    RunsSame(ss, acts);
    RunInvariant(ss, acts, n - 1);
    if acts[n - 1].Mine? {
      OneClaim(ss[n - 1]);
      BegunIs(ss[n - 1]);
      if n - 1 > b {
        Course(ss, acts, b, n - 1);
        LastTried(ss[n - 1], Looks(ss, acts, b, n - 1), Tries(ss, b, n - 1));
      }
      assert Tries(ss, b, n) == Tries(ss, b, n - 1) + [];
      assert ClaimsAt(ss[n - 1], ss[n], ss[n - 1].at.i);
    } else {
      OtherBegins(ss[n - 1], acts[n - 1]);
      assert n - 1 > b;
      SuccessClaims(ss, acts, b, n - 1);
      assert Tries(ss, b, n) == Tries(ss, b, n - 1) + [];
    }
  }

  lemma LastTried(s: State, looks: seq<nat>, tries: seq<nat>)
    requires OnCourse(s, looks, tries) && s.at.Dequeuing?
    ensures tries != [] && tries[|tries| - 1] == s.at.i
  {}

  /**
    A call that is over has looked at the producers in their order up to the third that was not empty.  If
    all those were empty it has failed without another try.  Otherwise it has dequeued from the largest one
    that it had seen and then from the others in their order, once each, until one try claimed an element;
    only if none did has it failed.
   */
  lemma CallTries(ss: seq<State>, acts: seq<Action>, b: nat, n: nat)
    requires InCall(ss, acts, b, n) && ss[n].at.Done?
    ensures SameList(ss)
    ensures var looks, tries := Looks(ss, acts, b, n), Tries(ss, b, n);
            && ScanOver(looks, |ss[b].ps|)
            && (NoneSeen(looks) ==> !ss[n].at.ok && tries == [])
            && (!NoneSeen(looks) ==> exists f, next :: Largest(looks, f) && tries == Order(f, next) && (!ss[n].at.ok ==> next == |ss[b].ps|))
            && (ss[n].at.ok ==> tries != [] && HasClaimed(ss, b, n, tries[|tries| - 1]))
  {
    hide Inv, Enabled, Next, Init, ScanOver, NonEmpty, Order, HasClaimed, TailRead;
    Course(ss, acts, b, n);
    var looks, tries := Looks(ss, acts, b, n), Tries(ss, b, n);
    if ss[n].at.ok {
      SuccessClaims(ss, acts, b, n);
      var f, next :| Largest(looks, f) && tries == Order(f, next);
      SomethingSeen(looks, f);
    }
  }

  // ---------------------------------------------------------------- a call ends

  /** How many steps the thread has left at most: two for each producer in the scan, six for each that it dequeues from. */
  function StepsLeft(s: State): nat {
    match s.at
    case Outside => 8 * |s.ps| + 7
    case LoadTail(i, _, _, _) => (if i < |s.ps| then 2 * (|s.ps| - i) else 0) + 6 * |s.ps| + 6
    case LoadHead(i, _, _, _, _) => (if i < |s.ps| then 2 * (|s.ps| - i) - 1 else 0) + 6 * |s.ps| + 6
    case Dequeuing(i, _, next) =>
      (if next < |s.ps| then 6 * (|s.ps| - next) else 0) + if i < |s.ps| && s.me < |s.ps[i].pcs| then DequeueCalls.StepsLeft(s.ps[i].pcs[s.me]) else 0
    case Done(_) => 0
  }

  lemma ScanLeft(s: State, i: nat, count: nat, best: Option<nat>, bestSize: nat)
    requires Listed(s) && (best.Some? ==> best.value < |s.ps|) && i <= |s.ps|
    ensures StepsLeft(Scan(s, i, count, best, bestSize)) <= 2 * (|s.ps| - i) + 6 * |s.ps| + 6
  {}

  lemma {:induction false} TryNextLeft(s: State, best: nat, next: nat)
    requires Listed(s) && next <= |s.ps|
    ensures StepsLeft(TryNext(s, best, next)) <= 6 * (|s.ps| - next)
    decreases |s.ps| - next
  {
    if next < |s.ps| && next == best { TryNextLeft(s, best, next + 1); }
  }

  lemma DequeueLeft(s: State)
    requires Inv(s) && Enabled(s, Mine) && s.at.Dequeuing? && s.at.next <= |s.ps|
    ensures StepsLeft(Next(s, Mine)) < StepsLeft(s)
  {
    hide Counters.Inv, Counters.Accounted, Counters.Enabled, Counters.Next, TryNext, DequeueCalls.StepsLeft;
    var Dequeuing(i, best, next) := s.at;
    var c, c' := s.ps[i], Counters.Next(s.ps[i], Counters.Run(s.me));
    DequeueCalls.OwnStepCounts(c, Counters.Run(s.me), c', s.me);
    var s1 := Stepped(s);
    TryNextLeft(s1, best, next);
  }

  lemma MineLeft(s: State)
    requires Inv(s) && Enabled(s, Mine) && (s.at.Dequeuing? ==> s.at.next <= |s.ps|)
    ensures StepsLeft(Next(s, Mine)) < StepsLeft(s)
  {
    hide Counters.Inv, Counters.Accounted, Counters.Enabled, Counters.Next, Scan, TryNext;
    match s.at {
      case Outside => ScanLeft(s, 0, 0, None, 0);
      case LoadHead(i, tail, count, best, bestSize) =>
        var size := SizeSeen(s.ps[i].head, tail);
        ScanLeft(s, i + 1, count, best, bestSize);
        ScanLeft(s, i + 1, count + 1, if size > bestSize then Some(i) else best, if size > bestSize then size else bestSize);
      case Dequeuing(_, _, _) => DequeueLeft(s);
      case _ =>
    }
  }

  lemma OtherLeft(s: State, a: Action)
    requires Inv(s) && Enabled(s, a) && a.Other?
    ensures StepsLeft(Next(s, a)) == StepsLeft(s)
  {
    hide Counters.Inv, Counters.Accounted, Counters.Enabled, Counters.Next, DequeueCalls.StepsLeft;
    OthersStay(s.ps[a.i], a.a, s.me);
  }

  /** The thread's own steps between b and n. */
  function OwnSteps(acts: seq<Action>, b: nat, n: nat): nat
    requires b <= n <= |acts|
  {
    if b == n then 0 else OwnSteps(acts, b, n - 1) + if acts[n - 1].Mine? then 1 else 0
  }

  lemma NextInList(s: State, looks: seq<nat>, tries: seq<nat>)
    requires OnCourse(s, looks, tries)
    ensures s.at.Dequeuing? ==> s.at.next <= |s.ps|
  {}

  /** With N producers every call ends after at most 8 N + 7 steps of its own, whatever the other threads do. */
  lemma {:induction false} WaitFree(ss: seq<State>, acts: seq<Action>, b: nat, n: nat)
    requires InCall(ss, acts, b, n)
    ensures |ss[n].ps| == |ss[b].ps| && OwnSteps(acts, b, n) + StepsLeft(ss[n]) <= 8 * |ss[b].ps| + 7
    ensures OwnSteps(acts, b, n) == 8 * |ss[b].ps| + 7 ==> ss[n].at.Done?
  {
    hide Inv, Enabled, Next, Init, OnCourse, StepsLeft, TailRead;
    RunInvariant(ss, acts, n);
    if StepsLeft(ss[n]) == 0 { NoStepsLeft(ss[n]); }
    RunInvariant(ss, acts, n - 1);
    SizesStay(ss[n - 1], acts[n - 1]);
    if n == b + 1 {
      assert StepsLeft(ss[b]) == 8 * |ss[b].ps| + 7 by { OutsideLeft(ss[b]); }
      MineLeft(ss[b]);
      assert OwnSteps(acts, b, b) == 0;
    } else {
      WaitFree(ss, acts, b, n - 1);
      if acts[n - 1].Mine? {
        Course(ss, acts, b, n - 1);
        NextInList(ss[n - 1], Looks(ss, acts, b, n - 1), Tries(ss, b, n - 1));
        MineLeft(ss[n - 1]);
      } else {
        OtherLeft(ss[n - 1], acts[n - 1]);
      }
    }
  }

  lemma OutsideLeft(s: State)
    requires s.at.Outside?
    ensures StepsLeft(s) == 8 * |s.ps| + 7
  {}

  lemma NoStepsLeft(s: State)
    requires Inv(s) && StepsLeft(s) == 0
    ensures s.at.Done?
  {
    hide Counters.Inv, Counters.Accounted;
  }
}
