/**
  try_dequeue as one thread among others (concurrentqueue.h:1015-1045): each load and fetch_add of the
  scan and of the dequeues is a step, and between any two of them other threads may enqueue and
  dequeue at any producer, one atomic operation at a time.

  A call that fails has not seen the queue empty: it has found, for each producer, a moment at which
  every element that was there when the call began was claimed, or covered by a ticket of another
  consumer.
*/
module TryDequeueProtocol {
  import opened Options
  import opened Words
  import Counters = DequeueCounters

  /** What the thread does next; arguments are its locals. */
  datatype Stage =
    | Outside
    | LoadTail(i: nat, count: nat, best: Option<nat>, bestSize: nat)              // size_approx of producer i
    | LoadHead(i: nat, tail: nat, count: nat, best: Option<nat>, bestSize: nat)
    | Dequeuing(i: nat, fullest: nat, next: nat)                                  // in dequeue of producer i
    | Done(ok: bool)

  /**
    The counters of every producer in the list, and the thread `me`, which is consumer number `me` of each;
    auxiliary: how many tickets it has itself given back to each.
   */
  datatype State = State(me: nat, ps: seq<Counters.State>, at: Stage, mine: seq<nat>)

  datatype Action = Mine | Other(i: nat, a: Counters.Action)

  predicate Listed(s: State) { |s.mine| == |s.ps| && forall i | 0 <= i < |s.ps| :: s.me < |s.ps[i].pcs| }

  predicate Enabled(s: State, a: Action) {
    match a
    case Other(i, b) => i < |s.ps| && Counters.Enabled(s.ps[i], b) && (b.Publish? || b.t != s.me)
    case Mine =>
      && Listed(s)
      && match s.at
         case Outside => true
         case LoadTail(i, _, _, _) => i < |s.ps|
         case LoadHead(i, tail, _, best, _) => i < |s.ps| && Close(s.ps[i].head, tail) && (best.Some? ==> best.value < |s.ps|)
         case Dequeuing(i, _, _) =>
           && i < |s.ps| && Counters.Enabled(s.ps[i], Counters.Run(s.me))
           && var p := s.ps[i].pcs[s.me];
              p.LoadOpt? ==> Close(s.ps[i].opt - p.over, p.tail)
         case Done(_) => false
  }

  /** dequeue of producer i begins, with its load of tailIndex. */
  function Begin(s: State, i: nat, best: nat, next: nat): State
    requires Listed(s) && i < |s.ps|
  {
    s.(ps := s.ps[i := Counters.Goto(s.ps[i], s.me, Counters.LoadOver(Counters.Single, s.ps[i].tail))], at := Dequeuing(i, best, next))
  }

  /** The loop over the other producers, from number `next` on. */
  function TryNext(s: State, best: nat, next: nat): State
    requires Listed(s)
    decreases |s.ps| - next
  {
    if next >= |s.ps| then s.(at := Done(false))
    else if next == best then TryNext(s, best, next + 1)
    else Begin(s, next, best, next + 1)
  }

  /** The scan, having looked at i producers. */
  function Scan(s: State, i: nat, count: nat, best: Option<nat>, bestSize: nat): State
    requires Listed(s) && (best.Some? ==> best.value < |s.ps|)
  {
    if count < 3 && i < |s.ps| then s.(at := LoadTail(i, count, best, bestSize))
    else if best == None then s.(at := Done(false))
    else Begin(s, best.value, best.value, 0)
  }

  /** The thread's own step in dequeue. */
  function Stepped(s: State): State
    requires Enabled(s, Mine) && s.at.Dequeuing?
  {
    var i, p := s.at.i, s.ps[s.at.i].pcs[s.me];
    s.(ps := s.ps[i := Counters.Next(s.ps[i], Counters.Run(s.me))], mine := s.mine[i := s.mine[i] + if p.GiveBack? then p.lost else 0])
  }

  function Next(s: State, a: Action): State
    requires Enabled(s, a)
  {
    match a
    case Other(i, b) => s.(ps := s.ps[i := Counters.Next(s.ps[i], b)])
    case Mine =>
      match s.at
      case Outside => Scan(s, 0, 0, None, 0)
      case LoadTail(i, count, best, bestSize) => s.(at := LoadHead(i, s.ps[i].tail, count, best, bestSize))
      case LoadHead(i, tail, count, best, bestSize) =>
        var size := SizeSeen(s.ps[i].head, tail);
        if size == 0 then Scan(s, i + 1, count, best, bestSize)
        else Scan(s, i + 1, count + 1, if size > bestSize then Some(i) else best, if size > bestSize then size else bestSize)
      case Dequeuing(i, best, next) =>
        var s1 := Stepped(s);
        if !s1.ps[i].pcs[s.me].Idle? then s1
        else if s.ps[i].pcs[s.me].Claim? then s1.(at := Done(true))
        else TryNext(s1, best, next)
  }

  predicate Init(s: State) { s.at.Outside? && Listed(s) && forall i | 0 <= i < |s.ps| :: Counters.Init(s.ps[i]) }

  ghost predicate IsRun(ss: seq<State>, acts: seq<Action>) {
    && |ss| == |acts| + 1 && Init(ss[0])
    && forall n | 0 <= n < |acts| :: Enabled(ss[n], acts[n]) && ss[n + 1] == Next(ss[n], acts[n])
  }

  // ---------------------------------------------------------------- the invariant

  /** The thread is busy with the producer that it dequeues from and with no other. */
  ghost predicate Inv(s: State) {
    && Listed(s)
    && (forall i | 0 <= i < |s.ps| :: Counters.Inv(s.ps[i]) && Counters.Accounted(s.ps[i]))
    && (forall i | 0 <= i < |s.ps| :: s.ps[i].pcs[s.me].Idle? <==> !(s.at.Dequeuing? && s.at.i == i))
    && (match s.at
        case LoadTail(i, _, best, _) => i < |s.ps| && (best.Some? ==> best.value < |s.ps|)
        case LoadHead(i, _, _, best, _) => i < |s.ps| && (best.Some? ==> best.value < |s.ps|)
        case Dequeuing(i, fullest, _) => i < |s.ps| && fullest < |s.ps| && One(s.ps[i].pcs[s.me])
        case _ => true)
  }

  /** A dequeue of one element. */
  predicate One(p: Counters.Pc) {
    match p
    case LoadOver(mode, _) => mode.Single?
    case LoadOpt(mode, _, _) => mode.Single?
    case Reserve(mode, d, _) => mode.Single?
    case LoadTail(mode, _, d, _) => mode.Single? && d == 1
    case Claim(won) => won == 1
    case Return(_, _) => false
    case _ => true
  }

  /** All producers' counters are in order. */
  ghost predicate AllOk(ps: seq<Counters.State>, me: nat) {
    forall i | 0 <= i < |ps| :: me < |ps[i].pcs| && Counters.Inv(ps[i]) && Counters.Accounted(ps[i])
  }

  predicate AllIdle(ps: seq<Counters.State>, me: nat) {
    forall i | 0 <= i < |ps| :: me < |ps[i].pcs| && ps[i].pcs[me].Idle?
  }

  lemma BeginInv(s: State, i: nat, best: nat, next: nat)
    requires |s.mine| == |s.ps| && AllOk(s.ps, s.me) && AllIdle(s.ps, s.me) && i < |s.ps| && best < |s.ps|
    ensures Listed(s) && Inv(Begin(s, i, best, next))
  {
    hide Counters.Inv, Counters.Accounted;
    var a := Counters.Start(s.me, Counters.Single);
    Counters.NextInv(s.ps[i], a);
    Counters.NextAccounted(s.ps[i], a);
  }

  lemma {:induction false} TryNextInv(s: State, best: nat, next: nat)
    requires |s.mine| == |s.ps| && AllOk(s.ps, s.me) && AllIdle(s.ps, s.me) && best < |s.ps|
    ensures Listed(s) && Inv(TryNext(s, best, next))
    decreases |s.ps| - next
  {
    hide Counters.Inv, Counters.Accounted;
    if next < |s.ps| {
      if next == best { TryNextInv(s, best, next + 1); } else { BeginInv(s, next, best, next + 1); }
    }
  }

  lemma ScanInv(s: State, i: nat, count: nat, best: Option<nat>, bestSize: nat)
    requires |s.mine| == |s.ps| && AllOk(s.ps, s.me) && AllIdle(s.ps, s.me) && (best.Some? ==> best.value < |s.ps|)
    ensures Listed(s) && Inv(Scan(s, i, count, best, bestSize))
  {
    hide Counters.Inv, Counters.Accounted;
    if !(count < 3 && i < |s.ps|) && best.Some? { BeginInv(s, best.value, best.value, 0); }
  }

  /** A step of one consumer leaves the others where they are. */
  lemma OthersStay(c: Counters.State, a: Counters.Action, me: nat)
    requires Counters.Enabled(c, a) && (a.Publish? || a.t != me) && me < |c.pcs|
    ensures me < |Counters.Next(c, a).pcs| && Counters.Next(c, a).pcs[me] == c.pcs[me]
  {}

  lemma OneStays(c: Counters.State, me: nat)
    requires Counters.Inv(c) && Counters.Enabled(c, Counters.Run(me)) && One(c.pcs[me])
    ensures var c' := Counters.Next(c, Counters.Run(me)); me < |c'.pcs| && One(c'.pcs[me])
  {
    if c.pcs[me].LoadTail? { Counters.GrantedExact(c.pcs[me].mode, c.pcs[me].my, c.pcs[me].over, c.tail, c.pcs[me].desired); }
  }

  lemma SteppedIs(s: State)
    requires Enabled(s, Mine) && s.at.Dequeuing?
    ensures var s1, i := Stepped(s), s.at.i;
            && s1.me == s.me && s1.at == s.at && s1.ps == s.ps[i := Counters.Next(s.ps[i], Counters.Run(s.me))] && |s1.mine| == |s.mine|
            && (forall j | 0 <= j < |s.mine| :: s.mine[j] <= s1.mine[j] && (j != i ==> s1.mine[j] == s.mine[j]))
            && (!s.ps[i].pcs[s.me].GiveBack? ==> s1.mine == s.mine)
  {}

  lemma NextInv(s: State, a: Action)
    requires Inv(s) && Enabled(s, a)
    ensures Inv(Next(s, a))
  {
    hide Counters.Inv, Counters.Accounted, Counters.Enabled, Counters.Next, One, Stepped, Scan, TryNext;
    match a {
      case Other(i, b) =>
        Counters.NextInv(s.ps[i], b);
        Counters.NextAccounted(s.ps[i], b);
        OthersStay(s.ps[i], b, s.me);
      case Mine =>
        match s.at {
          case Outside => ScanInv(s, 0, 0, None, 0);
          case LoadHead(i, tail, count, best, bestSize) =>
            var size := SizeSeen(s.ps[i].head, tail);
            ScanInv(s, i + 1, count, best, bestSize);
            ScanInv(s, i + 1, count + 1, if size > bestSize then Some(i) else best, if size > bestSize then size else bestSize);
          case Dequeuing(i, best, next) =>
            Counters.NextInv(s.ps[i], Counters.Run(s.me));
            Counters.NextAccounted(s.ps[i], Counters.Run(s.me));
            OneStays(s.ps[i], s.me);
            SteppedIs(s);
            var s1 := Stepped(s);
            if s1.ps[i].pcs[s.me].Idle? { TryNextInv(s1, best, next); }
          case _ =>
        }
    }
  }

  lemma {:induction false} RunInvariant(ss: seq<State>, acts: seq<Action>, n: nat)
    requires IsRun(ss, acts) && n < |ss|
    ensures Inv(ss[n])
  {
    hide Inv, Enabled, Next;
    if n == 0 {
      StartsOk(ss[0]);
    } else {
      RunInvariant(ss, acts, n - 1);
      NextInv(ss[n - 1], acts[n - 1]);
    }
  }

  lemma StartsOk(s: State)
    requires Init(s)
    ensures Inv(s)
  {
    hide Counters.Inv, Counters.Accounted;
    forall i | 0 <= i < |s.ps| ensures Counters.Inv(s.ps[i]) && Counters.Accounted(s.ps[i]) { Counters.InitInv(s.ps[i]); }
  }

  // ---------------------------------------------------------------- what a call that fails has seen

  /**
    What is left of the first `tail` elements of producer i, if those are taken away that are claimed,
    that pending tickets cover, or that tickets cover that others have given back since state r.
   */
  function LeftSince(r: State, s: State, i: nat, tail: nat): int
    requires i < |r.ps| && i < |s.ps| && |r.mine| == |r.ps| && |s.mine| == |s.ps|
  {
    Counters.Left(s.ps[i], r.ps[i].over, tail) + s.mine[i] - r.mine[i]
  }

  /** The thread itself holds no ticket of producer i. */
  predicate Unticketed(s: State, i: nat) { i < |s.ps| == |s.mine| && s.me < |s.ps[i].pcs| && Counters.Pending(s.ps[i].pcs[s.me]) == 0 }

  /** Nothing is left at producer i of what was there in state r, and that is not the thread's own doing. */
  predicate Covered(r: State, s: State, i: nat) {
    i < |r.ps| == |r.mine| && Unticketed(s, i) && LeftSince(r, s, i, r.ps[i].tail) <= 0
  }

  /** Counters only grow. */
  ghost predicate Grown(r: State, s: State) {
    |r.ps| == |s.ps| == |r.mine| == |s.mine| && s.me == r.me && forall i | 0 <= i < |r.ps| :: r.ps[i].tail <= s.ps[i].tail && r.ps[i].over <= s.ps[i].over
  }

  /** `low[i]` bounds LeftSince of the first 0 elements of producer i at some moment since r. */
  ghost predicate Seen(r: State, low: seq<int>, i: nat) { i < |r.ps| == |low| && r.ps[i].tail + low[i] <= 0 }

  /** The consumer's locals are not older than state r. */
  ghost predicate Locals(r: State, low: seq<int>, i: nat, p: Counters.Pc)
    requires i < |r.ps| == |low|
  {
    match p
    case LoadOver(_, tail) => r.ps[i].tail <= tail
    case LoadOpt(_, tail, over) => r.ps[i].tail <= tail && r.ps[i].over <= over
    case Reserve(_, _, over) => r.ps[i].over <= over
    case LoadTail(_, my, _, over) => low[i] + (my - over) <= 0
    case GiveBack(_) => Seen(r, low, i)
    case _ => true
  }

  /** How far a call that began in state r has come. */
  ghost predicate Progress(r: State, low: seq<int>, s: State)
    requires |low| == |r.ps| == |s.ps| == |r.mine| == |s.mine|
  {
    match s.at
    case Outside => false
    case LoadTail(i, count, best, bestSize) => s.mine == r.mine && (best == None ==> count == bestSize == 0 && forall j | 0 <= j < i :: Seen(r, low, j))
    case LoadHead(i, tail, count, best, bestSize) =>
      && s.mine == r.mine && i < |r.ps| && r.ps[i].tail <= tail
      && (best == None ==> count == bestSize == 0 && forall j | 0 <= j < i :: Seen(r, low, j))
    case Dequeuing(i, fullest, next) =>
      && i < |r.ps| && s.me < |s.ps[i].pcs| && Locals(r, low, i, s.ps[i].pcs[s.me])
      && (i == fullest || i < next) && s.mine[i] == r.mine[i] && (forall j | next <= j < |r.ps| && j != fullest :: s.mine[j] == r.mine[j])
      && (forall j | 0 <= j < next && j != i && j != fullest :: Seen(r, low, j)) && (i != fullest ==> Seen(r, low, fullest))
    case Done(ok) => !ok ==> forall j | 0 <= j < |r.ps| :: Seen(r, low, j)
  }

  /** The bounds after one more moment. */
  ghost predicate Lower(r: State, low: seq<int>, low': seq<int>, s: State) {
    && |low| == |low'| == |r.ps| == |s.ps| == |r.mine| == |s.mine|
    && forall i | 0 <= i < |low| :: low'[i] <= low[i] && (Unticketed(s, i) ==> low'[i] <= LeftSince(r, s, i, 0))
  }

  lemma BeginProgress(r: State, low: seq<int>, s: State, i: nat, fullest: nat, next: nat)
    requires Listed(s) && Grown(r, s) && |low| == |r.ps| && i < |s.ps|
    requires (i == fullest || i < next) && s.mine[i] == r.mine[i] && forall j | next <= j < |r.ps| && j != fullest :: s.mine[j] == r.mine[j]
    requires (forall j | 0 <= j < next && j != i && j != fullest :: Seen(r, low, j)) && (i != fullest ==> Seen(r, low, fullest))
    ensures Progress(r, low, Begin(s, i, fullest, next))
  {
    hide Seen;
  }

  lemma {:induction false} TryNextProgress(r: State, low: seq<int>, s: State, fullest: nat, next: nat)
    requires Listed(s) && Grown(r, s) && |low| == |r.ps|
    requires Seen(r, low, fullest) && forall j | 0 <= j < next && j < |s.ps| :: Seen(r, low, j)
    requires forall j | next <= j < |r.ps| && j != fullest :: s.mine[j] == r.mine[j]
    ensures |TryNext(s, fullest, next).ps| == |r.ps| == |TryNext(s, fullest, next).mine| && Progress(r, low, TryNext(s, fullest, next))
    decreases |s.ps| - next
  {
    hide Seen, Listed;
    if next < |s.ps| {
      if next == fullest { TryNextProgress(r, low, s, fullest, next + 1); } else { BeginProgress(r, low, s, next, fullest, next + 1); }
    }
  }

  lemma ScanProgress(r: State, low: seq<int>, s: State, i: nat, count: nat, best: Option<nat>, bestSize: nat)
    requires Listed(s) && Grown(r, s) && |low| == |r.ps| && (best.Some? ==> best.value < |s.ps|) && s.mine == r.mine
    requires best == None ==> count == bestSize == 0 && forall j | 0 <= j < i && j < |s.ps| :: Seen(r, low, j)
    ensures |Scan(s, i, count, best, bestSize).ps| == |r.ps| == |Scan(s, i, count, best, bestSize).mine| && Progress(r, low, Scan(s, i, count, best, bestSize))
  {
    hide Seen, Listed;
    if !(count < 3 && i < |s.ps|) && best.Some? { BeginProgress(r, low, s, best.value, best.value, 0); }
  }

  lemma StillSeen(r: State, low: seq<int>, low': seq<int>, s: State)
    requires Lower(r, low, low', s)
    ensures |low'| == |low| == |r.ps|
    ensures forall i: nat | Seen(r, low, i) :: Seen(r, low', i)
    ensures forall i: nat, p | i < |r.ps| && Locals(r, low, i, p) :: Locals(r, low', i, p)
  {}

  lemma StillGrown(r: State, s: State, a: Action)
    requires Grown(r, s) && Enabled(s, a)
    ensures Grown(r, Next(s, a))
  {
    hide Counters.Next, Counters.Enabled;
    match a {
      case Other(i, b) => CountersGrow(s.ps[i], b);
      case Mine =>
        match s.at {
          case Dequeuing(i, best, next) =>
            CountersGrow(s.ps[i], Counters.Run(s.me));
            var s1 := Stepped(s);
            if s1.ps[i].pcs[s.me].Idle? { TryNextKeeps(s1, best, next); }
          case _ =>
        }
    }
  }

  lemma CountersGrow(c: Counters.State, a: Counters.Action)
    requires Counters.Enabled(c, a)
    ensures var c' := Counters.Next(c, a); c.tail <= c'.tail && c.over <= c'.over && |c'.pcs| == |c.pcs|
  {}

  lemma {:induction false} TryNextKeeps(s: State, best: nat, next: nat)
    requires Listed(s)
    ensures Grown(s, TryNext(s, best, next))
    decreases |s.ps| - next
  {
    if next < |s.ps| && next == best { TryNextKeeps(s, best, next + 1); }
  }

  /** A step inside dequeue: it gives up only when the elements of state r are covered. */
  lemma Dequeues(r: State, low: seq<int>, low': seq<int>, s: State)
    requires Inv(s) && Enabled(s, Mine) && s.at.Dequeuing? && Grown(r, s) && Lower(r, low, low', s)
    requires s.mine[s.at.i] == r.mine[s.at.i] && Locals(r, low, s.at.i, s.ps[s.at.i].pcs[s.me])
    ensures var c, c' := s.ps[s.at.i], Counters.Next(s.ps[s.at.i], Counters.Run(s.me));
            && s.me < |c'.pcs| && Locals(r, low', s.at.i, c'.pcs[s.me])
            && (c'.pcs[s.me].Idle? && !c.pcs[s.me].Claim? ==> Seen(r, low', s.at.i))
  {
    hide Counters.Inv, Counters.Accounted;
    var i, t := s.at.i, s.me;
    var c := s.ps[i];
    match c.pcs[t] {
      case LoadOpt(_, _, _) => FirstGuardSeen(r, low', s, i);
      case Reserve(_, _, _) => TicketSeen(r, low', s, i);
      case LoadTail(_, _, _, _) => SecondGuardSeen(r, low, low', s, i);
      case _ =>
    }
  }

  lemma FirstGuardSeen(r: State, low': seq<int>, s: State, i: nat)
    requires Grown(r, s) && Listed(s) && i < |s.ps| == |low'| && s.ps[i].pcs[s.me].LoadOpt? && Counters.Accounted(s.ps[i])
    requires var p := s.ps[i].pcs[s.me]; Close(s.ps[i].opt - p.over, p.tail) && r.ps[i].tail <= p.tail && r.ps[i].over <= p.over
    requires s.mine[i] == r.mine[i] && low'[i] <= LeftSince(r, s, i, 0)
    ensures Counters.Next(s.ps[i], Counters.Run(s.me)).pcs[s.me].Idle? ==> Seen(r, low', i)
  {
    Counters.FirstGuardExactly(s.ps[i], s.me);
  }

  lemma TicketSeen(r: State, low': seq<int>, s: State, i: nat)
    requires Grown(r, s) && Listed(s) && i < |s.ps| == |low'| && s.ps[i].pcs[s.me].Reserve? && Counters.Accounted(s.ps[i])
    requires s.mine[i] == r.mine[i] && r.ps[i].over <= s.ps[i].pcs[s.me].over && low'[i] <= LeftSince(r, s, i, 0)
    ensures Locals(r, low', i, Counters.Next(s.ps[i], Counters.Run(s.me)).pcs[s.me])
  {
    Counters.TicketDrawn(s.ps[i], s.me);
    var p := Counters.Next(s.ps[i], Counters.Run(s.me)).pcs[s.me];
    assert 0 - (p.my - p.over) == Counters.Left(s.ps[i], s.ps[i].pcs[s.me].over, 0);
  }

  lemma SecondGuardSeen(r: State, low: seq<int>, low': seq<int>, s: State, i: nat)
    requires Grown(r, s) && Inv(s) && i < |s.ps| && s.ps[i].pcs[s.me].LoadTail? && Counters.Enabled(s.ps[i], Counters.Run(s.me)) && Lower(r, low, low', s)
    requires Locals(r, low, i, s.ps[i].pcs[s.me])
    ensures var p := Counters.Next(s.ps[i], Counters.Run(s.me)).pcs[s.me]; Locals(r, low', i, p) && !p.Idle?
  {
    Counters.SecondGuardExactly(s.ps[i], s.me);
  }

  lemma SizeSeen0(r: State, low: seq<int>, low': seq<int>, s: State)
    requires Inv(s) && Enabled(s, Mine) && s.at.LoadHead? && Grown(r, s) && s.mine == r.mine && Lower(r, low, low', s) && r.ps[s.at.i].tail <= s.at.tail
    ensures SizeSeen(s.ps[s.at.i].head, s.at.tail) == 0 ==> Seen(r, low', s.at.i)
  {
    hide Counters.Inv, Counters.Accounted;
    var i := s.at.i;
    SizeSeenExactly(s.ps[i].head, s.at.tail);
    assert s.ps[i].pcs[s.me].Idle? && Unticketed(s, i);
  }

  lemma MineProgress(r: State, low: seq<int>, low': seq<int>, s: State)
    requires Inv(s) && Enabled(s, Mine) && Grown(r, s) && Lower(r, low, low', s) && Progress(r, low, s)
    ensures |Next(s, Mine).ps| == |r.ps| == |Next(s, Mine).mine| && Progress(r, low', Next(s, Mine))
  {
    hide Counters.Inv, Counters.Accounted, Counters.Enabled, Counters.Next, Seen, Lower, Locals;
    StillSeen(r, low, low', s);
    match s.at {
      case LoadHead(i, tail, count, best, bestSize) =>
        SizeSeen0(r, low, low', s);
        var size := SizeSeen(s.ps[i].head, tail);
        if size == 0 { ScanProgress(r, low', s, i + 1, count, best, bestSize); }
        else { ScanProgress(r, low', s, i + 1, count + 1, if size > bestSize then Some(i) else best, if size > bestSize then size else bestSize); }
      case Dequeuing(_, _, _) => DequeueProgress(r, low, low', s);
      case _ =>
    }
  }

  lemma GaveBack(c: Counters.State, t: nat)
    requires Counters.Enabled(c, Counters.Run(t)) && c.pcs[t].GiveBack?
    ensures t < |Counters.Next(c, Counters.Run(t)).pcs| && Counters.Next(c, Counters.Run(t)).pcs[t].Idle?
  {}

  lemma DequeueProgress(r: State, low: seq<int>, low': seq<int>, s: State)
    requires Inv(s) && Enabled(s, Mine) && s.at.Dequeuing? && Grown(r, s) && Lower(r, low, low', s) && Progress(r, low, s)
    ensures |Next(s, Mine).ps| == |r.ps| == |Next(s, Mine).mine| && Progress(r, low', Next(s, Mine))
  {
    hide Counters.Inv, Counters.Accounted, Counters.Enabled, Counters.Next, Seen, Lower, Locals;
    StillSeen(r, low, low', s);
    var Dequeuing(i, best, next) := s.at;
    if s.ps[i].pcs[s.me].GiveBack? { GaveBack(s.ps[i], s.me); }
    CountersGrow(s.ps[i], Counters.Run(s.me));
    Dequeues(r, low, low', s);
    var s1 := Stepped(s);
    if s1.ps[i].pcs[s.me].Idle? && !s.ps[i].pcs[s.me].Claim? { TryNextProgress(r, low', s1, best, next); }
  }

  /** The other threads. */
  lemma OtherProgress(r: State, low: seq<int>, low': seq<int>, s: State, a: Action)
    requires Inv(s) && a.Other? && Enabled(s, a) && Grown(r, s) && Lower(r, low, low', s) && Progress(r, low, s)
    ensures |Next(s, a).ps| == |r.ps| == |Next(s, a).mine| && Progress(r, low', Next(s, a))
  {
    hide Counters.Inv, Counters.Accounted, Counters.Enabled, Counters.Next, Seen, Lower, Locals;
    StillSeen(r, low, low', s);
    OthersStay(s.ps[a.i], a.a, s.me);
  }

  // ---------------------------------------------------------------- the moments of a call

  function Min(x: int, y: int): int { if x <= y then x else y }

  /** The least that was left at producer i at the moments from b on, as far as the thread held no ticket itself. */
  function Least(ss: seq<State>, b: nat, n: nat, i: nat): int
    requires b < n <= |ss| && forall m | b <= m < n :: i < |ss[m].ps| == |ss[m].mine|
    decreases n
  {
    if n == b + 1 then LeftSince(ss[b], ss[b], i, 0)
    else
      var before := Least(ss, b, n - 1, i);
      if Unticketed(ss[n - 1], i) then Min(before, LeftSince(ss[b], ss[n - 1], i, 0)) else before
  }

  lemma {:induction false} LeastSomewhere(ss: seq<State>, b: nat, n: nat, i: nat) returns (m: nat)
    requires b < n <= |ss| && (forall m | b <= m < n :: i < |ss[m].ps| == |ss[m].mine|) && Unticketed(ss[b], i)
    ensures b <= m < n && Unticketed(ss[m], i) && Least(ss, b, n, i) == LeftSince(ss[b], ss[m], i, 0)
  {
    if n == b + 1 {
      m := b;
    } else {
      m := LeastSomewhere(ss, b, n - 1, i);
      if Unticketed(ss[n - 1], i) && LeftSince(ss[b], ss[n - 1], i, 0) < Least(ss, b, n - 1, i) { m := n - 1; }
    }
  }

  ghost predicate SameList(ss: seq<State>) { forall n | 0 <= n < |ss| :: |ss[n].ps| == |ss[n].mine| == |ss[0].ps| && ss[n].me == ss[0].me }

  function AllLeast(ss: seq<State>, b: nat, n: nat): (low: seq<int>)
    requires b < n <= |ss| && SameList(ss)
  {
    seq(|ss[0].ps|, i requires 0 <= i < |ss[0].ps| => Least(ss, b, n, i))
  }

  lemma {:induction false} RunSame(ss: seq<State>, acts: seq<Action>, n: nat)
    requires IsRun(ss, acts) && n < |ss|
    ensures |ss[n].ps| == |ss[n].mine| == |ss[0].ps| && ss[n].me == ss[0].me
  {
    hide Enabled, Next, Inv;
    if n > 0 {
      RunSame(ss, acts, n - 1);
      RunInvariant(ss, acts, n - 1);
      StillGrown(ss[n - 1], ss[n - 1], acts[n - 1]);
    }
  }

  lemma RunsSame(ss: seq<State>, acts: seq<Action>)
    requires IsRun(ss, acts)
    ensures SameList(ss)
  {
    hide IsRun;
    forall n | 0 <= n < |ss| ensures |ss[n].ps| == |ss[n].mine| == |ss[0].ps| && ss[n].me == ss[0].me { RunSame(ss, acts, n); }
  }

  lemma {:induction false} CallProgress(ss: seq<State>, acts: seq<Action>, b: nat, n: nat)
    requires IsRun(ss, acts) && SameList(ss) && b < n < |ss| && ss[b].at.Outside? && acts[b].Mine?
    ensures Grown(ss[b], ss[n]) && Progress(ss[b], AllLeast(ss, b, n), ss[n])
  {
    hide Init, Enabled, Next, Inv, Grown, Progress, Least, Unticketed, LeftSince;
    if n == b + 1 {
      CallBegins(ss[b], AllLeast(ss, b, n));
    } else {
      CallProgress(ss, acts, b, n - 1);
      RunInvariant(ss, acts, n - 1);
      StillGrown(ss[b], ss[n - 1], acts[n - 1]);
      LowerBy(ss, b, n);
      if acts[n - 1].Mine? { MineProgress(ss[b], AllLeast(ss, b, n - 1), AllLeast(ss, b, n), ss[n - 1]); }
      else { OtherProgress(ss[b], AllLeast(ss, b, n - 1), AllLeast(ss, b, n), ss[n - 1], acts[n - 1]); }
    }
  }

  lemma CallBegins(s: State, low: seq<int>)
    requires Enabled(s, Mine) && s.at.Outside? && |low| == |s.ps|
    ensures Grown(s, Next(s, Mine)) && |Next(s, Mine).ps| == |s.ps| == |s.mine| == |Next(s, Mine).mine| && Progress(s, low, Next(s, Mine))
  {
    StillGrown(s, s, Mine);
    ScanProgress(s, low, s, 0, 0, None, 0);
  }

  lemma LowerBy(ss: seq<State>, b: nat, n: nat)
    requires b + 1 < n <= |ss| && SameList(ss)
    ensures Lower(ss[b], AllLeast(ss, b, n - 1), AllLeast(ss, b, n), ss[n - 1])
  {
    hide LeftSince, Unticketed;
  }

  /**
    A call that begins in state b and fails in state n: for each producer i there was a moment m at which
    all elements that were there in state b were claimed, or covered by the tickets of others.
   */
  lemma FailureMeans(ss: seq<State>, acts: seq<Action>, b: nat, n: nat, i: nat) returns (m: nat)
    requires IsRun(ss, acts) && b < n < |ss| && ss[b].at.Outside? && acts[b].Mine? && ss[n].at == Done(false) && i < |ss[b].ps|
    ensures b <= m < n && Covered(ss[b], ss[m], i)
  {
    hide Init, Enabled, Next, Inv, Covered, Unticketed, Least, LeftSince;
    RunsSame(ss, acts);
    CallProgress(ss, acts, b, n);
    RunInvariant(ss, acts, b);
    OutsideUnticketed(ss[b], i);
    m := LeastSomewhere(ss, b, n, i);
    assert Seen(ss[b], AllLeast(ss, b, n), i);
    CoveredThen(ss[b], ss[m], i);
  }

  lemma OutsideUnticketed(s: State, i: nat)
    requires Inv(s) && s.at.Outside? && i < |s.ps|
    ensures Unticketed(s, i)
  {}

  lemma CoveredThen(r: State, s: State, i: nat)
    requires i < |r.ps| == |r.mine| && Unticketed(s, i) && r.ps[i].tail + LeftSince(r, s, i, 0) <= 0
    ensures Covered(r, s, i)
  {}

  /** If no consumer holds a ticket at that moment and nobody else has given one back, the producer's elements are claimed, all of them. */
  lemma CoveredByNobody(r: State, s: State, i: nat)
    requires Covered(r, s, i) && forall t | 0 <= t < |s.ps[i].pcs| :: Counters.Pending(s.ps[i].pcs[t]) == 0
    requires s.ps[i].over + r.mine[i] == r.ps[i].over + s.mine[i]
    ensures r.ps[i].tail <= s.ps[i].head
  {
    Counters.SumZero(s.ps[i].pcs, Counters.Pending);
  }

  // ---------------------------------------------------------------- what a call that succeeds has done

  /** The thread claims the oldest element of producer i that is not claimed. */
  predicate ClaimsAt(s: State, s': State, i: nat) {
    && i < |s.ps| == |s'.ps| && s.ps[i].head < s.ps[i].tail
    && s'.ps[i].claims == s.ps[i].claims + [Counters.Range(s.me, s.ps[i].head, 1)] && s'.ps[i].head == s.ps[i].head + 1
    && forall j | 0 <= j < |s.ps| && j != i :: s'.ps[j] == s.ps[j]
  }

  predicate ClaimsNothing(s: State, s': State) {
    |s.ps| == |s'.ps| && forall j | 0 <= j < |s.ps| :: s'.ps[j].claims == s.ps[j].claims && s'.ps[j].head == s.ps[j].head
  }

  /** A step of the thread claims one element, at the producer it dequeues from, if the call succeeds with it, and otherwise none. */
  lemma OneClaim(s: State)
    requires Inv(s) && Enabled(s, Mine)
    ensures if Next(s, Mine).at == Done(true) then s.at.Dequeuing? && ClaimsAt(s, Next(s, Mine), s.at.i) else ClaimsNothing(s, Next(s, Mine))
  {
    hide Counters.Inv, Counters.Accounted, Counters.Next, Counters.Enabled;
    if s.at.Dequeuing? {
      var c := s.ps[s.at.i];
      ClaimsOne(c, s.me);
      var s1 := Stepped(s);
      if s1.ps[s.at.i].pcs[s.me].Idle? { TryNextClaims(s1, s.at.fullest, s.at.next); }
    }
  }

  lemma ClaimsOne(c: Counters.State, t: nat)
    requires Counters.Inv(c) && Counters.Enabled(c, Counters.Run(t)) && One(c.pcs[t])
    ensures var c' := Counters.Next(c, Counters.Run(t));
            && t < |c'.pcs|
            && if c.pcs[t].Claim? then c'.pcs[t].Idle? && c'.claims == c.claims + [Counters.Range(t, c.head, 1)] && c'.head == c.head + 1 && c.head < c.tail
               else c'.claims == c.claims && c'.head == c.head
  {
    hide Counters.Inv, Counters.Desired, Counters.Granted;
    if c.pcs[t].Claim? { Counters.InvSafe(c); }
  }

  lemma {:induction false} TryNextClaims(s: State, best: nat, next: nat)
    requires Listed(s)
    ensures TryNext(s, best, next).at != Done(true) && ClaimsNothing(s, TryNext(s, best, next))
    decreases |s.ps| - next
  {
    if next < |s.ps| && next == best { TryNextClaims(s, best, next + 1); }
  }

  // ---------------------------------------------------------------- a call that fails although an element is there

  /** The counters of a producer: the thread is consumer 0, and another consumer may have drawn a ticket. */
  function Counting(tail: nat, mine: Counters.Pc, other: Counters.Pc, tickets: seq<Counters.Ticket>): Counters.State {
    Counters.State(|tickets|, 0, 0, tail, [mine, other], tickets, [])
  }

  /** One element, and the other consumer has drawn its ticket and not come to its claim yet. */
  function Drawn(mine: Counters.Pc): Counters.State { Counting(1, mine, Counters.LoadTail(Counters.Single, 0, 1, 0), [Counters.Open]) }

  lemma OtherStep(c: Counters.State, a: Counters.Action)
    requires Counters.Enabled(c, a) && (a.Publish? || a.t != 0)
    ensures Enabled(State(0, [c], Outside, [0]), Other(0, a)) && Next(State(0, [c], Outside, [0]), Other(0, a)) == State(0, [Counters.Next(c, a)], Outside, [0])
  {
    assert [c][0 := Counters.Next(c, a)] == [Counters.Next(c, a)];
  }

  lemma PublishStep(c: Counters.State)
    requires c == Counting(0, Counters.Idle, Counters.Idle, [])
    ensures Counters.Next(c, Counters.Publish(1)) == Counting(1, Counters.Idle, Counters.Idle, [])
  {}

  /** The other consumer on its way to its ticket. */
  lemma DrawStep(p: Counters.Pc, p': Counters.Pc, a: Counters.Action)
    requires || (a == Counters.Start(1, Counters.Single) && p.Idle? && p' == Counters.LoadOver(Counters.Single, 1))
             || (a == Counters.Run(1) && p == Counters.LoadOver(Counters.Single, 1) && p' == Counters.LoadOpt(Counters.Single, 1, 0))
             || (a == Counters.Run(1) && p == Counters.LoadOpt(Counters.Single, 1, 0) && p' == Counters.Reserve(Counters.Single, 1, 0))
    ensures var c := Counting(1, Counters.Idle, p, []); Counters.Enabled(c, a) && Counters.Next(c, a) == Counting(1, Counters.Idle, p', [])
  {
    Counters.DesiredExact(Counters.Single, 0, 0, 1);
    assert [Counters.Idle, p][1 := p'] == [Counters.Idle, p'];
  }

  lemma ReserveStep()
    ensures var c := Counting(1, Counters.Idle, Counters.Reserve(Counters.Single, 1, 0), []);
            Counters.Enabled(c, Counters.Run(1)) && Counters.Next(c, Counters.Run(1)) == Drawn(Counters.Idle)
  {
    var c := Counting(1, Counters.Idle, Counters.Reserve(Counters.Single, 1, 0), []);
    assert [] + seq(1, _ => Counters.Open) == [Counters.Open];
    assert c.pcs[1 := Counters.LoadTail(Counters.Single, 0, 1, 0)] == [Counters.Idle, Counters.LoadTail(Counters.Single, 0, 1, 0)];
  }

  /** The call: it sees one element, and gives up at the first guard. */
  function Call(n: nat): State {
    if n == 0 then State(0, [Drawn(Counters.Idle)], Outside, [0])
    else if n == 1 then State(0, [Drawn(Counters.Idle)], LoadTail(0, 0, None, 0), [0])
    else if n == 2 then State(0, [Drawn(Counters.Idle)], LoadHead(0, 1, 0, None, 0), [0])
    else if n == 3 then State(0, [Drawn(Counters.LoadOver(Counters.Single, 1))], Dequeuing(0, 0, 0), [0])
    else if n == 4 then State(0, [Drawn(Counters.LoadOpt(Counters.Single, 1, 0))], Dequeuing(0, 0, 0), [0])
    else State(0, [Drawn(Counters.Idle)], Done(false), [0])
  }

  lemma CallStep(n: nat)
    requires n < 5
    ensures Enabled(Call(n), Mine) && Next(Call(n), Mine) == Call(n + 1)
  {
    var s := Call(n);
    var c := s.ps[0];
    if n == 2 {
      SizeSeenExactly(0, 1);
      var c' := Drawn(Counters.LoadOver(Counters.Single, 1));
      assert c.pcs[0 := Counters.LoadOver(Counters.Single, 1)] == c'.pcs;
      assert [c][0 := c'] == [c'];
    } else if n == 3 {
      var c' := Drawn(Counters.LoadOpt(Counters.Single, 1, 0));
      assert c.pcs[0 := Counters.LoadOpt(Counters.Single, 1, 0)] == c'.pcs;
      assert [c][0 := c'] == [c'];
    } else if n == 4 {
      Counters.DesiredExact(Counters.Single, 1, 0, 1);
      var c' := Drawn(Counters.Idle);
      assert c.pcs[0 := Counters.Idle] == c'.pcs;
      assert [c][0 := c'] == [c'];
    }
  }

  function Before(n: nat): State {
    var c := if n == 0 then Counting(0, Counters.Idle, Counters.Idle, [])
             else Counting(1, Counters.Idle, if n == 1 then Counters.Idle
                                             else if n == 2 then Counters.LoadOver(Counters.Single, 1)
                                             else if n == 3 then Counters.LoadOpt(Counters.Single, 1, 0)
                                             else Counters.Reserve(Counters.Single, 1, 0), []);
    State(0, [c], Outside, [0])
  }

  function OtherAt(n: nat): Counters.Action {
    if n == 0 then Counters.Publish(1) else if n == 1 then Counters.Start(1, Counters.Single) else Counters.Run(1)
  }

  lemma BeforeStep(n: nat)
    requires n < 5
    ensures Enabled(Before(n), Other(0, OtherAt(n))) && Next(Before(n), Other(0, OtherAt(n))) == if n < 4 then Before(n + 1) else Call(0)
  {
    if n == 0 { PublishStep(Before(0).ps[0]); }
    else if n < 4 { DrawStep(Before(n).ps[0].pcs[1], Before(n + 1).ps[0].pcs[1], OtherAt(n)); }
    else { ReserveStep(); }
    OtherStep(Before(n).ps[0], OtherAt(n));
  }

  /**
    One producer, one element.  Another consumer has drawn its ticket and not come to its claim yet.  The
    call sees one element, gives up at the first guard, and fails; nobody has claimed the element.
   */
  lemma MissesElement() returns (ss: seq<State>, acts: seq<Action>)
    ensures IsRun(ss, acts) && ss[|acts|].at == Done(false) && |ss[|acts|].ps| == 1
    ensures var c := ss[|acts|].ps[0]; c.head == 0 && c.tail == 1 && c.claims == []
  {
    ss := seq(11, n requires 0 <= n < 11 => if n < 5 then Before(n) else Call(n - 5));
    acts := seq(10, n requires 0 <= n < 10 => if n < 5 then Other(0, OtherAt(n)) else Mine);
    assert Init(Before(0)) && ss[10] == Call(5);
    hide Enabled, Next, Before, Init;
    forall n | 0 <= n < |acts| ensures Enabled(ss[n], acts[n]) && ss[n + 1] == Next(ss[n], acts[n]) {
      if n < 5 { BeforeStep(n); } else { CallStep(n - 5); }
    }
  }
}
