/**
  How consumers claim elements of one producer: dequeueOptimisticCount, dequeueOvercommit,
  headIndex and tailIndex of concurrentqueue.h, one atomic operation per step, for any number
  of consumers mixing dequeue and dequeue_bulk and one producer that publishes at any time.

  The counters are unbounded here; the guards of the code are evaluated on their 64-bit images.
  The second guard is evaluated only while the two indices it compares are less than 2^63 apart,
  which is what the header asks of its index type.  Steps are sequentially consistent.
*/
module DequeueCounters {
  import opened Options
  import opened Words

  /** dequeue, or dequeue_bulk with its `max`. */
  datatype Mode = Single | Bulk(max: nat)

  /** What a consumer does next; arguments are its locals. */
  datatype Pc =
    | Idle
    | LoadOver(mode: Mode, tail: nat)
    | LoadOpt(mode: Mode, tail: nat, over: nat)
    | Reserve(mode: Mode, desired: nat, over: nat)            // dequeueOptimisticCount.fetch_add
    | LoadTail(mode: Mode, my: nat, desired: nat, over: nat)  // reload tailIndex and decide
    | GiveBack(lost: nat)                                     // nothing there: dequeueOvercommit.fetch_add
    | Return(won: nat, lost: nat)                             // less than wanted: dequeueOvercommit.fetch_add
    | Claim(won: nat)                                         // headIndex.fetch_add

  /** Every unit added to the optimistic count is a ticket; its owner learns later whether it won. */
  datatype Ticket = Open | Won | Lost

  /** `first` .. `first + count` was claimed by consumer `who`. */
  datatype Range = Range(who: nat, first: nat, count: nat)

  /** The four counters, the consumers, and (auxiliary) the tickets and the claims in order. */
  datatype State = State(
    opt: nat, over: nat, head: nat, tail: nat,
    pcs: seq<Pc>,
    tickets: seq<Ticket>,
    claims: seq<Range>)

  /** What the first guard lets the consumer reserve. */
  function Desired(mode: Mode, opt: nat, over: nat, tail: nat): Option<nat> {
    match mode
    case Single => if CircularLess(Img(opt - over), Img(tail)) then Some(1) else None
    case Bulk(max) =>
      var d := Sub(Img(tail), Img(opt - over));
      if CircularLess(0, d) then Some(if d < max then d else max) else None
  }

  /** What the second guard grants. */
  function Granted(mode: Mode, my: nat, over: nat, tail: nat, desired: nat): Option<nat> {
    match mode
    case Single => if CircularLess(Img(my - over), Img(tail)) then Some(1) else None
    case Bulk(_) =>
      var a := Sub(Img(tail), Img(my - over));
      if CircularLess(0, a) then Some(if desired < a then desired else a) else None
  }

  datatype Action = Publish(count: nat) | Start(t: nat, mode: Mode) | Run(t: nat)

  predicate Enabled(s: State, a: Action) {
    match a
    case Publish(_) => true
    case Start(t, _) => t < |s.pcs| && s.pcs[t].Idle?
    case Run(t) =>
      && t < |s.pcs| && !s.pcs[t].Idle?
      && (s.pcs[t].LoadTail? ==> Close(s.pcs[t].my - s.pcs[t].over, s.tail))
  }

  function Goto(s: State, t: nat, p: Pc): State
    requires t < |s.pcs|
  {
    s.(pcs := s.pcs[t := p])
  }

  /** The tickets my .. my + desired, decided: the first `won` of them win. */
  function Mark(o: seq<Ticket>, my: nat, won: nat, desired: nat): (r: seq<Ticket>)
    ensures |r| == |o|
  {
    seq(|o|, i requires 0 <= i < |o| => if my <= i < my + won then Won else if my <= i < my + desired then Lost else o[i])
  }

  function Next(s: State, a: Action): State
    requires Enabled(s, a)
  {
    match a
    case Publish(count) => s.(tail := s.tail + count)
    case Start(t, mode) => Goto(s, t, LoadOver(mode, s.tail))
    case Run(t) =>
      match s.pcs[t]
      case LoadOver(mode, tail) => Goto(s, t, LoadOpt(mode, tail, s.over))
      case LoadOpt(mode, tail, over) =>
        (match Desired(mode, s.opt, over, tail)
         case Some(d) => Goto(s, t, Reserve(mode, d, over))
         case None => Goto(s, t, Idle))
      case Reserve(mode, d, over) =>
        Goto(s.(opt := s.opt + d, tickets := s.tickets + seq(d, _ => Open)), t, LoadTail(mode, s.opt, d, over))
      case LoadTail(mode, my, d, over) =>
        (match Granted(mode, my, over, s.tail, d)
         case None => Goto(s.(tickets := Mark(s.tickets, my, 0, d)), t, GiveBack(d))
         case Some(won) =>
           var s1 := s.(tickets := Mark(s.tickets, my, won, d));
           Goto(s1, t, if won < d then Return(won, d - won) else Claim(won)))
      case GiveBack(lost) => Goto(s.(over := s.over + lost), t, Idle)
      case Return(won, lost) => Goto(s.(over := s.over + lost), t, Claim(won))
      case Claim(won) => Goto(s.(head := s.head + won, claims := s.claims + [Range(t, s.head, won)]), t, Idle)
  }

  predicate Init(s: State) {
    && s.opt == s.over == s.head == s.tail == 0
    && s.tickets == [] && s.claims == []
    && forall t | 0 <= t < |s.pcs| :: s.pcs[t].Idle?
  }

  // ---------------------------------------------------------------- counting tickets

  function LostUpTo(o: seq<Ticket>, k: nat): nat
    requires k <= |o|
  {
    if k == 0 then 0 else LostUpTo(o, k - 1) + if o[k - 1].Lost? then 1 else 0
  }

  function WonUpTo(o: seq<Ticket>, k: nat): nat
    requires k <= |o|
  {
    if k == 0 then 0 else WonUpTo(o, k - 1) + if o[k - 1].Won? then 1 else 0
  }

  /** How much of [lo, hi) lies below k. */
  function Below(lo: nat, hi: nat, k: nat): nat
    requires lo <= hi
  {
    if k <= lo then 0 else if k >= hi then hi - lo else k - lo
  }

  lemma {:induction false} Monotone(o: seq<Ticket>, j: nat, k: nat)
    requires j <= k <= |o|
    ensures LostUpTo(o, j) <= LostUpTo(o, k)
  {
    if j < k { Monotone(o, j, k - 1); }
  }

  lemma {:induction false} Prefix(o: seq<Ticket>, p: seq<Ticket>, k: nat)
    requires k <= |o| && k <= |p| && forall i | 0 <= i < k :: o[i] == p[i]
    ensures LostUpTo(o, k) == LostUpTo(p, k) && WonUpTo(o, k) == WonUpTo(p, k)
  {
    if k > 0 { Prefix(o, p, k - 1); }
  }

  /** Undecided tickets at the end count for nothing. */
  lemma {:induction false} Extended(o: seq<Ticket>, d: nat, k: nat)
    requires k <= d
    ensures var p := o + seq(d, _ => Open);
            LostUpTo(p, |o| + k) == LostUpTo(o, |o|) && WonUpTo(p, |o| + k) == WonUpTo(o, |o|)
  {
    var p := o + seq(d, _ => Open);
    if k == 0 { Prefix(o, p, |o|); } else { Extended(o, d, k - 1); }
  }

  lemma {:induction false} Marked(o: seq<Ticket>, my: nat, won: nat, d: nat, k: nat)
    requires won <= d && my + d <= |o| && k <= |o|
    requires forall i | my <= i < my + d :: o[i].Open?
    ensures var p := Mark(o, my, won, d);
            && LostUpTo(p, k) == LostUpTo(o, k) + Below(my + won, my + d, k)
            && WonUpTo(p, k) == WonUpTo(o, k) + Below(my, my + won, k)
  {
    if k > 0 { Marked(o, my, won, d, k - 1); }
  }

  lemma {:induction false} Decided(o: seq<Ticket>, k: nat)
    requires k <= |o|
    ensures WonUpTo(o, k) + LostUpTo(o, k) <= k
    ensures (forall i | 0 <= i < k :: !o[i].Open?) ==> WonUpTo(o, k) + LostUpTo(o, k) == k
  {
    if k > 0 { Decided(o, k - 1); }
  }

  /** A winning ticket i sees enough elements, whatever the tickets before it do. */
  ghost predicate Backed(o: seq<Ticket>, tail: nat, i: nat)
    requires i < |o|
  {
    o[i].Won? ==> i + 1 <= tail + LostUpTo(o, i + 1)
  }

  /** The last winning ticket bounds all the successes. */
  lemma {:induction false} LastWinnerBounds(o: seq<Ticket>, tail: nat, k: nat)
    requires k <= |o| && forall i | 0 <= i < k :: Backed(o, tail, i)
    ensures WonUpTo(o, k) <= tail
  {
    if k > 0 {
      if o[k - 1].Won? {
        Decided(o, k);
        assert Backed(o, tail, k - 1);
      } else {
        LastWinnerBounds(o, tail, k - 1);
      }
    }
  }

  // ---------------------------------------------------------------- summing over consumers

  function WonOf(p: Pc): nat { match p case Return(won, _) => won case Claim(won) => won case _ => 0 }

  function LostOf(p: Pc): nat { match p case Return(_, lost) => lost case GiveBack(lost) => lost case _ => 0 }

  function Sum(pcs: seq<Pc>, f: Pc -> nat): nat {
    if pcs == [] then 0 else Sum(pcs[..|pcs| - 1], f) + f(pcs[|pcs| - 1])
  }

  lemma {:induction false} SumUpdate(pcs: seq<Pc>, t: nat, p: Pc, f: Pc -> nat)
    requires t < |pcs|
    ensures Sum(pcs[t := p], f) + f(pcs[t]) == Sum(pcs, f) + f(p)
  {
    var n := |pcs| - 1;
    if t == n {
      assert pcs[t := p][..n] == pcs[..n];
    } else {
      SumUpdate(pcs[..n], t, p, f);
      assert pcs[t := p][..n] == pcs[..n][t := p];
    }
  }

  lemma {:induction false} SumMember(pcs: seq<Pc>, t: nat, f: Pc -> nat)
    requires t < |pcs|
    ensures f(pcs[t]) <= Sum(pcs, f)
  {
    if t < |pcs| - 1 { SumMember(pcs[..|pcs| - 1], t, f); }
  }

  lemma {:induction false} SumZero(pcs: seq<Pc>, f: Pc -> nat)
    requires forall t | 0 <= t < |pcs| :: f(pcs[t]) == 0
    ensures Sum(pcs, f) == 0
  {
    if pcs != [] { SumZero(pcs[..|pcs| - 1], f); }
  }

  // ---------------------------------------------------------------- the invariant

  /** The claims, in order, tile [0, head). */
  predicate Tiled(claims: seq<Range>, head: nat) {
    if claims == [] then head == 0
    else
      var c := claims[|claims| - 1];
      c.first + c.count == head && Tiled(claims[..|claims| - 1], c.first)
  }

  predicate Undecided(p: Pc, i: int) { p.LoadTail? && p.my <= i < p.my + p.desired }

  /** What consumer p may rely on. */
  ghost predicate PcOk(o: seq<Ticket>, p: Pc) {
    match p
    case LoadOpt(_, _, over) => over <= LostUpTo(o, |o|)
    case Reserve(mode, d, over) => over <= LostUpTo(o, |o|) && (mode.Single? ==> d == 1)
    case LoadTail(mode, my, d, over) =>
      && (mode.Single? ==> d == 1)
      && my + d <= |o|
      && (forall i | my <= i < my + d :: o[i].Open?)
      && over <= LostUpTo(o, my)
    case _ => true
  }

  ghost predicate TicketsOwned(s: State) {
    && (forall t | 0 <= t < |s.pcs| :: PcOk(s.tickets, s.pcs[t]))
    && (forall t, u, i | 0 <= t < |s.pcs| && 0 <= u < |s.pcs| && Undecided(s.pcs[t], i) && Undecided(s.pcs[u], i) :: t == u)
    && (forall i | 0 <= i < |s.tickets| && s.tickets[i].Open? :: exists t :: 0 <= t < |s.pcs| && Undecided(s.pcs[t], i))
  }

  ghost predicate Balanced(s: State) {
    && |s.tickets| == s.opt
    && s.over + Sum(s.pcs, LostOf) == LostUpTo(s.tickets, s.opt)
    && s.head + Sum(s.pcs, WonOf) == WonUpTo(s.tickets, s.opt)
  }

  ghost predicate Inv(s: State) {
    && Balanced(s)
    && TicketsOwned(s)
    && (forall i | 0 <= i < |s.tickets| :: Backed(s.tickets, s.tail, i))
    && Tiled(s.claims, s.head)
  }

  // ---------------------------------------------------------------- the guards, on integers

  lemma PositiveImage(x: int)
    requires -HALF < x < HALF
    ensures CircularLess(0, Img(x)) <==> x > 0
    ensures x > 0 ==> Img(x) == x
  {
    if x >= 0 { DivModUnique(x, WORD, 0, x); } else { DivModUnique(x, WORD, -1, x + WORD); }
    if x > 0 { DivModUnique(-x, WORD, -1, WORD - x); } else if x < 0 { DivModUnique(-x - WORD, WORD, -1, -x); }
  }

  /** The second guard grants what is there beyond the consumer's ticket, up to what it wants. */
  lemma GrantedExact(mode: Mode, my: nat, over: nat, tail: nat, d: nat)
    requires Close(my - over, tail) && (mode.Single? ==> d == 1)
    ensures var left := tail - (my - over);
            Granted(mode, my, over, tail, d) == if left <= 0 then None else Some(if d < left then d else left)
  {
    var left := tail - (my - over);
    CircularLessIsLess(my - over, tail);
    SubImages(tail, my - over);
    PositiveImage(left);
  }

  /** The first guard wants what is there beyond all the tickets given out, up to `max`. */
  lemma DesiredExact(mode: Mode, opt: nat, over: nat, tail: nat)
    requires Close(opt - over, tail)
    ensures var left := tail - (opt - over);
            var max := if mode.Single? then 1 else mode.max;
            Desired(mode, opt, over, tail) == if left <= 0 then None else Some(if left < max then left else max)
  {
    var left := tail - (opt - over);
    CircularLessIsLess(opt - over, tail);
    SubImages(tail, opt - over);
    PositiveImage(left);
  }

  // ---------------------------------------------------------------- each step keeps the invariant

  /** Moving a consumer that neither holds nor gets undecided tickets. */
  lemma MoveOwned(s: State, t: nat, p: Pc)
    requires t < |s.pcs| && TicketsOwned(s) && !s.pcs[t].LoadTail? && !p.LoadTail? && PcOk(s.tickets, p)
    ensures TicketsOwned(Goto(s, t, p))
  {
    var s' := Goto(s, t, p);
    forall i | 0 <= i < |s.tickets| && s.tickets[i].Open?
      ensures exists u :: 0 <= u < |s'.pcs| && Undecided(s'.pcs[u], i)
    {
      var u :| 0 <= u < |s.pcs| && Undecided(s.pcs[u], i);
      assert Undecided(s'.pcs[u], i);
    }
  }

  lemma PublishInv(s: State, count: nat)
    requires Inv(s)
    ensures Inv(Next(s, Publish(count)))
  {
    var tail' := s.tail + count;
    forall i | 0 <= i < |s.tickets| ensures Backed(s.tickets, tail', i) { assert Backed(s.tickets, s.tail, i); }
  }

  lemma StartInv(s: State, t: nat, mode: Mode)
    requires Inv(s) && Enabled(s, Start(t, mode))
    ensures Inv(Next(s, Start(t, mode)))
  {
    SumUpdate(s.pcs, t, LoadOver(mode, s.tail), LostOf);
    SumUpdate(s.pcs, t, LoadOver(mode, s.tail), WonOf);
    MoveOwned(s, t, LoadOver(mode, s.tail));
  }

  /** The steps that touch no ticket. */
  lemma CounterStepInv(s: State, t: nat)
    requires Inv(s) && Enabled(s, Run(t)) && !s.pcs[t].Reserve? && !s.pcs[t].LoadTail?
    ensures Inv(Next(s, Run(t)))
  {
    var s' := Next(s, Run(t));
    SumUpdate(s.pcs, t, s'.pcs[t], LostOf);
    SumUpdate(s.pcs, t, s'.pcs[t], WonOf);
    assert PcOk(s.tickets, s.pcs[t]);
    MoveOwned(s, t, s'.pcs[t]);
    if s.pcs[t].Claim? {
      assert s'.claims[..|s'.claims| - 1] == s.claims;
    }
  }

  lemma ReservePc(o: seq<Ticket>, d: nat, p: Pc)
    requires PcOk(o, p)
    ensures PcOk(o + seq(d, _ => Open), p)
  {
    var o' := o + seq(d, _ => Open);
    if p.LoadTail? { Prefix(o, o', p.my); }
    Extended(o, d, d);
  }

  lemma ReserveMine(s: State, t: nat)
    requires |s.tickets| == s.opt && TicketsOwned(s) && t < |s.pcs| && s.pcs[t].Reserve?
    ensures PcOk(Next(s, Run(t)).tickets, Next(s, Run(t)).pcs[t])
  {
    assert PcOk(s.tickets, s.pcs[t]);
    Extended(s.tickets, s.pcs[t].desired, 0);
  }

  lemma ReserveCovers(s: State, t: nat)
    requires |s.tickets| == s.opt && TicketsOwned(s) && t < |s.pcs| && s.pcs[t].Reserve?
    ensures var s' := Next(s, Run(t));
            forall i | 0 <= i < |s'.tickets| && s'.tickets[i].Open? :: exists u :: 0 <= u < |s'.pcs| && Undecided(s'.pcs[u], i)
  {
    var s' := Next(s, Run(t));
    forall i | 0 <= i < |s'.tickets| && s'.tickets[i].Open?
      ensures exists u :: 0 <= u < |s'.pcs| && Undecided(s'.pcs[u], i)
    {
      if i < |s.tickets| {
        var u :| 0 <= u < |s.pcs| && Undecided(s.pcs[u], i);
        assert Undecided(s'.pcs[u], i);
      } else {
        assert Undecided(s'.pcs[t], i);
      }
    }
  }

  lemma ReserveOwned(s: State, t: nat)
    requires |s.tickets| == s.opt && TicketsOwned(s) && t < |s.pcs| && s.pcs[t].Reserve?
    ensures TicketsOwned(Next(s, Run(t)))
  {
    var s' := Next(s, Run(t));
    ReserveMine(s, t);
    ReserveCovers(s, t);
    forall u | 0 <= u < |s'.pcs| ensures PcOk(s'.tickets, s'.pcs[u]) {
      if u != t { ReservePc(s.tickets, s.pcs[t].desired, s.pcs[u]); }
    }
    forall u, i | 0 <= u < |s.pcs| && Undecided(s.pcs[u], i) ensures i < s.opt { assert PcOk(s.tickets, s.pcs[u]); }
  }

  lemma ReserveBacked(o: seq<Ticket>, d: nat, tail: nat)
    requires forall i | 0 <= i < |o| :: Backed(o, tail, i)
    ensures var o' := o + seq(d, _ => Open); forall i | 0 <= i < |o'| :: Backed(o', tail, i)
  {
    var o' := o + seq(d, _ => Open);
    forall i | 0 <= i < |o'| ensures Backed(o', tail, i) {
      if i < |o| {
        assert Backed(o, tail, i);
        Prefix(o, o', i + 1);
      }
    }
  }

  lemma ReserveInv(s: State, t: nat)
    requires Inv(s) && Enabled(s, Run(t)) && s.pcs[t].Reserve?
    ensures Inv(Next(s, Run(t)))
  {
    ReserveOwned(s, t);
    hide TicketsOwned;
    ReserveBalanced(s, t);
    ReserveBacked(s.tickets, s.pcs[t].desired, s.tail);
  }

  lemma ReserveBalanced(s: State, t: nat)
    requires Balanced(s) && Enabled(s, Run(t)) && s.pcs[t].Reserve?
    ensures Balanced(Next(s, Run(t)))
  {
    var d := s.pcs[t].desired;
    var s' := Next(s, Run(t));
    SumUpdate(s.pcs, t, s'.pcs[t], LostOf);
    SumUpdate(s.pcs, t, s'.pcs[t], WonOf);
    Extended(s.tickets, d, d);
  }

  lemma DecideOwned(s: State, t: nat, won: nat, p: Pc)
    requires TicketsOwned(s) && t < |s.pcs| && s.pcs[t].LoadTail? && won <= s.pcs[t].desired && (p.GiveBack? || p.Return? || p.Claim?)
    ensures TicketsOwned(Goto(s.(tickets := Mark(s.tickets, s.pcs[t].my, won, s.pcs[t].desired)), t, p))
  {
    var LoadTail(mode, my, d, over) := s.pcs[t];
    var o := s.tickets;
    var o' := Mark(o, my, won, d);
    var s' := Goto(s.(tickets := o'), t, p);
    assert PcOk(o, s.pcs[t]);
    forall u | 0 <= u < |s'.pcs| ensures PcOk(o', s'.pcs[u]) {
      if u != t {
        assert PcOk(o, s.pcs[u]);
        Marked(o, my, won, d, |o|);
        if s.pcs[u].LoadTail? {
          Marked(o, my, won, d, s.pcs[u].my);
          forall i | s.pcs[u].my <= i < s.pcs[u].my + s.pcs[u].desired ensures o'[i].Open? {
            assert Undecided(s.pcs[u], i);
            assert !Undecided(s.pcs[t], i);
          }
        }
      }
    }
    forall i | 0 <= i < |o'| && o'[i].Open? ensures exists u :: 0 <= u < |s'.pcs| && Undecided(s'.pcs[u], i) {
      var u :| 0 <= u < |s.pcs| && Undecided(s.pcs[u], i);
      assert Undecided(s'.pcs[u], i);
    }
  }

  lemma DecideBacked(s: State, t: nat, won: nat)
    requires t < |s.pcs| && s.pcs[t].LoadTail? && won <= s.pcs[t].desired && PcOk(s.tickets, s.pcs[t])
    requires won > 0 ==> s.pcs[t].my + won <= s.tail + s.pcs[t].over
    requires forall i | 0 <= i < |s.tickets| :: Backed(s.tickets, s.tail, i)
    ensures var o' := Mark(s.tickets, s.pcs[t].my, won, s.pcs[t].desired);
            forall i | 0 <= i < |o'| :: Backed(o', s.tail, i)
  {
    var LoadTail(mode, my, d, over) := s.pcs[t];
    var o' := Mark(s.tickets, my, won, d);
    forall i | 0 <= i < |o'| ensures Backed(o', s.tail, i) {
      assert Backed(s.tickets, s.tail, i);
      Marked(s.tickets, my, won, d, i + 1);
      if my <= i < my + won {
        Monotone(s.tickets, my, i + 1);
      }
    }
  }

  lemma DecideInv(s: State, t: nat)
    requires Inv(s) && Enabled(s, Run(t)) && s.pcs[t].LoadTail?
    ensures Inv(Next(s, Run(t)))
  {
    hide Next, Backed, Mark, Tiled, LostUpTo, WonUpTo, Sum, Undecided;
    var d, won, p := s.pcs[t].desired, Decision(s, t).0, Decision(s, t).1;
    assert PcOk(s.tickets, s.pcs[t]);
    DecideNext(s, t);
    SumUpdate(s.pcs, t, p, LostOf);
    SumUpdate(s.pcs, t, p, WonOf);
    Marked(s.tickets, s.pcs[t].my, won, d, s.opt);
    DecideOwned(s, t, won, p);
    DecideBacked(s, t, won);
  }

  /** What the second guard grants, and what the consumer does then. */
  function Decision(s: State, t: nat): (nat, Pc)
    requires t < |s.pcs| && s.pcs[t].LoadTail?
  {
    var LoadTail(mode, my, d, over) := s.pcs[t];
    match Granted(mode, my, over, s.tail, d)
    case None => (0, GiveBack(d))
    case Some(won) => if won < d then (won, Return(won, d - won)) else (won, Claim(won))
  }

  lemma DecideNext(s: State, t: nat)
    requires Enabled(s, Run(t)) && s.pcs[t].LoadTail? && PcOk(s.tickets, s.pcs[t])
    ensures var LoadTail(mode, my, d, over) := s.pcs[t];
            var (won, p) := Decision(s, t);
            && won <= d && WonOf(p) == won && LostOf(p) == d - won && (won > 0 ==> my + won <= s.tail + over) && (p.GiveBack? || p.Return? || p.Claim?)
            && Next(s, Run(t)) == Goto(s.(tickets := Mark(s.tickets, my, won, d)), t, p)
  {
    var LoadTail(mode, my, d, over) := s.pcs[t];
    GrantedExact(mode, my, over, s.tail, d);
  }

  lemma NextInv(s: State, a: Action)
    requires Inv(s) && Enabled(s, a)
    ensures Inv(Next(s, a))
  {
    match a
    case Publish(count) => PublishInv(s, count);
    case Start(t, mode) => StartInv(s, t, mode);
    case Run(t) =>
      if s.pcs[t].Reserve? { ReserveInv(s, t); }
      else if s.pcs[t].LoadTail? { DecideInv(s, t); }
      else { CounterStepInv(s, t); }
  }

  // ---------------------------------------------------------------- tickets that are pending

  /** The tickets that a consumer holds: undecided, to be given back, or to be claimed. */
  function Pending(p: Pc): nat {
    match p
    case LoadTail(_, _, d, _) => d
    case GiveBack(lost) => lost
    case Return(won, lost) => won + lost
    case Claim(won) => won
    case _ => 0
  }

  /** Every ticket has been claimed, given back, or is pending. */
  ghost predicate Accounted(s: State) { s.opt == s.head + s.over + Sum(s.pcs, Pending) }

  lemma NextAccounted(s: State, a: Action)
    requires Inv(s) && Accounted(s) && Enabled(s, a)
    ensures Accounted(Next(s, a))
  {
    hide Next, Backed, Balanced, Tiled, PcOk;
    if a.Publish? {
      PublishPending(s, a);
    } else {
      StepPending(s, a);
      SumUpdate(s.pcs, a.t, Next(s, a).pcs[a.t], Pending);
    }
  }

  lemma PublishPending(s: State, a: Action)
    requires a.Publish?
    ensures var s' := Next(s, a); s'.pcs == s.pcs && s'.opt == s.opt && s'.head == s.head && s'.over == s.over
  {}

  /** A consumer's step moves its tickets, and no one else's. */
  lemma StepPending(s: State, a: Action)
    requires Enabled(s, a) && !a.Publish? && PcOk(s.tickets, s.pcs[a.t])
    ensures var s' := Next(s, a);
            && |s'.pcs| == |s.pcs| && s'.pcs == s.pcs[a.t := s'.pcs[a.t]]
            && s'.opt - s'.head - s'.over - Pending(s'.pcs[a.t]) == s.opt - s.head - s.over - Pending(s.pcs[a.t])
  {
    hide PcOk;
    if a.Run? && s.pcs[a.t].LoadTail? { DecidePending(s, a.t); }
  }

  lemma DecidePending(s: State, t: nat)
    requires Enabled(s, Run(t)) && s.pcs[t].LoadTail? && PcOk(s.tickets, s.pcs[t])
    ensures var s' := Next(s, Run(t));
            && s'.pcs == s.pcs[t := s'.pcs[t]] && Pending(s'.pcs[t]) == Pending(s.pcs[t])
            && s'.opt == s.opt && s'.head == s.head && s'.over == s.over
  {
    var LoadTail(mode, my, d, over) := s.pcs[t];
    GrantedExact(mode, my, over, s.tail, d);
  }

  /** What the pending tickets of others, and those given back since `over` was read, leave of the first `tail` elements. */
  function Left(s: State, over: nat, tail: nat): int { tail - (s.head + Sum(s.pcs, Pending) + (s.over - over)) }

  /**
    A consumer that has read `tail` and `over` gives up at the first guard exactly if all elements below
    that tail are claimed, or covered by tickets that are pending or were given back since.
   */
  lemma FirstGuardExactly(s: State, t: nat)
    requires Accounted(s) && t < |s.pcs| && s.pcs[t].LoadOpt? && Close(s.opt - s.pcs[t].over, s.pcs[t].tail)
    ensures var LoadOpt(mode, tail, over) := s.pcs[t];
            Next(s, Run(t)).pcs[t].Idle? <==> Left(s, over, tail) <= 0
  {
    var LoadOpt(mode, tail, over) := s.pcs[t];
    DesiredExact(mode, s.opt, over, tail);
  }

  /** A ticket stands behind all elements that are claimed or covered when it is drawn. */
  lemma TicketDrawn(s: State, t: nat)
    requires Accounted(s) && t < |s.pcs| && s.pcs[t].Reserve?
    ensures var s' := Next(s, Run(t));
            s'.pcs[t].LoadTail? && forall tail: nat :: tail - (s'.pcs[t].my - s'.pcs[t].over) == Left(s, s.pcs[t].over, tail)
  {}

  /** At the second guard it gives up exactly if the tail has not come past its first ticket meanwhile. */
  lemma SecondGuardExactly(s: State, t: nat)
    requires Inv(s) && Enabled(s, Run(t)) && s.pcs[t].LoadTail?
    ensures var LoadTail(mode, my, d, over) := s.pcs[t];
            Next(s, Run(t)).pcs[t].GiveBack? <==> s.tail - (my - over) <= 0
  {
    var LoadTail(mode, my, d, over) := s.pcs[t];
    assert PcOk(s.tickets, s.pcs[t]);
    GrantedExact(mode, my, over, s.tail, d);
  }

  // ---------------------------------------------------------------- what every run keeps

  ghost predicate IsStep(s: State, s': State) { exists a :: Enabled(s, a) && s' == Next(s, a) }

  ghost predicate IsRun(ss: seq<State>) {
    && |ss| > 0 && Init(ss[0])
    && forall i | 0 <= i < |ss| - 1 :: IsStep(ss[i], ss[i + 1])
  }

  /** The claimed ranges tile [0, head), and no consumer is or will be given an element past the tail. */
  ghost predicate Safe(s: State) {
    && Tiled(s.claims, s.head)
    && s.head + Sum(s.pcs, WonOf) <= s.tail
    && (forall t | 0 <= t < |s.pcs| && s.pcs[t].Claim? :: s.head + s.pcs[t].won <= s.tail)
    && ((forall t | 0 <= t < |s.pcs| :: s.pcs[t].Idle?) ==> s.opt - s.over == s.head)
  }

  lemma InvSafe(s: State)
    requires Inv(s)
    ensures Safe(s)
  {
    LastWinnerBounds(s.tickets, s.tail, s.opt);
    forall t | 0 <= t < |s.pcs| && s.pcs[t].Claim? ensures s.head + s.pcs[t].won <= s.tail { SumMember(s.pcs, t, WonOf); }
    if forall t | 0 <= t < |s.pcs| :: s.pcs[t].Idle? {
      SumZero(s.pcs, WonOf);
      SumZero(s.pcs, LostOf);
      Decided(s.tickets, s.opt);
    }
  }

  lemma {:induction false} RunInvariant(ss: seq<State>, i: nat)
    requires IsRun(ss) && i < |ss|
    ensures Inv(ss[i]) && Accounted(ss[i])
  {
    if i == 0 {
      InitInv(ss[0]);
    } else {
      RunInvariant(ss, i - 1);
      assert IsStep(ss[i - 1], ss[i]);
      var a :| Enabled(ss[i - 1], a) && ss[i] == Next(ss[i - 1], a);
      NextInv(ss[i - 1], a);
      NextAccounted(ss[i - 1], a);
    }
  }

  lemma InitInv(s: State)
    requires Init(s)
    ensures Inv(s) && Accounted(s)
  {
    SumZero(s.pcs, WonOf);
    SumZero(s.pcs, LostOf);
    SumZero(s.pcs, Pending);
  }

  /**
    A consumer draws its ticket in state i of a run and comes to the second guard in state j.  It gives up
    exactly if the tail of state j is not past all that was claimed or covered by tickets in state i, whatever
    has been claimed, given back or published in between.
   */
  lemma GivesUpExactly(ss: seq<State>, i: nat, j: nat, t: nat)
    requires IsRun(ss) && i < j < |ss| && t < |ss[i].pcs| && ss[i].pcs[t].Reserve? && ss[i + 1] == Next(ss[i], Run(t))
    requires t < |ss[j].pcs| && ss[j].pcs[t] == ss[i + 1].pcs[t] && Enabled(ss[j], Run(t))
    ensures Next(ss[j], Run(t)).pcs[t].GiveBack? <==> Left(ss[i], ss[i].pcs[t].over, ss[j].tail) <= 0
  {
    hide IsStep, Init, Inv, Next, Left;
    RunInvariant(ss, i);
    RunInvariant(ss, j);
    TicketDrawn(ss[i], t);
    SecondGuardExactly(ss[j], t);
  }

  /** In every state of every run the claims are disjoint, contiguous and below the tail. */
  lemma ClaimsSafe(ss: seq<State>)
    requires IsRun(ss)
    ensures forall i | 0 <= i < |ss| :: Safe(ss[i])
  {
    forall i | 0 <= i < |ss| ensures Safe(ss[i]) {
      RunInvariant(ss, i);
      InvSafe(ss[i]);
    }
  }

  /** Tiling means that every index below the head was claimed by exactly one range. */
  lemma {:induction false} TiledOnce(claims: seq<Range>, head: nat, i: nat)
    requires Tiled(claims, head)
    ensures i < head <==> exists c :: 0 <= c < |claims| && claims[c].first <= i < claims[c].first + claims[c].count
    ensures forall c, d | 0 <= c < d < |claims| :: claims[c].first + claims[c].count <= claims[d].first
  {
    if claims != [] {
      var n := |claims| - 1;
      var last := claims[n];
      TiledOnce(claims[..n], last.first, i);
      if i < last.first {
        var c :| 0 <= c < n && claims[..n][c].first <= i < claims[..n][c].first + claims[..n][c].count;
        assert claims[c] == claims[..n][c];
      }
      forall c, d | 0 <= c < d < |claims| ensures claims[c].first + claims[c].count <= claims[d].first {
        if d < n { assert claims[c] == claims[..n][c] && claims[d] == claims[..n][d]; }
        else { TiledBelow(claims[..n], last.first, c); }
      }
      forall c | 0 <= c < |claims| && claims[c].first <= i < claims[c].first + claims[c].count ensures i < head {
        TiledBelow(claims, head, c);
      }
    }
  }

  lemma {:induction false} TiledBelow(claims: seq<Range>, head: nat, c: nat)
    requires Tiled(claims, head) && c < |claims|
    ensures claims[c].first + claims[c].count <= head
  {
    var n := |claims| - 1;
    if c < n { TiledBelow(claims[..n], claims[n].first, c); }
  }

  /**
    With no consumer running, the guards decide exactly whether there is something to take: a
    dequeue reserves and is granted min(max, tail - head) elements, or gives up on an empty queue.
   */
  lemma QuietGuards(s: State, mode: Mode)
    requires Inv(s) && forall t | 0 <= t < |s.pcs| :: s.pcs[t].Idle?
    requires s.tail - s.head < HALF
    ensures var max := if mode.Single? then 1 else mode.max;
            var n := if s.tail - s.head < max then s.tail - s.head else max;
            && Desired(mode, s.opt, s.over, s.tail) == (if s.head == s.tail then None else Some(n))
            && (s.head < s.tail ==> Granted(mode, s.opt, s.over, s.tail, n) == Some(n))
  {
    InvSafe(s);
    DesiredExact(mode, s.opt, s.over, s.tail);
    var max := if mode.Single? then 1 else mode.max;
    var n := if s.tail - s.head < max then s.tail - s.head else max;
    if s.head < s.tail { GrantedExact(mode, s.opt, s.over, s.tail, n); }
  }

  /** A step claims elements that are there, and says so, or leaves the head alone; only the producer moves the tail. */
  lemma StepClaims(s: State, a: Action)
    requires Inv(s) && Enabled(s, a)
    ensures var s' := Next(s, a);
            if a.Run? && s.pcs[a.t].Claim? then
              var won := s.pcs[a.t].won;
              s'.tail == s.tail && s'.head == s.head + won <= s.tail && s'.claims == s.claims + [Range(a.t, s.head, won)] && s'.pcs == s.pcs[a.t := Idle]
            else s'.head == s.head && s'.claims == s.claims && s'.tail == s.tail + if a.Publish? then a.count else 0
  {
    InvSafe(s);
  }
}
