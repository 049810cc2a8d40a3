/**
  The consumers of one implicit producer from the first load of dequeue_bulk to the last element: the
  counters of module DequeueCounters and the blocks of module ImplicitProtocol take their steps in one
  run.  headIndex.fetch_add is one step of both, and so is the store of tailIndex; all other steps are of
  one of them, in any order.

  Whatever the counters grant can be claimed, and as long as everybody asks for at least one element the
  blocks go through a run of ImplicitProtocol with claims of at least one element.  dequeue_bulk with
  max 0 passes both guards on a queue with elements, adds 0 to headIndex and then goes through its loop
  once, in the block of the next element; if that has been consumed meanwhile there may be no such block.
*/
module JointProtocol {
  import BlockIndex
  import Counters = DequeueCounters
  import Blocks = ImplicitProtocol
  import Runs = ImplicitProtocolRuns
  import Bulking = ImplicitProtocolBulks
  import opened Jobs
  import opened ImplicitProtocolReached

  datatype State = State(d: Counters.State, s: Blocks.State)

  /** A step of the counters, of both, or of the blocks. */
  datatype Action = Count(count: Counters.Action) | Claim(t: nat) | Block(step: Blocks.Action)

  predicate Enabled(j: State, a: Action) {
    match a
    case Count(b) =>
      && Counters.Enabled(j.d, b) && !b.Publish? && (b.Start? ==> b.t < |j.s.cs| && j.s.cs[b.t].Idle?)
      && !(b.Run? && j.d.pcs[b.t].Claim?)
    case Claim(t) => t < |j.d.pcs| && j.d.pcs[t].Claim? && Blocks.Enabled(j.s, Blocks.ClaimRange(t, j.d.pcs[t].won))
    case Block(b) => Blocks.Enabled(j.s, b) && !b.ClaimRange?
  }

  function Next(j: State, a: Action): State
    requires Enabled(j, a)
  {
    match a
    case Count(b) => j.(d := Counters.Next(j.d, b))
    case Claim(t) => State(Counters.Next(j.d, Counters.Run(t)), Blocks.Next(j.s, Blocks.ClaimRange(t, j.d.pcs[t].won)))
    case Block(b) =>
      State(if Bulking.Publishes(j.s, b) then Counters.Next(j.d, Counters.Publish(|j.s.pp.xs|)) else j.d, Blocks.Next(j.s, b))
  }

  /** The caller asks for at least `min` elements; dequeue asks for one. */
  predicate Asks(a: Action, min: nat) { a.Count? && a.count.Start? && a.count.mode.Bulk? ==> min <= a.count.mode.max }

  ghost predicate Init(j: State) {
    Counters.Init(j.d) && |j.d.pcs| == |j.s.cs| && exists c: nat :: Runs.Init(j.s, c)
  }

  // ---------------------------------------------------------------- the invariant

  /** Both agree on head and tail, and a consumer is with the counters or with the blocks. */
  ghost predicate Agree(j: State) {
    && j.d.head == j.s.st.head && j.d.tail == |j.s.st.log| && |j.d.pcs| == |j.s.cs|
    && forall t | 0 <= t < |j.s.cs| && j.s.cs[t].Busy? :: j.d.pcs[t].Idle?
  }

  /** A consumer that has been granted a claim, if only of nothing, has seen elements. */
  predicate Saw(p: Counters.Pc, tail: nat) { p.Return? || p.Claim? ==> tail > 0 }

  /** A consumer that asks for something is granted something or nothing at all. */
  predicate Wants(p: Counters.Pc) {
    match p
    case LoadOver(mode, _) => mode.Bulk? ==> mode.max >= 1
    case LoadOpt(mode, _, _) => mode.Bulk? ==> mode.max >= 1
    case Reserve(_, d, _) => d >= 1
    case LoadTail(_, _, d, _) => d >= 1
    case Return(won, _) => won >= 1
    case Claim(won) => won >= 1
    case _ => true
  }

  ghost predicate CountersOk(d: Counters.State, min: nat) {
    && Counters.Inv(d)
    && (forall t | 0 <= t < |d.pcs| :: Saw(d.pcs[t], d.tail))
    && (min >= 1 ==> forall t | 0 <= t < |d.pcs| :: Wants(d.pcs[t]))
  }

  ghost predicate Inv(j: State, min: nat) {
    Agree(j) && CountersOk(j.d, min) && Reached(j.s, if min >= 1 then 1 else 0)
  }

  lemma GuardSaw(d: Counters.State, t: nat)
    requires Counters.Inv(d) && Counters.Enabled(d, Counters.Run(t)) && d.pcs[t].LoadTail?
    ensures Saw(Counters.Next(d, Counters.Run(t)).pcs[t], d.tail)
  {
    var p := d.pcs[t];
    assert Counters.PcOk(d.tickets, d.pcs[t]);
    Counters.GrantedExact(p.mode, p.my, p.over, d.tail, p.desired);
    Counters.Decided(d.tickets, p.my);
  }

  lemma StepWants(d: Counters.State, t: nat)
    requires Counters.Enabled(d, Counters.Run(t)) && Wants(d.pcs[t])
    ensures Wants(Counters.Next(d, Counters.Run(t)).pcs[t])
  {}

  /** Only the consumer that takes the step moves. */
  lemma OthersStay(d: Counters.State, a: Counters.Action)
    requires Counters.Enabled(d, a)
    ensures var d' := Counters.Next(d, a); |d'.pcs| == |d.pcs| && d.tail <= d'.tail && (a.Publish? ==> d'.pcs == d.pcs)
    ensures forall u | 0 <= u < |d.pcs| && (a.Publish? || u != a.t) :: Counters.Next(d, a).pcs[u] == d.pcs[u]
  {}

  lemma StepSaw(d: Counters.State, t: nat)
    requires Counters.Inv(d) && Counters.Enabled(d, Counters.Run(t)) && Saw(d.pcs[t], d.tail)
    ensures Saw(Counters.Next(d, Counters.Run(t)).pcs[t], Counters.Next(d, Counters.Run(t)).tail)
  {
    hide Counters.Inv;
    if d.pcs[t].LoadTail? { GuardSaw(d, t); }
  }

  lemma CountersStep(d: Counters.State, a: Counters.Action, min: nat)
    requires CountersOk(d, min) && Counters.Enabled(d, a) && Asks(Count(a), min)
    ensures CountersOk(Counters.Next(d, a), min)
  {
    hide Counters.Inv, Counters.Enabled, Counters.Next;
    Counters.NextInv(d, a);
    OthersStay(d, a);
    match a {
      case Publish(_) =>
      case Start(t, mode) => Started(d, t, mode);
      case Run(t) =>
        RunsThere(d, t);
        StepSaw(d, t);
        if min >= 1 { StepWants(d, t); }
    }
  }

  lemma RunsThere(d: Counters.State, t: nat)
    requires Counters.Enabled(d, Counters.Run(t))
    ensures t < |d.pcs|
  {}

  lemma Started(d: Counters.State, t: nat, mode: Counters.Mode)
    requires Counters.Enabled(d, Counters.Start(t, mode))
    ensures t < |d.pcs| && Counters.Next(d, Counters.Start(t, mode)).pcs[t] == Counters.LoadOver(mode, d.tail)
  {}

  // ---------------------------------------------------------------- what every joint run keeps

  /** A consumer is not busier after a step of the blocks. */
  lemma StillIdle(s: Blocks.State, a: Blocks.Action)
    requires Blocks.Enabled(s, a) && !a.ClaimRange?
    ensures var s' := Blocks.Next(s, a); |s'.cs| == |s.cs| && forall t | 0 <= t < |s.cs| && s'.cs[t].Busy? :: s.cs[t].Busy?
  {
    hide Blocks.StepNext, Blocks.StepReady, Blocks.GoNext, Blocks.GoReady, Blocks.TakeNext;
    match a {
      case Go => Runs.GoKeeps(s);
      case Take(b) => Runs.TakeKeeps(s, b);
      case Step(t) => Runs.BusySteps(s, t); Runs.StepOthers(s, t);
      case _ =>
    }
  }

  /** What the counters grant can be claimed. */
  lemma ClaimsGranted(j: State, min: nat, t: nat)
    requires Inv(j, min) && t < |j.d.pcs| && j.d.pcs[t].Claim?
    ensures Enabled(j, Claim(t)) && (min >= 1 ==> j.d.pcs[t].won >= 1)
  {
    hide Counters.Inv, Reached;
    Counters.InvSafe(j.d);
  }

  lemma CountInv(j: State, b: Counters.Action, min: nat)
    requires Inv(j, min) && Enabled(j, Count(b)) && Asks(Count(b), min)
    ensures Inv(Next(j, Count(b)), min)
  {
    hide Reached, CountersOk, Counters.Enabled, Counters.Next;
    CountersStep(j.d, b, min);
    CountersInv(j.d, min);
    Counters.StepClaims(j.d, b);
    OthersStay(j.d, b);
    if b.Run? { RunsBusy(j.d, b.t); }
  }

  lemma CountersInv(d: Counters.State, min: nat)
    requires CountersOk(d, min)
    ensures Counters.Inv(d)
  {}

  lemma RunsBusy(d: Counters.State, t: nat)
    requires Counters.Enabled(d, Counters.Run(t))
    ensures t < |d.pcs| && !d.pcs[t].Idle?
  {}

  lemma ClaimInv(j: State, t: nat, min: nat)
    requires Inv(j, min) && Enabled(j, Claim(t))
    ensures Inv(Next(j, Claim(t)), min)
  {
    hide Reached, CountersOk, Counters.Next;
    ClaimsGranted(j, min, t);
    CountersStep(j.d, Counters.Run(t), min);
    CountersInv(j.d, min);
    Counters.StepClaims(j.d, Counters.Run(t));
    Extend(j.s, Blocks.ClaimRange(t, j.d.pcs[t].won), if min >= 1 then 1 else 0);
  }

  lemma BlockInv(j: State, b: Blocks.Action, min: nat)
    requires Inv(j, min) && Enabled(j, Block(b))
    ensures Inv(Next(j, Block(b)), min)
  {
    hide Reached, CountersOk, Counters.Next, Blocks.Enabled, Blocks.Next;
    Extend(j.s, b, if min >= 1 then 1 else 0);
    StillIdle(j.s, b);
    Bulking.HeadChange(j.s, b);
    Bulking.ContentsChange(j.s, b);
    if Bulking.Publishes(j.s, b) {
      CountersStep(j.d, Counters.Publish(|j.s.pp.xs|), min);
      CountersInv(j.d, min);
      Counters.StepClaims(j.d, Counters.Publish(|j.s.pp.xs|));
      OthersStay(j.d, Counters.Publish(|j.s.pp.xs|));
    }
  }

  lemma NextInv(j: State, a: Action, min: nat)
    requires Inv(j, min) && Enabled(j, a) && Asks(a, min)
    ensures Inv(Next(j, a), min)
  {
    hide Inv, Enabled, Next;
    match a {
      case Count(b) => CountInv(j, b, min);
      case Claim(t) => ClaimInv(j, t, min);
      case Block(b) => BlockInv(j, b, min);
    }
  }

  ghost predicate IsRun(js: seq<State>, acts: seq<Action>) {
    && |js| == |acts| + 1 && Init(js[0])
    && forall i | 0 <= i < |acts| :: Enabled(js[i], acts[i]) && js[i + 1] == Next(js[i], acts[i])
  }

  predicate AllAsk(acts: seq<Action>, min: nat) { forall i | 0 <= i < |acts| :: Asks(acts[i], min) }

  lemma StartsOk(j: State, min: nat)
    requires Init(j)
    ensures Inv(j, min)
  {
    hide Reached;
    Counters.InitInv(j.d);
    var c: nat :| Runs.Init(j.s, c);
    InitReached(j.s, c, if min >= 1 then 1 else 0);
  }

  /**
    In every state of every joint run head, tail and consumers agree, the counters keep their invariant,
    whatever is granted can be claimed, and the blocks are in a state of a run of their own, with claims
    of at least one element if everybody asks for at least one.
   */
  lemma {:induction false} RunInvariant(js: seq<State>, acts: seq<Action>, min: nat, i: nat)
    requires IsRun(js, acts) && AllAsk(acts, min) && i < |js|
    ensures Inv(js[i], min)
    ensures forall t | 0 <= t < |js[i].d.pcs| && js[i].d.pcs[t].Claim? :: Enabled(js[i], Claim(t))
  {
    hide Init, Enabled, Next, Inv;
    if i == 0 {
      StartsOk(js[0], min);
    } else {
      RunInvariant(js, acts, min, i - 1);
      NextInv(js[i - 1], acts[i - 1], min);
    }
    forall t | 0 <= t < |js[i].d.pcs| && js[i].d.pcs[t].Claim? ensures Enabled(js[i], Claim(t)) { ClaimsGranted(js[i], min, t); }
  }

  // ---------------------------------------------------------------- when consumers get through

  /** No consumer comes to a step whose entry or block is missing. */
  ghost predicate NeverStuck(js: seq<State>) {
    forall i, t | 0 <= i < |js| && 0 <= t < |js[i].s.cs| && js[i].s.cs[t].Busy? :: Enabled(js[i], Block(Blocks.Step(t)))
  }

  lemma NobodyStuck(js: seq<State>, acts: seq<Action>, min: nat)
    requires IsRun(js, acts) && AllAsk(acts, min) && min >= 1
    ensures NeverStuck(js)
  {
    hide IsRun, AllAsk, Agree, CountersOk, Reached, Blocks.Enabled;
    forall i, t | 0 <= i < |js| && 0 <= t < |js[i].s.cs| && js[i].s.cs[t].Busy? ensures Enabled(js[i], Block(Blocks.Step(t))) {
      RunInvariant(js, acts, min, i);
      ReachedOk(js[i].s);
      Runs.ConsumerNotStuck(js[i].s, t);
    }
  }

  // ---------------------------------------------------------------- a joint run that gets stuck

  /** Some joint run ends in j. */
  ghost predicate Met(j: State) { exists js, acts | IsRun(js, acts) && AllAsk(acts, 0) :: js[|acts|] == j }

  lemma Meet(j: State, a: Action)
    requires Met(j) && Enabled(j, a)
    ensures Met(Next(j, a))
  {
    hide Init, Enabled, Next;
    var js, acts :| IsRun(js, acts) && AllAsk(acts, 0) && js[|acts|] == j;
    var js', acts' := js + [Next(j, a)], acts + [a];
    forall i | 0 <= i < |acts'| ensures Enabled(js'[i], acts'[i]) && js'[i + 1] == Next(js'[i], acts'[i]) {
      if i < |acts| { assert Enabled(js[i], acts[i]) && js[i + 1] == Next(js[i], acts[i]); }
    }
    assert js'[0] == js[0] && js'[|acts'|] == Next(j, a);
  }

  /** The counters before any consumer has come. */
  function Untouched(tail: nat, n: nat): Counters.State { Counters.State(0, 0, 0, tail, seq(n, _ => Counters.Idle), [], []) }

  /** A run of the blocks without claims is one of the two together. */
  lemma {:induction false} WithoutClaims(ss: seq<Blocks.State>, acts: seq<Blocks.Action>)
    requires Runs.IsRun(ss, acts) && forall i | 0 <= i < |acts| :: !acts[i].ClaimRange?
    ensures Met(State(Untouched(|ss[|acts|].st.log|, |ss[|acts|].cs|), ss[|acts|]))
  {
    hide Runs.Init, Blocks.Enabled, Blocks.Next, Met;
    if acts == [] {
      StartsMet(ss[0]);
    } else {
      var n := |acts| - 1;
      Bulking.ShorterRun(ss, acts, n);
      WithoutClaims(ss[..n + 1], acts[..n]);
      OneWithoutClaim(ss[n], acts[n]);
    }
  }

  lemma StartsMet(s: Blocks.State)
    requires exists c: nat :: Runs.Init(s, c)
    ensures Met(State(Untouched(|s.st.log|, |s.cs|), s))
  {
    var js, acts: seq<Action> := [State(Untouched(|s.st.log|, |s.cs|), s)], [];
    assert IsRun(js, acts) && AllAsk(acts, 0);
  }

  lemma OneWithoutClaim(s: Blocks.State, a: Blocks.Action)
    requires Met(State(Untouched(|s.st.log|, |s.cs|), s)) && Blocks.Enabled(s, a) && !a.ClaimRange?
    ensures var s' := Blocks.Next(s, a); Met(State(Untouched(|s'.st.log|, |s'.cs|), s'))
  {
    hide Blocks.Enabled, Blocks.Next, Met;
    Meet(State(Untouched(|s.st.log|, |s.cs|), s), Block(a));
    Bulking.ContentsChange(s, a);
    StillIdle(s, a);
  }

  /** Two elements, published, and nothing claimed. */
  lemma TwoPublished(xs: seq<Blocks.Value>) returns (s: Blocks.State)
    requires |xs| == 2
    ensures Reached(s, 1) && s.k == 1 && s.pp.PIdle? && s.st.log == xs && s.st.head == 0 && s.cs == [Blocks.Idle, Blocks.Idle]
    ensures Met(State(Untouched(2, 2), s))
  {
    hide Runs.Init, Blocks.Enabled, Blocks.Next, Met;
    s := PublishesBoth(xs);
    var ss: seq<Blocks.State>, acts: seq<Blocks.Action> :| Runs.IsRun(ss, acts) && Runs.AllClaim(acts, 1) && ss[|acts|] == s;
    forall i | 0 <= i < |acts| ensures !acts[i].ClaimRange? {
      if acts[i].ClaimRange? {
        assert Runs.Claims(acts[i], 1);
        Bulking.ClaimsInOrder(ss, acts, i, |acts|);
      }
    }
    WithoutClaims(ss, acts);
  }

  /** Consumer t goes through both guards, with two elements there and no tickets but empty ones given out. */
  lemma Grants(j: State, t: nat, max: nat) returns (j': State)
    requires Met(j) && t < |j.d.pcs| == |j.s.cs| && j.d.pcs[t].Idle? && j.s.cs[t].Idle?
    requires j.d.opt == j.d.over == j.d.head == 0 && j.d.tail == 2 && j.d.tickets == []
    ensures Met(j') && j'.s == j.s && j'.d.head == 0 && j'.d.over == 0 && j'.d.tail == 2
    ensures var n := if max < 2 then max else 2; j'.d.opt == n && |j'.d.tickets| == n && j'.d.pcs == j.d.pcs[t := Counters.Claim(n)]
  {
    hide Met;
    var mode := Counters.Bulk(max);
    var n := if max < 2 then max else 2;
    Counters.DesiredExact(mode, 0, 0, 2);
    Counters.GrantedExact(mode, 0, 0, 2, n);
    Meet(j, Count(Counters.Start(t, mode)));
    var j1 := j.(d := Counters.Goto(j.d, t, Counters.LoadOver(mode, 2)));
    Meet(j1, Count(Counters.Run(t)));
    var j2 := j.(d := Counters.Goto(j1.d, t, Counters.LoadOpt(mode, 2, 0)));
    Meet(j2, Count(Counters.Run(t)));
    var j3 := j.(d := Counters.Goto(j2.d, t, Counters.Reserve(mode, n, 0)));
    Meet(j3, Count(Counters.Run(t)));
    var j4 := Next(j3, Count(Counters.Run(t)));
    Meet(j4, Count(Counters.Run(t)));
    j' := Next(j4, Count(Counters.Run(t)));
  }

  /** A consumer with a claim serves it. */
  lemma {:induction false} Serve(j: State, t: nat) returns (j': State)
    requires Met(j) && Reached(j.s, 1) && t < |j.s.cs|
    ensures Met(j') && Reached(j'.s, 1) && OnlyMoved(j.s, j'.s, t) && j'.s.cs[t].Idle? && j'.d == j.d
    decreases Runs.StepsLeft(j.s.cs[t])
  {
    hide Met, Blocks.Inv, Reached, Blocks.StepReady, Blocks.StepNext, Runs.StepsLeft;
    j' := j;
    if j.s.cs[t].Busy? {
      ReachedOk(j.s);
      Runs.StepAdvances(j.s, t);
      StepMoves(j.s, t);
      Extend(j.s, Blocks.Step(t), 1);
      Meet(j, Block(Blocks.Step(t)));
      j' := Serve(Next(j, Block(Blocks.Step(t))), t);
    }
  }

  /** A consumer that has claimed nothing comes to an entry without a block, if there is none left. */
  lemma EmptyClaimStuck(j: State, t: nat) returns (j': State)
    requires Met(j) && Enabled(j, Claim(t)) && j.d.pcs[t].won == 0 && j.s.ix.headers != [] && NoBlock(j.s.st)
    ensures Met(j') && Stuck(j'.s, t)
  {
    hide Met, BlockIndex.CanFind, BlockIndex.Found, Counters.Next;
    Meet(j, Claim(t));
    var j1, a := Next(j, Claim(t)), Block(Blocks.Step(t));
    Meet(j1, a);
    var j2 := Next(j1, a);
    if !Enabled(j2, a) { return j2; }
    Meet(j2, a);
    var j3 := Next(j2, a);
    if !Enabled(j3, a) { return j3; }
    Meet(j3, a);
    return Next(j3, a);
  }

  /**
    One consumer asks for nothing, sees two elements, and is granted nothing; another takes both; then
    the first adds 0 to headIndex and looks for the block of an element that is gone, with its block.
   */
  lemma EmptyClaimFails()
    ensures exists js, acts :: IsRun(js, acts) && AllAsk(acts, 0) && !NeverStuck(js)
  {
    hide Met, Reached, NoBlock, Stuck, IsRun;
    var s := TwoPublished([Socks(5, 6, 0), Socks(7, 8, 0)]);
    var j1 := Grants(State(Untouched(2, 2), s), 0, 0);
    var j2 := Grants(j1, 1, 2);
    Meet(j2, Claim(1));
    Extend(s, Blocks.ClaimRange(1, 2), 1);
    var j3 := Serve(Next(j2, Claim(1)), 1);
    NothingLeft(j3.s);
    var j4 := EmptyClaimStuck(j3, 0);
    StuckRun(j4, 0);
  }

  lemma StuckRun(j: State, t: nat)
    requires Met(j) && Stuck(j.s, t)
    ensures exists js, acts :: IsRun(js, acts) && AllAsk(acts, 0) && !NeverStuck(js)
  {
    hide Init, Enabled, Next;
    var js, acts :| IsRun(js, acts) && AllAsk(acts, 0) && js[|acts|] == j;
    NotEnabled(j, t);
    assert !NeverStuck(js);
  }

  lemma NotEnabled(j: State, t: nat)
    requires Stuck(j.s, t)
    ensures t < |j.s.cs| && j.s.cs[t].Busy? && !Enabled(j, Block(Blocks.Step(t)))
  {}

  /** No consumer of any joint run gets stuck exactly if dequeue_bulk is always called with a max of at least one. */
  lemma NotStuckExactly(min: nat)
    ensures (forall js, acts | IsRun(js, acts) && AllAsk(acts, min) :: NeverStuck(js)) <==> min >= 1
  {
    hide IsRun, NeverStuck, AllAsk;
    if min == 0 {
      EmptyClaimFails();
    } else {
      forall js, acts | IsRun(js, acts) && AllAsk(acts, min) ensures NeverStuck(js) { NobodyStuck(js, acts, min); }
    }
  }
}
