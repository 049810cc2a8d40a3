/**
  Whole calls of dequeue and dequeue_bulk in runs of module DequeueCounters: what a call comes to, whatever
  the other consumers and the producer do meanwhile, and that it ends.
*/
module DequeueCalls {
  import opened Options
  import opened Words
  import opened DequeueCounters

  /** A run with the steps that it took. */
  ghost predicate IsTrace(ss: seq<State>, acts: seq<Action>) {
    && |ss| == |acts| + 1 && Init(ss[0])
    && forall i | 0 <= i < |acts| :: Took(ss[i], acts[i], ss[i + 1])
  }

  ghost predicate Took(s: State, a: Action, s': State) { Enabled(s, a) && s' == Next(s, a) }

  lemma TraceIsRun(ss: seq<State>, acts: seq<Action>)
    requires IsTrace(ss, acts)
    ensures IsRun(ss)
  {
    hide Init, Enabled, Next;
    forall i | 0 <= i < |ss| - 1 ensures IsStep(ss[i], ss[i + 1]) { assert Took(ss[i], acts[i], ss[i + 1]); }
  }

  /** The call of consumer t that begins with step i is over in state j, and not before. */
  ghost predicate IsCall(ss: seq<State>, acts: seq<Action>, i: nat, j: nat, t: nat, mode: Mode) {
    && IsTrace(ss, acts) && i < j < |ss| && acts[i] == Start(t, mode) && t < |ss[j].pcs| && ss[j].pcs[t].Idle?
    && forall m | i < m < j :: t < |ss[m].pcs| && !ss[m].pcs[t].Idle?
  }

  /** The step is one of consumer t. */
  predicate Own(ss: seq<State>, acts: seq<Action>, m: nat, t: nat) { m < |acts| && m < |ss| && acts[m] == Run(t) && t < |ss[m].pcs| }

  /** The steps in which a call reads dequeueOvercommit, evaluates the first guard, draws its tickets, and evaluates the second guard; and what it desires. */
  datatype Moments = Moments(over: nat, guard: nat, ticket: nat, tail: nat, desired: nat)

  function Most(mode: Mode): nat { match mode case Single => 1 case Bulk(max) => max }

  function Least(x: int, y: int): int { if x < y then x else y }

  // ---------------------------------------------------------------- where a call stands

  ghost predicate ReadOver(ss: seq<State>, acts: seq<Action>, i: nat, j: nat, t: nat, w: Moments, over: nat) {
    i < w.over < j && Own(ss, acts, w.over, t) && ss[w.over].over == over
  }

  ghost predicate PastFirst(ss: seq<State>, acts: seq<Action>, i: nat, j: nat, t: nat, mode: Mode, w: Moments, d: nat, over: nat) {
    && ReadOver(ss, acts, i, w.guard, t, w, over) && w.guard < j && Own(ss, acts, w.guard, t)
    && i < |ss| && ss[w.guard].pcs[t] == LoadOpt(mode, ss[i].tail, over) && Desired(mode, ss[w.guard].opt, over, ss[i].tail) == Some(d)
  }

  ghost predicate Drawn(ss: seq<State>, acts: seq<Action>, i: nat, j: nat, t: nat, mode: Mode, w: Moments, d: nat, over: nat, my: nat) {
    PastFirst(ss, acts, i, w.ticket, t, mode, w, d, over) && w.ticket < j && Own(ss, acts, w.ticket, t) && ss[w.ticket].opt == my && ss[w.ticket].pcs[t] == Reserve(mode, d, over)
  }

  ghost predicate PastSecond(ss: seq<State>, acts: seq<Action>, i: nat, j: nat, t: nat, mode: Mode, w: Moments, d: nat, granted: Option<nat>) {
    && w.over < |ss| && w.ticket < |ss| && Drawn(ss, acts, i, w.tail, t, mode, w, d, ss[w.over].over, ss[w.ticket].opt)
    && w.tail < j && Own(ss, acts, w.tail, t) && Enabled(ss[w.tail], acts[w.tail])
    && ss[w.tail].pcs[t] == LoadTail(mode, ss[w.ticket].opt, d, ss[w.over].over)
    && granted == Granted(mode, ss[w.ticket].opt, ss[w.over].over, ss[w.tail].tail, d)
  }

  ghost predicate OnCourse(ss: seq<State>, acts: seq<Action>, i: nat, j: nat, t: nat, mode: Mode, w: Moments)
    requires i <= j < |ss| && t < |ss[j].pcs|
  {
    match ss[j].pcs[t]
    case Idle => false
    case LoadOver(m, tail) => m == mode && tail == ss[i].tail
    case LoadOpt(m, tail, over) => m == mode && tail == ss[i].tail && ReadOver(ss, acts, i, j, t, w, over)
    case Reserve(m, d, over) => m == mode && PastFirst(ss, acts, i, j, t, mode, w, d, over)
    case LoadTail(m, my, d, over) => m == mode && Drawn(ss, acts, i, j, t, mode, w, d, over, my)
    case GiveBack(lost) => PastSecond(ss, acts, i, j, t, mode, w, w.desired, None) && lost == w.desired
    case Return(won, lost) => PastSecond(ss, acts, i, j, t, mode, w, w.desired, Some(won)) && won + lost == w.desired
    case Claim(won) => PastSecond(ss, acts, i, j, t, mode, w, w.desired, Some(won))
  }

  /** The moment that a step adds. */
  function Noted(p: Pc, j: nat, w: Moments): Moments {
    match p
    case LoadOver(_, _) => w.(over := j)
    case LoadOpt(_, _, _) => w.(guard := j)
    case Reserve(_, _, _) => w.(ticket := j)
    case LoadTail(_, _, d, _) => w.(tail := j, desired := d)
    case _ => w
  }

  /** A consumer's step out of p. */
  lemma OwnStep(ss: seq<State>, acts: seq<Action>, i: nat, j: nat, t: nat, mode: Mode, w: Moments)
    requires i < j < |acts| && |ss| == |acts| + 1 && Own(ss, acts, j, t) && Took(ss[j], acts[j], ss[j + 1])
    requires OnCourse(ss, acts, i, j, t, mode, w) && t < |ss[j + 1].pcs| && !ss[j + 1].pcs[t].Idle?
    requires ss[j].pcs[t].LoadTail? ==> DecideStep(ss[j], t)
    ensures OnCourse(ss, acts, i, j + 1, t, mode, Noted(ss[j].pcs[t], j, w))
  {
    hide Desired, Granted, Mark, Init;
    match ss[j].pcs[t] {
      case LoadOver(_, _) =>
      case LoadOpt(_, _, _) =>
      case Reserve(_, _, _) =>
      case LoadTail(_, _, _, _) =>
      case GiveBack(_) =>
      case Return(_, _) =>
      case Claim(_) =>
    }
  }

  predicate DecideStep(s: State, t: nat)
    requires t < |s.pcs| && s.pcs[t].LoadTail?
  {
    match Granted(s.pcs[t].mode, s.pcs[t].my, s.pcs[t].over, s.tail, s.pcs[t].desired) case None => true case Some(won) => won <= s.pcs[t].desired
  }

  lemma OthersLeave(s: State, a: Action, s': State, t: nat)
    requires Took(s, a, s') && t < |s.pcs| && a != Run(t) && !(a.Start? && a.t == t)
    ensures t < |s'.pcs| && s'.pcs[t] == s.pcs[t]
  {
    hide Desired, Granted, Mark;
  }

  lemma CourseStep(ss: seq<State>, acts: seq<Action>, i: nat, j: nat, t: nat, mode: Mode, w: Moments) returns (w': Moments)
    requires i < j < |acts| && |ss| == |acts| + 1 && Inv(ss[j]) && Took(ss[j], acts[j], ss[j + 1])
    requires t < |ss[j].pcs| && OnCourse(ss, acts, i, j, t, mode, w) && t < |ss[j + 1].pcs| && !ss[j + 1].pcs[t].Idle?
    ensures OnCourse(ss, acts, i, j + 1, t, mode, w')
  {
    hide Inv, Desired, Granted, Took, Next;
    StartsIdle(ss[j], acts[j], ss[j + 1], t);
    if acts[j] == Run(t) {
      if ss[j].pcs[t].LoadTail? { DecideIs(ss[j], acts[j], t); }
      OwnStep(ss, acts, i, j, t, mode, w);
      w' := Noted(ss[j].pcs[t], j, w);
    } else {
      OthersLeave(ss[j], acts[j], ss[j + 1], t);
      w' := w;
    }
  }

  lemma StartsIdle(s: State, a: Action, s': State, t: nat)
    requires Took(s, a, s') && t < |s.pcs| && !s.pcs[t].Idle?
    ensures !(a.Start? && a.t == t) && Enabled(s, a)
  {}

  lemma DecideIs(s: State, a: Action, t: nat)
    requires Inv(s) && a == Run(t) && Enabled(s, a) && t < |s.pcs| && s.pcs[t].LoadTail?
    ensures DecideStep(s, t)
  {
    assert PcOk(s.tickets, s.pcs[t]);
    var LoadTail(mode, my, d, over) := s.pcs[t];
    GrantedExact(mode, my, over, s.tail, d);
  }

  lemma {:induction false} Course(ss: seq<State>, acts: seq<Action>, i: nat, j: nat, t: nat, mode: Mode) returns (w: Moments)
    requires IsTrace(ss, acts) && i < j < |ss| && acts[i] == Start(t, mode) && forall m | i < m <= j :: t < |ss[m].pcs| && !ss[m].pcs[t].Idle?
    ensures OnCourse(ss, acts, i, j, t, mode, w)
  {
    hide Init, Took, OnCourse, Inv;
    if j == i + 1 {
      w := Moments(0, 0, 0, 0, 0);
      assert Took(ss[i], acts[i], ss[j]);
      Begins(ss, acts, i, t, mode, w);
    } else {
      var v := Course(ss, acts, i, j - 1, t, mode);
      assert Took(ss[j - 1], acts[j - 1], ss[j]);
      TraceIsRun(ss, acts);
      RunInvariant(ss, j - 1);
      w := CourseStep(ss, acts, i, j - 1, t, mode, v);
    }
  }

  lemma Begins(ss: seq<State>, acts: seq<Action>, i: nat, t: nat, mode: Mode, w: Moments)
    requires i < |acts| < |ss| && Took(ss[i], acts[i], ss[i + 1]) && acts[i] == Start(t, mode)
    ensures t < |ss[i + 1].pcs| && OnCourse(ss, acts, i, i + 1, t, mode, w)
  {}

  // ---------------------------------------------------------------- what a call comes to

  /** Nothing is claimed in this step. */
  predicate ClaimsNothing(s: State, s': State) { s'.claims == s.claims && s'.head == s.head }

  /** It gives up at the first guard: all elements below the tail that it read at its start are claimed or covered. */
  ghost predicate AtFirst(ss: seq<State>, acts: seq<Action>, i: nat, j: nat, t: nat, w: Moments) {
    && i < w.over < w.guard == j - 1 && j < |ss| && Own(ss, acts, w.over, t)
    && Left(ss[w.guard], ss[w.over].over, ss[i].tail) <= 0
    && ClaimsNothing(ss[j - 1], ss[j]) && ss[j].over == ss[j - 1].over
  }

  /** It draws as many tickets as are left over at the first guard, up to `max`. */
  ghost predicate Draws(ss: seq<State>, acts: seq<Action>, i: nat, j: nat, t: nat, mode: Mode, w: Moments) {
    && i < w.over < w.guard < w.ticket < w.tail < j < |ss|
    && Own(ss, acts, w.over, t) && Own(ss, acts, w.guard, t) && Own(ss, acts, w.ticket, t) && Own(ss, acts, w.tail, t)
    && Left(ss[w.guard], ss[w.over].over, ss[i].tail) > 0
    && w.desired == Least(Left(ss[w.guard], ss[w.over].over, ss[i].tail), Most(mode))
  }

  /** The elements behind its tickets that were there when it looked again. */
  function Behind(ss: seq<State>, w: Moments): int
    requires w.over < |ss| && w.ticket < |ss| && w.tail < |ss|
  {
    Left(ss[w.ticket], ss[w.over].over, ss[w.tail].tail)
  }

  /** It gives up at the second guard, and gives all its tickets back. */
  ghost predicate AtSecond(ss: seq<State>, acts: seq<Action>, i: nat, j: nat, t: nat, mode: Mode, w: Moments) {
    && Draws(ss, acts, i, j, t, mode, w) && Behind(ss, w) <= 0
    && ClaimsNothing(ss[j - 1], ss[j]) && ss[j].over == ss[j - 1].over + w.desired
  }

  /** It claims just as many elements as are behind its tickets, up to their number. */
  ghost predicate Succeeds(ss: seq<State>, acts: seq<Action>, i: nat, j: nat, t: nat, mode: Mode, w: Moments) {
    && Draws(ss, acts, i, j, t, mode, w) && Behind(ss, w) > 0
    && var won := Least(w.desired, Behind(ss, w));
       ss[j].claims == ss[j - 1].claims + [Range(t, ss[j - 1].head, won)] && ss[j].head == ss[j - 1].head + won
  }

  /** No two indices that the first guard compares in the call are 2^63 or more apart. */
  ghost predicate CloseInCall(ss: seq<State>, acts: seq<Action>, i: nat, j: nat, t: nat) {
    forall k | i < k < j && Own(ss, acts, k, t) && ss[k].pcs[t].LoadOpt? :: Near(ss[k], t)
  }

  predicate Near(s: State, t: nat)
    requires t < |s.pcs| && s.pcs[t].LoadOpt?
  {
    Close(s.opt - s.pcs[t].over, s.pcs[t].tail)
  }

  /** What is left at a state whose tickets are accounted for. */
  lemma LeftIs(s: State, over: nat, tail: nat)
    requires Accounted(s)
    ensures Left(s, over, tail) == tail - (s.opt - over)
  {}

  lemma FirstGuard(ss: seq<State>, acts: seq<Action>, i: nat, j: nat, k: nat, t: nat, mode: Mode, w: Moments, granted: Option<nat>)
    requires IsTrace(ss, acts) && CloseInCall(ss, acts, i, j, t) && i < w.over < k < j < |ss| && Own(ss, acts, k, t)
    requires ss[k].pcs[t] == LoadOpt(mode, ss[i].tail, ss[w.over].over) && granted == Desired(mode, ss[k].opt, ss[w.over].over, ss[i].tail)
    ensures var left := Left(ss[k], ss[w.over].over, ss[i].tail);
            granted == if left <= 0 then None else Some(Least(left, Most(mode)))
  {
    hide IsTrace, Desired, Inv, Accounted;
    TraceIsRun(ss, acts);
    RunInvariant(ss, k);
    LeftIs(ss[k], ss[w.over].over, ss[i].tail);
    assert Near(ss[k], t);
    DesiredExact(mode, ss[k].opt, ss[w.over].over, ss[i].tail);
  }

  lemma SecondGuard(ss: seq<State>, acts: seq<Action>, i: nat, j: nat, t: nat, mode: Mode, w: Moments, granted: Option<nat>)
    requires IsTrace(ss, acts) && CloseInCall(ss, acts, i, j, t) && j < |ss| && PastSecond(ss, acts, i, j, t, mode, w, w.desired, granted)
    ensures Draws(ss, acts, i, j, t, mode, w)
    ensures granted == if Behind(ss, w) <= 0 then None else Some(Least(w.desired, Behind(ss, w)))
  {
    hide IsTrace, Desired, Granted, Inv, Accounted, CloseInCall, Enabled, Left;
    FirstGuard(ss, acts, i, j, w.guard, t, mode, w, Some(w.desired));
    TraceIsRun(ss, acts);
    RunInvariant(ss, w.ticket);
    LeftIs(ss[w.ticket], ss[w.over].over, ss[w.tail].tail);
    SecondIsClose(ss[w.tail], acts[w.tail], t);
    GrantedExact(mode, ss[w.ticket].opt, ss[w.over].over, ss[w.tail].tail, w.desired);
  }

  lemma SecondIsClose(s: State, a: Action, t: nat)
    requires a == Run(t) && Enabled(s, a) && t < |s.pcs| && s.pcs[t].LoadTail?
    ensures Close(s.pcs[t].my - s.pcs[t].over, s.tail)
  {}

  /**
    A call of dequeue or dequeue_bulk that is over has given up at the first guard, because all elements
    below the tail that it read at its start were claimed or covered by tickets of others; or it has drawn as
    many tickets as were left over, up to `max`, and then it has claimed as many elements as were behind
    them when it looked again, if there were any, and else has given the tickets back.
   */
  lemma CallEnds(ss: seq<State>, acts: seq<Action>, i: nat, j: nat, t: nat, mode: Mode) returns (w: Moments)
    requires IsCall(ss, acts, i, j, t, mode) && CloseInCall(ss, acts, i, j, t)
    ensures AtFirst(ss, acts, i, j, t, w) || AtSecond(ss, acts, i, j, t, mode, w) || Succeeds(ss, acts, i, j, t, mode, w)
  {
    hide Init, Inv, Took, OnCourse, CloseInCall, AtFirst, AtSecond, Succeeds, Enabled, Next;
    assert Took(ss[i], acts[i], ss[i + 1]);
    BeginsBusy(ss[i], acts[i], ss[i + 1], t);
    w := Course(ss, acts, i, j - 1, t, mode);
    assert Took(ss[j - 1], acts[j - 1], ss[j]);
    StartsIdle(ss[j - 1], acts[j - 1], ss[j], t);
    if acts[j - 1] != Run(t) { OthersLeave(ss[j - 1], acts[j - 1], ss[j], t); }
    Ends(ss[j - 1], acts[j - 1], ss[j], t);
    match ss[j - 1].pcs[t] {
      case LoadOpt(_, _, _) =>
        EndsAtFirst(ss, acts, i, j, t, mode, w);
        w := w.(guard := j - 1);
      case GiveBack(_) => EndsAtSecond(ss, acts, i, j, t, mode, w);
      case Claim(_) => EndsWithClaim(ss, acts, i, j, t, mode, w);
      case _ =>
    }
  }

  lemma BeginsBusy(s: State, a: Action, s': State, t: nat)
    requires Took(s, a, s') && a.Start? && a.t == t
    ensures t < |s'.pcs| && !s'.pcs[t].Idle?
  {}

  /** The steps with which a consumer becomes idle. */
  lemma Ends(s: State, a: Action, s': State, t: nat)
    requires Took(s, a, s') && a == Run(t) && t < |s'.pcs| && s'.pcs[t].Idle?
    ensures t < |s.pcs|
    ensures match s.pcs[t]
            case LoadOpt(mode, tail, over) => Desired(mode, s.opt, over, tail) == None && ClaimsNothing(s, s') && s'.over == s.over
            case GiveBack(lost) => ClaimsNothing(s, s') && s'.over == s.over + lost
            case Claim(won) => s'.claims == s.claims + [Range(t, s.head, won)] && s'.head == s.head + won
            case _ => false
  {
    hide Desired, Granted, Mark;
  }

  lemma EndsAtFirst(ss: seq<State>, acts: seq<Action>, i: nat, j: nat, t: nat, mode: Mode, w: Moments)
    requires IsTrace(ss, acts) && CloseInCall(ss, acts, i, j, t) && i < j - 1 && j < |ss| && Own(ss, acts, j - 1, t)
    requires ss[j - 1].pcs[t].LoadOpt? && OnCourse(ss, acts, i, j - 1, t, mode, w)
    requires Desired(ss[j - 1].pcs[t].mode, ss[j - 1].opt, ss[j - 1].pcs[t].over, ss[j - 1].pcs[t].tail) == None
    requires ClaimsNothing(ss[j - 1], ss[j]) && ss[j].over == ss[j - 1].over
    ensures AtFirst(ss, acts, i, j, t, w.(guard := j - 1))
  {
    hide IsTrace, Desired, CloseInCall, Left;
    FirstGuard(ss, acts, i, j, j - 1, t, mode, w.(guard := j - 1), None);
  }

  lemma EndsAtSecond(ss: seq<State>, acts: seq<Action>, i: nat, j: nat, t: nat, mode: Mode, w: Moments)
    requires IsTrace(ss, acts) && CloseInCall(ss, acts, i, j, t) && i < j - 1 && j < |ss| && t < |ss[j - 1].pcs|
    requires ss[j - 1].pcs[t].GiveBack? && OnCourse(ss, acts, i, j - 1, t, mode, w)
    requires ClaimsNothing(ss[j - 1], ss[j]) && ss[j].over == ss[j - 1].over + ss[j - 1].pcs[t].lost
    ensures AtSecond(ss, acts, i, j, t, mode, w)
  {
    hide IsTrace, CloseInCall, Left, PastSecond, Granted;
    SecondLater(ss, acts, i, j, t, mode, w, None);
    SecondGuard(ss, acts, i, j, t, mode, w, None);
  }

  lemma EndsWithClaim(ss: seq<State>, acts: seq<Action>, i: nat, j: nat, t: nat, mode: Mode, w: Moments)
    requires IsTrace(ss, acts) && CloseInCall(ss, acts, i, j, t) && i < j - 1 && j < |ss| && t < |ss[j - 1].pcs|
    requires ss[j - 1].pcs[t].Claim? && OnCourse(ss, acts, i, j - 1, t, mode, w)
    requires var won := ss[j - 1].pcs[t].won; ss[j].claims == ss[j - 1].claims + [Range(t, ss[j - 1].head, won)] && ss[j].head == ss[j - 1].head + won
    ensures Succeeds(ss, acts, i, j, t, mode, w)
  {
    hide IsTrace, CloseInCall, Left, PastSecond, Granted;
    SecondLater(ss, acts, i, j, t, mode, w, Some(ss[j - 1].pcs[t].won));
    SecondGuard(ss, acts, i, j, t, mode, w, Some(ss[j - 1].pcs[t].won));
  }

  lemma SecondLater(ss: seq<State>, acts: seq<Action>, i: nat, j: nat, t: nat, mode: Mode, w: Moments, granted: Option<nat>)
    requires j > 0 && PastSecond(ss, acts, i, j - 1, t, mode, w, w.desired, granted)
    ensures PastSecond(ss, acts, i, j, t, mode, w, w.desired, granted)
  {}

  // ---------------------------------------------------------------- a call ends

  /** How many steps a consumer has left at most. */
  function StepsLeft(p: Pc): nat {
    match p
    case Idle => 0
    case LoadOver(_, _) => 6
    case LoadOpt(_, _, _) => 5
    case Reserve(_, _, _) => 4
    case LoadTail(_, _, _, _) => 3
    case Return(_, _) => 2
    case GiveBack(_) => 1
    case Claim(_) => 1
  }

  /** The own steps of consumer t between i and j. */
  function OwnSteps(acts: seq<Action>, t: nat, i: nat, j: nat): nat
    requires i <= j <= |acts|
  {
    if i == j then 0 else OwnSteps(acts, t, i, j - 1) + if acts[j - 1] == Run(t) then 1 else 0
  }

  lemma OwnStepCounts(s: State, a: Action, s': State, t: nat)
    requires Took(s, a, s') && a == Run(t)
    ensures t < |s.pcs| == |s'.pcs| && StepsLeft(s'.pcs[t]) < StepsLeft(s.pcs[t])
  {
    hide Desired, Granted, Mark;
  }

  /** Every call ends after at most six steps of its own, whatever the others do: dequeueing is wait-free. */
  lemma {:induction false} WaitFree(ss: seq<State>, acts: seq<Action>, i: nat, j: nat, t: nat, mode: Mode)
    requires IsTrace(ss, acts) && i < j < |ss| && acts[i] == Start(t, mode) && forall m | i < m < j :: t < |ss[m].pcs| && !ss[m].pcs[t].Idle?
    ensures t < |ss[j].pcs| && OwnSteps(acts, t, i + 1, j) + StepsLeft(ss[j].pcs[t]) <= 6
  {
    hide Init, Took, StepsLeft;
    assert Took(ss[j - 1], acts[j - 1], ss[j]);
    if j == i + 1 {
      StartsWithSix(ss[i], acts[i], ss[j], t);
    } else {
      WaitFree(ss, acts, i, j - 1, t, mode);
      if acts[j - 1] == Run(t) {
        OwnStepCounts(ss[j - 1], acts[j - 1], ss[j], t);
      } else {
        StartsIdle(ss[j - 1], acts[j - 1], ss[j], t);
        OthersLeave(ss[j - 1], acts[j - 1], ss[j], t);
      }
    }
  }

  lemma StartsWithSix(s: State, a: Action, s': State, t: nat)
    requires Took(s, a, s') && a.Start? && a.t == t
    ensures t < |s'.pcs| && StepsLeft(s'.pcs[t]) == 6
  {}
}
