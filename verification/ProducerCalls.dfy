/**
  Whole calls of get_or_add_implicit_producer in runs of module ProducerHash: what a call returns, and
  that it ends.
*/
module ProducerCalls {
  import opened Options
  import opened Words
  import opened ProducerHash

  // ---------------------------------------------------------------- what a call returns

  /** The call of thread t that begins with action i is over in state j, and not before. */
  ghost predicate IsCall(ss: seq<State>, acts: seq<Action>, i: nat, j: nat, t: Tid) {
    && IsRun(ss, acts) && i < j < |ss| && acts[i] == Call(t) && t < |ss[j].pcs| && ss[j].pcs[t].Done?
    && forall m | i < m < j :: t < |ss[m].pcs| && !ss[m].pcs[t].Done?
  }

  /** The step asks for memory, for a larger table or a producer, and does not get it. */
  predicate Refuses(s: State, a: Action, t: Tid) {
    a == Run(t, false) && t < |s.pcs| && (s.pcs[t].Resize? || s.pcs[t].Create?)
  }

  ghost predicate Refused(ss: seq<State>, acts: seq<Action>, i: nat, j: nat, t: Tid)
    requires j <= |acts| <= |ss|
  {
    exists m :: i < m < j && Refuses(ss[m], acts[m], t)
  }

  /** The thread is on its way out, without a producer. */
  predicate Leaving(p: Pc) { p.GiveUp? || p.ClearLock? || p == Done(None) }

  /** A step goes that way exactly if memory is refused, or if the thread was on it. */
  lemma OwnWay(s: State, t: Tid, m: bool)
    requires Ready(s, t)
    ensures var s' := RunNext(s, t, m); t < |s.pcs| == |s'.pcs| && (Leaving(s'.pcs[t]) <==> Leaving(s.pcs[t]) || Refuses(s, Run(t, m), t))
  {
    hide RunNext, Ready;
    RunGoes(s, t, m);
  }

  /** Where a thread goes, without the tables and producers. */
  predicate Goes(p: Pc, p': Pc) {
    match p
    case Probe(main, h, _, j) =>
      || (p'.Done? && p'.result.Some?) || (p'.Add? && p'.j == 0) || p'.Reserve?
      || (p'.Probe? && ((p'.h == h && p'.j == j + 1) || (p'.h + 1 == h && p'.j == 0)))
    case Add(_, _, _, j) => (p'.AddCas? && p'.j == j) || (p'.Add? && p'.j == j + 1)
    case AddCas(_, _, _, j) => p'.AddStore? || (p'.Add? && p'.j == j + 1)
    case AddStore(_, q, _, _) => p' == Done(Some(q))
    case LoadMain => p'.Probe? && p'.j == 0
    case Reserve(_) => p'.Decide?
    case Decide(_, _) => p'.TryLock? || p'.Room?
    case TryLock(_, _) => p'.Reload? || p'.Room?
    case Reload(_) => p'.Resize? || p'.Unlock?
    case Resize(_, _) => p'.Unlock? || p'.GiveUp?
    case Unlock(_, _) => p'.Room?
    case Room(_, _) => p'.Create? || p'.Wait?
    case Wait(_) => p'.Decide?
    case Create(_, _) => (p'.Add? && p'.j == 0) || p'.GiveUp?
    case GiveUp(_) => p'.ClearLock? || p' == Done(None)
    case ClearLock => p' == Done(None)
    case Done(_) => false
  }

  /** The table that the thread works on, if it has chosen one. */
  function MainOf(p: Pc): Option<nat> {
    if p.Probe? || p.Reserve? || p.Decide? || p.TryLock? || p.Resize? || p.Unlock? || p.Room? || p.Create? || p.Add? || p.AddCas? || p.AddStore?
    then Some(p.main) else None
  }

  /** It goes on with that table, or takes up the last one, or a later one. */
  predicate Follows(p: Pc, p': Pc, tables: nat) {
    MainOf(p').Some? ==> MainOf(p') == MainOf(p) || MainOf(p').value + 1 >= tables
  }

  lemma ProbeGoes(s: State, t: Tid, m: bool)
    requires Ready(s, t) && s.pcs[t].Probe?
    ensures |RunNext(s, t, m).pcs| == |s.pcs| && Goes(s.pcs[t], RunNext(s, t, m).pcs[t])
    ensures Follows(s.pcs[t], RunNext(s, t, m).pcs[t], |s.tables|)
  {
    hide Masked, And;
  }

  lemma AddGoes(s: State, t: Tid, m: bool)
    requires Ready(s, t) && (s.pcs[t].Add? || s.pcs[t].AddCas? || s.pcs[t].AddStore?)
    ensures |RunNext(s, t, m).pcs| == |s.pcs| && Goes(s.pcs[t], RunNext(s, t, m).pcs[t])
    ensures Follows(s.pcs[t], RunNext(s, t, m).pcs[t], |s.tables|)
  {
    hide Masked, And;
  }

  lemma MemoryGoes(s: State, t: Tid, m: bool)
    requires Ready(s, t) && (s.pcs[t].Resize? || s.pcs[t].Create? || s.pcs[t].GiveUp? || s.pcs[t].ClearLock?)
    ensures |RunNext(s, t, m).pcs| == |s.pcs| && Goes(s.pcs[t], RunNext(s, t, m).pcs[t])
    ensures Follows(s.pcs[t], RunNext(s, t, m).pcs[t], |s.tables|)
    ensures s.pcs[t].Resize? || s.pcs[t].Create? ==> (RunNext(s, t, m).pcs[t].GiveUp? <==> !m)
  {
    hide Masked, Doubled, Empty, Without;
  }

  lemma CountGoes(s: State, t: Tid, m: bool)
    requires Ready(s, t) && (s.pcs[t].LoadMain? || s.pcs[t].Reserve? || s.pcs[t].Decide? || s.pcs[t].TryLock? || s.pcs[t].Reload? || s.pcs[t].Unlock? || s.pcs[t].Room? || s.pcs[t].Wait?)
    ensures |RunNext(s, t, m).pcs| == |s.pcs| && Goes(s.pcs[t], RunNext(s, t, m).pcs[t])
    ensures Follows(s.pcs[t], RunNext(s, t, m).pcs[t], |s.tables|)
  {
    hide Masked, And, Pow2, Table.Limit, Table.Cap;
  }

  lemma RunGoes(s: State, t: Tid, m: bool)
    requires Ready(s, t)
    ensures t < |s.pcs| == |RunNext(s, t, m).pcs| && Goes(s.pcs[t], RunNext(s, t, m).pcs[t])
    ensures Follows(s.pcs[t], RunNext(s, t, m).pcs[t], |s.tables|)
    ensures s.pcs[t].Resize? || s.pcs[t].Create? ==> (RunNext(s, t, m).pcs[t].GiveUp? <==> !m)
  {
    hide RunNext, Goes, Follows;
    match s.pcs[t] {
      case Probe(_, _, _, _) => ProbeGoes(s, t, m);
      case Add(_, _, _, _) => AddGoes(s, t, m);
      case AddCas(_, _, _, _) => AddGoes(s, t, m);
      case AddStore(_, _, _, _) => AddGoes(s, t, m);
      case Resize(_, _) => MemoryGoes(s, t, m);
      case Create(_, _) => MemoryGoes(s, t, m);
      case GiveUp(_) => MemoryGoes(s, t, m);
      case ClearLock => MemoryGoes(s, t, m);
      case _ => CountGoes(s, t, m);
    }
  }

  /** While the call is in progress: it is on its way out, and has no producer, exactly if memory was refused. */
  ghost predicate OnCourse(s: State, t: Tid, refused: bool) {
    && t < |s.pcs| && (Leaving(s.pcs[t]) <==> refused) && (refused ==> t !in s.prodOf)
  }

  lemma RefusedHasNone(s: State, t: Tid)
    requires Inv(s) && t < |s.pcs| && (s.pcs[t].Resize? || s.pcs[t].Create?)
    ensures t !in s.prodOf
  {
    var me := Mine(s, t);
    hide Inv, TableOk, Stored;
  }

  lemma CourseStep(s: State, a: Action, t: Tid, refused: bool)
    requires Inv(s) && Enabled(s, a) && OnCourse(s, t, refused) && !s.pcs[t].Done?
    ensures OnCourse(Next(s, a), t, refused || Refuses(s, a, t))
  {
    hide Inv, Ready, RunNext;
    SizesStay(s, a, t);
    if a.Run? {
      OnlyCreateAdds(s, a.t, a.memory);
      if a.t == t { OwnWay(s, t, a.memory); }
      if Refuses(s, a, t) { RefusedHasNone(s, t); }
    }
  }

  lemma {:induction false} Course(ss: seq<State>, acts: seq<Action>, i: nat, j: nat, t: Tid)
    requires IsRun(ss, acts) && i < j < |ss| && acts[i] == Call(t) && forall m | i < m < j :: t < |ss[m].pcs| && !ss[m].pcs[t].Done?
    ensures OnCourse(ss[j], t, Refused(ss, acts, i, j, t))
  {
    hide Inv, Init, Enabled, Next, Refuses, Leaving;
    if j == i + 1 {
      CallBegins(ss[i], t);
      assert !Refused(ss, acts, i, j, t);
    } else {
      Course(ss, acts, i, j - 1, t);
      RunInvariant(ss, acts, j - 1);
      CourseStep(ss[j - 1], acts[j - 1], t, Refused(ss, acts, i, j - 1, t));
      assert Refused(ss, acts, i, j, t) <==> Refused(ss, acts, i, j - 1, t) || Refuses(ss[j - 1], acts[j - 1], t);
    }
  }

  lemma CallBegins(s: State, t: Tid)
    requires Enabled(s, Call(t))
    ensures t < |s.pcs| && Next(s, Call(t)).pcs == s.pcs[t := LoadMain] && !Leaving(LoadMain) && Next(s, Call(t)).prodOf == s.prodOf
  {}

  /**
    A call returns the producer of its thread exactly if no larger table and no producer was refused to it;
    otherwise it returns nothing, and the thread has no producer.
   */
  lemma ReturnsExactly(ss: seq<State>, acts: seq<Action>, i: nat, j: nat, t: Tid)
    requires IsCall(ss, acts, i, j, t)
    ensures if Refused(ss, acts, i, j, t) then ss[j].pcs[t].result == None && t !in ss[j].prodOf
            else t in ss[j].prodOf && ss[j].pcs[t].result == Some(ss[j].prodOf[t])
  {
    hide Inv, Init, Enabled, Next, Refused;
    Course(ss, acts, i, j, t);
    RunInvariant(ss, acts, j);
    if ss[j].pcs[t].result.Some? { ResultIsOwn(ss[j], t); }
  }

  /** A thread that has a producer always gets it. */
  lemma FoundAgain(ss: seq<State>, acts: seq<Action>, i: nat, j: nat, t: Tid)
    requires IsCall(ss, acts, i, j, t) && t in ss[i].prodOf
    ensures ss[j].pcs[t].result == Some(ss[i].prodOf[t])
  {
    hide Inv, Init, Enabled, Next, Refused;
    ReturnsExactly(ss, acts, i, j, t);
    ProducerStaysLong(ss, acts, i, j, t);
  }

  // ---------------------------------------------------------------- the thread is in a current table

  /** The thread works on no table before number `base`; a thread that has got its producer is in one of them. */
  ghost predicate Current(s: State, t: Tid, base: nat) {
    && base < |s.tables| && t < |s.pcs| && (MainOf(s.pcs[t]).Some? ==> MainOf(s.pcs[t]).value >= base)
    && (s.pcs[t].Done? && s.pcs[t].result.Some? ==> InTable(s.tables, t, base))
  }

  ghost predicate InTable(tables: seq<Table>, t: Tid, base: nat) { exists k :: base <= k < |tables| && t in tables[k].at }

  /** A thread returns from the table that it works on, where it has been found or entered. */
  lemma ReturnsThere(s: State, t: Tid, m: bool)
    requires Inv(s) && Ready(s, t) && RunNext(s, t, m).pcs[t].Done? && RunNext(s, t, m).pcs[t].result.Some?
    ensures MainOf(s.pcs[t]).Some? && MainOf(s.pcs[t]).value < |s.tables| && t in s.tables[MainOf(s.pcs[t]).value].at
    ensures |RunNext(s, t, m).tables| == |s.tables| && RunNext(s, t, m).tables[MainOf(s.pcs[t]).value].at == s.tables[MainOf(s.pcs[t]).value].at
  {
    RunGoes(s, t, m);
    assert s.pcs[t].Probe? || s.pcs[t].AddStore?;
    if s.pcs[t].Probe? { ProbeReturns(s, t, m); } else { StoreReturns(s, t, m); }
  }

  lemma ProbeReturns(s: State, t: Tid, m: bool)
    requires Inv(s) && Ready(s, t) && s.pcs[t].Probe? && RunNext(s, t, m).pcs[t].Done?
    ensures s.pcs[t].main < |s.tables| && t in s.tables[s.pcs[t].main].at && RunNext(s, t, m).tables == s.tables
  {
    MyProbe(s, t);
    TableThere(s, s.pcs[t].h);
    hide Inv, TableOk, Probed, Masked, And;
    ProbeTells(s.hash, s.tables[s.pcs[t].h], t, s.pcs[t].index, s.pcs[t].j);
  }

  lemma TableThere(s: State, i: nat)
    requires Inv(s) && i < |s.tables|
    ensures TableOk(s.hash, s.tables[i])
  {
    hide TicketsOk, Admitted, ProducersOk, LockOk, ThreadsOk, TableOk;
  }

  lemma StoreReturns(s: State, t: Tid, m: bool)
    requires Inv(s) && Ready(s, t) && s.pcs[t].AddStore?
    ensures s.pcs[t].main < |s.tables| && t in s.tables[s.pcs[t].main].at
    ensures |RunNext(s, t, m).tables| == |s.tables| && RunNext(s, t, m).tables[s.pcs[t].main].at == s.tables[s.pcs[t].main].at
  {
    var me := Mine(s, t);
    hide Inv, TableOk, Stored, Settled;
  }

  lemma CurrentStep(s: State, a: Action, t: Tid, base: nat)
    requires Inv(s) && Enabled(s, a) && Current(s, t, base) && !s.pcs[t].Done?
    ensures Current(Next(s, a), t, base)
  {
    hide Inv, Ready, RunNext, Goes;
    SizesStay(s, a, t);
    if a.Run? && a.t == t {
      RunGoes(s, t, a.memory);
      if RunNext(s, t, a.memory).pcs[t].Done? && RunNext(s, t, a.memory).pcs[t].result.Some? {
        ReturnsThere(s, t, a.memory);
        assert t in Next(s, a).tables[MainOf(s.pcs[t]).value].at;
      }
    }
  }

  lemma {:induction false} CurrentCourse(ss: seq<State>, acts: seq<Action>, i: nat, j: nat, t: Tid)
    requires IsRun(ss, acts) && i < j < |ss| && acts[i] == Call(t) && forall m | i < m < j :: t < |ss[m].pcs| && !ss[m].pcs[t].Done?
    ensures ss[i].tables != [] && Current(ss[j], t, |ss[i].tables| - 1)
  {
    hide Inv, Init, Enabled, Next, Current;
    RunInvariant(ss, acts, j - 1);
    if j == i + 1 {
      TablesThere(ss[i]);
      CallBegins(ss[i], t);
      CallCurrent(ss[i], t);
    } else {
      CurrentCourse(ss, acts, i, j - 1, t);
      CurrentStep(ss[j - 1], acts[j - 1], t, |ss[i].tables| - 1);
    }
  }

  lemma CallCurrent(s: State, t: Tid)
    requires Enabled(s, Call(t)) && s.tables != []
    ensures Current(Next(s, Call(t)), t, |s.tables| - 1)
  {}

  /**
    After a call that returns a producer the thread has its entry in the table that was the current one when the
    call began, or in a later one, so that the next call finds it without going through all tables.
   */
  lemma EnteredCurrent(ss: seq<State>, acts: seq<Action>, i: nat, j: nat, t: Tid)
    requires IsCall(ss, acts, i, j, t) && ss[j].pcs[t].result.Some?
    ensures exists k :: 0 <= |ss[i].tables| - 1 <= k < |ss[j].tables| && t in ss[j].tables[k].at
  {
    hide Init, Enabled, Next;
    CurrentCourse(ss, acts, i, j, t);
  }

  // ---------------------------------------------------------------- a call ends

  /** How many steps a thread still takes, with `count` tables of at most `most` slots. */
  function StepsLeft(p: Pc, most: nat, count: nat): int {
    match p
    case Done(_) => 0
    case LoadMain => count * (most + 1) + 2 * most + 16
    case Probe(_, h, _, j) => h * (most + 1) + (most - j) + 2 * most + 16
    case Reserve(_) => 2 * most + 15
    case Decide(_, _) => 2 * most + 14
    case TryLock(_, _) => 2 * most + 12
    case Reload(_) => 2 * most + 10
    case Resize(_, _) => 2 * most + 8
    case Unlock(_, _) => 2 * most + 6
    case Room(_, _) => 2 * most + 4
    case Wait(_) => 2 * most + 15
    case Create(_, _) => 2 * most + 3
    case Add(_, _, _, j) => 2 * (most - j) + 2
    case AddCas(_, _, _, j) => 2 * (most - j) + 1
    case AddStore(_, _, _, _) => 1
    case GiveUp(_) => 2
    case ClearLock => 1
  }

  /** The tables are no more and no larger. */
  ghost predicate Fits(tables: seq<Table>, most: nat, count: nat) {
    |tables| <= count && forall i | 0 <= i < |tables| :: tables[i].Cap() <= most
  }

  /** The thread does not have to wait for another one to make a table. */
  predicate LetIn(s: State, t: Tid) {
    && t < |s.pcs|
    && match s.pcs[t]
       case Unlock(main, n) => main < |s.tables| && n < s.tables[main].Limit()
       case Room(main, n) => main < |s.tables| && n < s.tables[main].Limit()
       case Wait(_) => false
       case _ => true
  }

  /** It finds the lock held by another thread. */
  predicate Locked(s: State, a: Action, t: Tid) { a.Run? && a.t == t < |s.pcs| && s.pcs[t].TryLock? && s.lock }

  /** What the invariant says of the places where a thread is. */
  ghost predicate Placed(s: State, t: Tid) {
    && t < |s.pcs| && s.tables != []
    && match s.pcs[t]
       case Probe(main, h, _, j) => h < |s.tables| && j < s.tables[h].Cap()
       case Add(main, _, _, j) => main < |s.tables| && j < s.tables[main].Cap()
       case AddCas(main, _, _, j) => main < |s.tables| && j < s.tables[main].Cap()
       case _ => true
  }

  lemma AlwaysPlaced(s: State, t: Tid)
    requires Inv(s) && t < |s.pcs|
    ensures Placed(s, t)
  {
    InvProbesBounded(s);
    hide TableOk, TicketsOk, Admitted, ProducersOk, LockOk, ThreadsOk, Table.Cap;
  }

  lemma GoesDown(p: Pc, p': Pc, most: nat, count: nat)
    requires Goes(p, p') && !p.Wait? && !p'.Wait? && (p.TryLock? ==> p'.Reload?) && (p.LoadMain? ==> p'.Probe? && p'.h < count)
    requires (p.Probe? || p.Add? || p.AddCas? ==> p.j < most) && (p'.Probe? || p'.Add? || p'.AddCas? ==> p'.j < most)
    ensures 0 <= StepsLeft(p', most, count) < StepsLeft(p, most, count)
  {
    if p.Probe? { Rows(p.h, most); }
    if p'.Probe? {
      Rows(p'.h, most);
      if p'.h < count { MoreRows(p'.h + 1, count, most); }
    }
  }

  lemma Rows(h: nat, most: nat)
    ensures h * (most + 1) >= 0 && (h + 1) * (most + 1) == h * (most + 1) + most + 1
  {}

  lemma MoreRows(a: nat, b: nat, most: nat)
    requires a <= b
    ensures a * (most + 1) <= b * (most + 1)
  {}

  /** A thread that does not find the lock held is let in. */
  lemma GetsIn(s: State, t: Tid, m: bool)
    requires Ready(s, t) && LetIn(s, t) && !Locked(s, Run(t, m), t)
    ensures LetIn(RunNext(s, t, m), t)
    ensures s.pcs[t].TryLock? ==> RunNext(s, t, m).pcs[t].Reload?
    ensures s.pcs[t].LoadMain? ==> RunNext(s, t, m).pcs[t].Probe? && RunNext(s, t, m).pcs[t].h < |s.tables|
  {
    RunGoes(s, t, m);
    match s.pcs[t] {
      case Resize(_, _) => if m { ResizeMakesRoom(s, t); }
      case Decide(_, _) => Decided(s, t, m);
      case TryLock(_, _) => Decided(s, t, m);
      case Reload(_) => Decided(s, t, m);
      case Unlock(_, _) => Decided(s, t, m);
      case Room(_, _) => Decided(s, t, m);
      case LoadMain => Decided(s, t, m);
      case _ => hide RunNext, Ready;
    }
  }

  lemma Decided(s: State, t: Tid, m: bool)
    requires Ready(s, t) && LetIn(s, t) && !Locked(s, Run(t, m), t)
    requires s.pcs[t].Decide? || s.pcs[t].TryLock? || s.pcs[t].Reload? || s.pcs[t].Unlock? || s.pcs[t].Room? || s.pcs[t].LoadMain?
    ensures LetIn(RunNext(s, t, m), t)
    ensures s.pcs[t].TryLock? ==> RunNext(s, t, m).pcs[t].Reload?
    ensures s.pcs[t].LoadMain? ==> RunNext(s, t, m).pcs[t].Probe? && RunNext(s, t, m).pcs[t].h < |s.tables|
  {
    hide Masked, And, Table.Cap;
  }

  /** How many of the actions from i on are steps of thread t. */
  function StepsOf(acts: seq<Action>, t: Tid, i: nat, j: nat): nat
    requires i <= j <= |acts|
  {
    if i == j then 0 else StepsOf(acts, t, i, j - 1) + if acts[j - 1].Run? && acts[j - 1].t == t then 1 else 0
  }

  lemma FitsBefore(s: State, a: Action, t: Tid, most: nat, count: nat)
    requires Enabled(s, a) && t < |s.pcs| && Fits(Next(s, a).tables, most, count)
    ensures Fits(s.tables, most, count)
  {
    hide Enabled, Next;
    SizesStay(s, a, t);
    forall i | 0 <= i < |s.tables| ensures s.tables[i].Cap() <= most { assert Next(s, a).tables[i].Cap() == s.tables[i].Cap(); }
  }

  lemma OwnStepDown(s: State, t: Tid, m: bool, most: nat, count: nat)
    requires Inv(s) && Ready(s, t) && !s.pcs[t].Done? && LetIn(s, t) && !Locked(s, Run(t, m), t) && Fits(s.tables, most, count) && Fits(RunNext(s, t, m).tables, most, count)
    ensures var s' := RunNext(s, t, m);
            t < |s.pcs| == |s'.pcs| && LetIn(s', t) && 0 <= StepsLeft(s'.pcs[t], most, count) < StepsLeft(s.pcs[t], most, count)
  {
    hide Inv, Ready, RunNext, Goes;
    GetsIn(s, t, m);
    RunGoes(s, t, m);
    RunInv(s, t, m);
    AlwaysPlaced(s, t);
    AlwaysPlaced(RunNext(s, t, m), t);
    GoesDown(s.pcs[t], RunNext(s, t, m).pcs[t], most, count);
  }

  lemma StepDown(s: State, a: Action, t: Tid, most: nat, count: nat)
    requires Inv(s) && Enabled(s, a) && LetIn(s, t) && !s.pcs[t].Done? && !Locked(s, a, t)
    requires Fits(s.tables, most, count) && Fits(Next(s, a).tables, most, count)
    ensures LetIn(Next(s, a), t)
    ensures var left, left' := StepsLeft(s.pcs[t], most, count), StepsLeft(Next(s, a).pcs[t], most, count);
            if a.Run? && a.t == t then 0 <= left' < left else left' == left
  {
    hide Inv, Ready, RunNext, Fits, StepsLeft, Table.Limit;
    SizesStay(s, a, t);
    if a.Run? && a.t == t {
      OwnStepDown(s, t, a.memory, most, count);
    } else if s.pcs[t].Unlock? || s.pcs[t].Room? {
      SameLimit(s.tables, Next(s, a).tables, s.pcs[t].main);
    }
  }

  lemma {:induction false} StepsBounded(ss: seq<State>, acts: seq<Action>, i: nat, n: nat, t: Tid, most: nat, count: nat)
    requires IsRun(ss, acts) && i < n < |ss| && acts[i] == Call(t) && Fits(ss[n].tables, most, count)
    requires forall m | i < m < n :: t < |ss[m].pcs| && !ss[m].pcs[t].Done? && !Locked(ss[m], acts[m], t)
    ensures LetIn(ss[n], t) && 0 <= StepsLeft(ss[n].pcs[t], most, count)
    ensures StepsOf(acts, t, i + 1, n) + StepsLeft(ss[n].pcs[t], most, count) <= StepsLeft(LoadMain, most, count)
  {
    hide Inv, Init, Enabled, Next, Fits, LetIn, StepsLeft, Locked;
    if n == i + 1 {
      CallBegins(ss[i], t);
      CallLets(ss[n], t, most, count);
    } else {
      FitsBefore(ss[n - 1], acts[n - 1], t, most, count);
      StepsBounded(ss, acts, i, n - 1, t, most, count);
      RunInvariant(ss, acts, n - 1);
      StepDown(ss[n - 1], acts[n - 1], t, most, count);
    }
  }

  lemma CallLets(s: State, t: Tid, most: nat, count: nat)
    requires t < |s.pcs| && s.pcs[t].LoadMain?
    ensures LetIn(s, t) && StepsLeft(s.pcs[t], most, count) == StepsLeft(LoadMain, most, count) >= 0
  {
    Rows(count, most);
  }

  /** The last table is the largest. */
  lemma LastFits(s: State)
    requires Inv(s)
    ensures s.tables != [] && Fits(s.tables, s.tables[|s.tables| - 1].Cap(), |s.tables|)
  {
    hide TableOk, TicketsOk, Admitted, ProducersOk, LockOk, ThreadsOk;
    var n := |s.tables| - 1;
    forall i | 0 <= i < n ensures s.tables[i].Cap() <= s.tables[n].Cap() { Pow2Less(s.tables[i].c, s.tables[n].c); }
  }

  /**
    A call that does not find another thread making a table takes at most so many steps of its own, with the
    tables that there are by then, however the others run in between.
   */
  lemma CallEnds(ss: seq<State>, acts: seq<Action>, i: nat, n: nat, t: Tid)
    requires IsRun(ss, acts) && i < n < |ss| && acts[i] == Call(t)
    requires forall m | i < m < n :: t < |ss[m].pcs| && !ss[m].pcs[t].Done? && !Locked(ss[m], acts[m], t)
    ensures ss[n].tables != []
    ensures var most, count := ss[n].tables[|ss[n].tables| - 1].Cap(), |ss[n].tables|;
            StepsOf(acts, t, i + 1, n) <= count * (most + 1) + 2 * most + 16
  {
    hide Inv, Init, Enabled, Next, Locked, Fits;
    RunInvariant(ss, acts, n);
    LastFits(ss[n]);
    StepsBounded(ss, acts, i, n, t, ss[n].tables[|ss[n].tables| - 1].Cap(), |ss[n].tables|);
  }

  /** Who finds the lock held waits for another thread that is making a table, or about to let go of the lock. */
  lemma LockedByOther(s: State, a: Action, t: Tid)
    requires Inv(s) && Locked(s, a, t)
    ensures exists u :: 0 <= u < |s.pcs| && u != t && Holds(s.pcs[u])
  {
    hide TablesOk, TicketsOk, Admitted, ProducersOk, ThreadsOk;
    var u := s.holder.value;
    assert Holds(s.pcs[u]);
  }

  // ---------------------------------------------------------------- a larger table, and no larger than needed

  /** A thread asks for a larger table only when the current one is half used up by the ids before it. */
  predicate AsksFor(s: State, t: Tid) {
    t < |s.pcs| && (s.pcs[t].Resize? ==> s.pcs[t].main < |s.tables| && s.pcs[t].n >= s.tables[s.pcs[t].main].Cap() / 2)
  }

  lemma AsksKept(s: State, a: Action, t: Tid)
    requires Enabled(s, a) && AsksFor(s, t)
    ensures AsksFor(Next(s, a), t)
  {
    hide Ready, RunNext, Table.Cap;
    SizesStay(s, a, t);
    if a.Run? && a.t == t {
      RunGoes(s, t, a.memory);
      if s.pcs[t].Reload? { ReloadAsks(s, t, a.memory); }
    } else if s.pcs[t].Resize? {
      SameCap(s.tables, Next(s, a).tables, s.pcs[t].main);
    }
  }

  lemma SameCap(tables: seq<Table>, tables': seq<Table>, i: nat)
    requires i < |tables| <= |tables'| && tables'[i].c == tables[i].c
    ensures tables'[i].Cap() == tables[i].Cap()
  {}

  lemma ReloadAsks(s: State, t: Tid, m: bool)
    requires Ready(s, t) && s.pcs[t].Reload?
    ensures AsksFor(RunNext(s, t, m), t)
  {
    hide Table.Cap;
  }

  lemma {:induction false} AlwaysAsks(ss: seq<State>, acts: seq<Action>, n: nat, t: Tid)
    requires IsRun(ss, acts) && n < |ss| && t < |ss[0].pcs|
    ensures AsksFor(ss[n], t)
  {
    hide Enabled, Next, AsksFor;
    if n == 0 {
      NobodyAsks(ss[0], t);
    } else {
      AlwaysAsks(ss, acts, n - 1, t);
      AsksKept(ss[n - 1], acts[n - 1], t);
    }
  }

  lemma NobodyAsks(s: State, t: Tid)
    requires (exists c: nat :: Init(s, c)) && t < |s.pcs|
    ensures AsksFor(s, t)
  {}

  /** The table grows only by a thread whose count is at least half of it, and to the least capacity of which it is less than half. */
  lemma GrowsAsNeeded(ss: seq<State>, acts: seq<Action>, n: nat)
    requires IsRun(ss, acts) && n < |acts|
    ensures var tables, tables' := ss[n].tables, ss[n + 1].tables; |tables| <= |tables'| <= |tables| + 1 && tables != []
    ensures var tables, tables' := ss[n].tables, ss[n + 1].tables;
            |tables'| > |tables| ==>
              var a, cap, cap' := acts[n], tables[|tables| - 1].Cap(), tables'[|tables|].Cap();
              && a.Run? && a.memory && a.t < |ss[n].pcs| && ss[n].pcs[a.t].Resize?
              && cap' > cap && ss[n].pcs[a.t].n >= cap / 2 && cap' / 4 <= ss[n].pcs[a.t].n < cap' / 2
  {
    hide Init, Inv, Enabled, Next, AsksFor, Table.Cap;
    RunInvariant(ss, acts, n);
    TablesThere(ss[n]);
    OneTable(ss[n], acts[n]);
    if |ss[n + 1].tables| > |ss[n].tables| {
      SameThreads(ss, acts, n, acts[n].t);
      AlwaysAsks(ss, acts, n, acts[n].t);
      NewCap(ss[n], acts[n].t);
      ResizesLast(ss[n], acts[n].t);
    }
  }

  lemma {:induction false} SameThreads(ss: seq<State>, acts: seq<Action>, n: nat, t: Tid)
    requires IsRun(ss, acts) && n < |ss| && t < |ss[n].pcs|
    ensures t < |ss[0].pcs|
  {
    hide Init, Enabled, Next;
    if n > 0 {
      ThreadsStay(ss[n - 1], acts[n - 1]);
      SameThreads(ss, acts, n - 1, t);
    }
  }

  lemma ThreadsStay(s: State, a: Action)
    requires Enabled(s, a)
    ensures |Next(s, a).pcs| == |s.pcs|
  {
    hide RunNext, Ready;
    if a.Run? { RunGoes(s, a.t, a.memory); }
  }

  lemma OneTable(s: State, a: Action)
    requires Enabled(s, a)
    ensures |s.tables| <= |Next(s, a).tables| <= |s.tables| + 1
    ensures |Next(s, a).tables| > |s.tables| ==> a.Run? && a.memory && a.t < |s.pcs| && s.pcs[a.t].Resize?
  {
    hide RunNext, Ready;
    if a.Run? { RunOneTable(s, a.t, a.memory); }
  }

  lemma RunOneTable(s: State, t: Tid, m: bool)
    requires Ready(s, t)
    ensures |s.tables| <= |RunNext(s, t, m).tables| <= |s.tables| + 1
    ensures |RunNext(s, t, m).tables| > |s.tables| ==> m && t < |s.pcs| && s.pcs[t].Resize?
  {
    hide RunNext, Ready;
    ReadyThere(s, t);
    match s.pcs[t] {
      case AddCas(_, _, _, _) => CasAddsNone(s, t, m);
      case AddStore(_, _, _, _) => StoreSizes(s, t, m);
      case Resize(_, _) => ResizeOne(s, t, m);
      case _ => ElseSizes(s, t, m);
    }
  }

  lemma ResizeOne(s: State, t: Tid, m: bool)
    requires Ready(s, t) && s.pcs[t].Resize?
    ensures |RunNext(s, t, m).tables| == |s.tables| + if m then 1 else 0
  {
    hide Doubled, Empty;
  }

  lemma NewCap(s: State, t: Tid)
    requires Enabled(s, Run(t, true)) && s.pcs[t].Resize? && AsksFor(s, t)
    ensures var n, tables' := s.pcs[t].n, Next(s, Run(t, true)).tables;
            && |tables'| == |s.tables| + 1 && s.pcs[t].main < |s.tables| && n >= s.tables[s.pcs[t].main].Cap() / 2
            && tables'[|s.tables|].Cap() > s.tables[s.pcs[t].main].Cap() && tables'[|s.tables|].Cap() / 4 <= n < tables'[|s.tables|].Cap() / 2
  {
    var c, r := s.tables[s.pcs[t].main].c, Doubled(s.tables[s.pcs[t].main].c + 1, s.pcs[t].n);
    Pow2Less(c, r);
    assert Pow2(r) == 2 * Pow2(r - 1);
  }

  lemma ResizesLast(s: State, t: Tid)
    requires Inv(s) && t < |s.pcs| && s.pcs[t].Resize?
    ensures s.pcs[t].main == |s.tables| - 1
  {
    var me := Mine(s, t);
    hide Inv, TableOk, Stored;
  }
}
