/**
  Whole calls of try_get and add in runs of module FreeListProtocol: what a call of try_get returns, whatever
  the other threads do meanwhile, and what a call of add does that nobody overlaps.
*/
module FreeListCalls {
  import opened Options
  import opened FreeListProtocol

  /** An operation of thread `who`. */
  datatype Step = Step(who: Tid, a: Action)

  /** A run with the steps that it took. */
  ghost predicate IsTrace(ss: seq<State>, acts: seq<Step>) {
    && |ss| == |acts| + 1 && Init(ss[0])
    && forall i | 0 <= i < |acts| :: Took(ss[i], acts[i], ss[i + 1])
  }

  ghost predicate Took(s: State, c: Step, s': State) {
    Enabled(s, c.who, c.a) && TypedAt(s, c.who) && s' == Next(s, c.who, c.a)
  }

  lemma TraceIsRun(ss: seq<State>, acts: seq<Step>)
    requires IsTrace(ss, acts)
    ensures IsRun(ss)
  {
    hide Init, Enabled, TypedAt, Next;
    forall i | 0 <= i < |ss| - 1 ensures IsStep(ss[i], ss[i + 1]) { assert Took(ss[i], acts[i], ss[i + 1]); }
  }

  /** The call of try_get by thread t that begins with step i is over in state j, and not before. */
  ghost predicate IsGet(ss: seq<State>, acts: seq<Step>, i: nat, j: nat, t: Tid) {
    && IsTrace(ss, acts) && i < j < |ss| && acts[i] == Step(t, Get) && t in ss[j].pc && ss[j].pc[t].Idle?
    && forall m | i < m < j :: t in ss[m].pc && !ss[m].pc[t].Idle?
  }

  // ---------------------------------------------------------------- what a call has seen

  /** The step is one of thread t, in which it reads the head and finds the list empty. */
  predicate SeesEmpty(s: State, c: Step, t: Tid) {
    c == Step(t, Run) && t in s.pc && (s.pc[t].GetLoad? || s.pc[t].GetCas?) && s.head == None
  }

  /** The step is one of thread t, and unlinks the first node of the list, which is h. */
  predicate Unlinks(s: State, c: Step, s': State, t: Tid, h: Node) {
    && c == Step(t, Run) && t in s.pc && s.pc[t].GetCas? && s.pc[t].h == h && s.head == Some(h)
    && h in s.next && s'.head == s.next[h] && t in s'.pc && s'.pc[t] == GetTake(h)
  }

  /** The head that a thread in try_get has read last, if it is still to go on with it. */
  function GoesOnWith(p: Pc): Option<Ptr> {
    match p
    case GetDrop(_, head) => Some(head)
    case PubLoad(_, Retry(head)) => Some(head)
    case PubNext(_, _, Retry(head)) => Some(head)
    case PubRefs(_, _, Retry(head)) => Some(head)
    case PubCas(_, _, Retry(head)) => Some(head)
    case PubBack(_, _, Retry(head)) => Some(head)
    case _ => None
  }

  /** The thread is in try_get. */
  predicate Getting(p: Pc) {
    p.GetLoad? || p.GetRefs? || p.GetPin? || p.GetNext? || p.GetCas? || p.GetTake? || GoesOnWith(p).Some?
  }

  /** One more step of try_get: it goes on, or ends with a node in GetTake, or because it has read an empty list. */
  lemma GetGoes(s: State, t: Tid)
    requires TypedAt(s, t) && Getting(s.pc[t])
    ensures var s', p := Continue(s, t), s.pc[t];
            && t in s'.pc && (s'.pc[t].Idle? || Getting(s'.pc[t]))
            && (s'.pc[t].Idle? ==> p.GetTake? || SeesEmpty(s, Step(t, Run), t) || GoesOnWith(p) == Some(None))
            && (GoesOnWith(s'.pc[t]) == Some(None) ==> SeesEmpty(s, Step(t, Run), t) || GoesOnWith(p) == Some(None))
  {}

  /** It comes to GetTake by unlinking the first node. */
  lemma GetTakes(s: State, t: Tid)
    requires TypedAt(s, t) && Getting(s.pc[t]) && t in Continue(s, t).pc && Continue(s, t).pc[t].GetTake?
    requires s.pc[t].GetCas? ==> s.next[s.pc[t].h] == s.pc[t].next
    ensures Unlinks(s, Step(t, Run), Continue(s, t), t, Continue(s, t).pc[t].h)
  {}

  lemma KnowsNext(s: State, g: Aux, t: Tid)
    requires Inv(s, g) && t in s.pc
    ensures TypedAt(s, t) && (s.pc[t].GetCas? ==> s.next[s.pc[t].h] == s.pc[t].next)
  {
    InvTyped(s, g, t);
  }

  /** Only the last step hands something out. */
  lemma GetHands(s: State, t: Tid)
    requires TypedAt(s, t) && Getting(s.pc[t])
    ensures Continue(s, t).out == s.out + if s.pc[t].GetTake? then {s.pc[t].h} else {}
  {}

  /** A thread that is in an operation moves by its own steps only. */
  lemma OthersLeave(s: State, c: Step, s': State, t: Tid)
    requires Took(s, c, s') && t in s.pc && (c.who != t || c.a.Create?)
    ensures t in s'.pc && s'.pc[t] == s.pc[t]
  {}

  lemma OwnRuns(s: State, c: Step, s': State, t: Tid)
    requires Took(s, c, s') && c.who == t && !c.a.Create? && !s.pc[t].Idle?
    ensures c == Step(t, Run) && s' == Continue(s, t)
  {}

  ghost predicate HasSeenEmpty(ss: seq<State>, acts: seq<Step>, i: nat, j: nat, t: Tid)
    requires j <= |acts| <= |ss|
  {
    exists m :: i < m < j && SeesEmpty(ss[m], acts[m], t)
  }

  ghost predicate HasUnlinked(ss: seq<State>, acts: seq<Step>, i: nat, j: nat, t: Tid, h: Node)
    requires j <= |acts| < |ss|
  {
    exists m :: i < m < j && Unlinks(ss[m], acts[m], ss[m + 1], t, h)
  }

  /** What the call knows while it is in progress. */
  ghost predicate OnCourse(ss: seq<State>, acts: seq<Step>, i: nat, j: nat, t: Tid)
    requires j <= |acts| < |ss|
  {
    && t in ss[j].pc && Getting(ss[j].pc[t])
    && (GoesOnWith(ss[j].pc[t]) == Some(None) ==> HasSeenEmpty(ss, acts, i, j, t))
    && (ss[j].pc[t].GetTake? ==> HasUnlinked(ss, acts, i, j, t, ss[j].pc[t].h))
  }

  lemma SeenLonger(ss: seq<State>, acts: seq<Step>, i: nat, j: nat, t: Tid)
    requires j < |acts| < |ss|
    ensures HasSeenEmpty(ss, acts, i, j, t) || (i < j && SeesEmpty(ss[j], acts[j], t)) ==> HasSeenEmpty(ss, acts, i, j + 1, t)
  {
    hide SeesEmpty;
  }

  lemma UnlinkedLonger(ss: seq<State>, acts: seq<Step>, i: nat, j: nat, t: Tid, h: Node)
    requires j < |acts| < |ss| && (HasUnlinked(ss, acts, i, j, t, h) || (i < j && Unlinks(ss[j], acts[j], ss[j + 1], t, h)))
    ensures HasUnlinked(ss, acts, i, j + 1, t, h)
  {
    hide Unlinks;
  }

  lemma CourseStep(ss: seq<State>, acts: seq<Step>, i: nat, j: nat, t: Tid, g: Aux)
    requires i < j < |acts| < |ss| && Inv(ss[j], g) && Took(ss[j], acts[j], ss[j + 1]) && OnCourse(ss, acts, i, j, t) && t in ss[j + 1].pc && !ss[j + 1].pc[t].Idle?
    ensures OnCourse(ss, acts, i, j + 1, t)
  {
    hide Inv, Took, Getting, GoesOnWith, SeesEmpty, Unlinks, HasSeenEmpty, HasUnlinked, Next, Continue, TypedAt;
    SeenLonger(ss, acts, i, j, t);
    if acts[j].who == t && !acts[j].a.Create? {
      NotIdle(ss[j], t);
      KnowsNext(ss[j], g, t);
      OwnRuns(ss[j], acts[j], ss[j + 1], t);
      GetGoes(ss[j], t);
      if ss[j + 1].pc[t].GetTake? {
        GetTakes(ss[j], t);
        UnlinkedLonger(ss, acts, i, j, t, ss[j + 1].pc[t].h);
      }
    } else {
      OthersLeave(ss[j], acts[j], ss[j + 1], t);
      if ss[j].pc[t].GetTake? { UnlinkedLonger(ss, acts, i, j, t, ss[j].pc[t].h); }
    }
  }

  lemma NotIdle(s: State, t: Tid)
    requires t in s.pc && Getting(s.pc[t])
    ensures !s.pc[t].Idle?
  {}

  lemma TookTyped(s: State, c: Step, s': State)
    requires Took(s, c, s')
    ensures TypedAt(s, c.who)
  {}

  lemma {:induction false} Course(ss: seq<State>, acts: seq<Step>, i: nat, j: nat, t: Tid)
    requires IsTrace(ss, acts) && i < j < |ss| && acts[i] == Step(t, Get) && forall m | i < m <= j :: t in ss[m].pc && !ss[m].pc[t].Idle?
    ensures OnCourse(ss, acts, i, j, t)
  {
    hide Init, Took, Getting, GoesOnWith, OnCourse, Inv;
    if j == i + 1 {
      assert Took(ss[i], acts[i], ss[j]);
      GetBegins(ss, acts, i, t);
    } else {
      Course(ss, acts, i, j - 1, t);
      assert Took(ss[j - 1], acts[j - 1], ss[j]);
      TraceIsRun(ss, acts);
      var g := RunInvariant(ss, j - 1);
      CourseStep(ss, acts, i, j - 1, t, g);
    }
  }

  lemma GetBegins(ss: seq<State>, acts: seq<Step>, i: nat, t: Tid)
    requires i < |acts| < |ss| && Took(ss[i], acts[i], ss[i + 1]) && acts[i] == Step(t, Get)
    ensures OnCourse(ss, acts, i, i + 1, t)
  {}

  /**
    A call of try_get that is over has either unlinked the first node of the list and handed out just that
    one, which no client had, or it has read the head of an empty list in a step of its own.
   */
  lemma GetEnds(ss: seq<State>, acts: seq<Step>, i: nat, j: nat, t: Tid)
    requires IsGet(ss, acts, i, j, t)
    ensures i < j - 1 && acts[j - 1] == Step(t, Run) && t in ss[j - 1].pc
    ensures if ss[j - 1].pc[t].GetTake? then
              var h := ss[j - 1].pc[t].h;
              HasUnlinked(ss, acts, i, j, t, h) && h !in ss[j - 1].out && ss[j].out == ss[j - 1].out + {h}
            else HasSeenEmpty(ss, acts, i, j, t) && ss[j].out == ss[j - 1].out
    ensures forall m | i < m < j - 1 && acts[m] == Step(t, Run) :: ss[m + 1].out == ss[m].out
  {
    hide Init, Took, Getting, GoesOnWith, SeesEmpty, Unlinks, HasSeenEmpty, HasUnlinked, Continue, TypedAt;
    assert Took(ss[i], acts[i], ss[i + 1]);
    BeginsBusy(ss[i], acts[i], ss[i + 1], t);
    Course(ss, acts, i, j - 1, t);
    LastIsOwn(ss, acts, i, j, t);
    forall m | i < m < j - 1 && acts[m] == Step(t, Run) ensures ss[m + 1].out == ss[m].out {
      Course(ss, acts, i, m, t);
      Course(ss, acts, i, m + 1, t);
      assert Took(ss[m], acts[m], ss[m + 1]);
      StillGetting(ss[m], acts[m], ss[m + 1], t);
    }
  }

  lemma BeginsBusy(s: State, c: Step, s': State, t: Tid)
    requires Took(s, c, s') && c == Step(t, Get)
    ensures t in s'.pc && !s'.pc[t].Idle?
  {}

  lemma StillGetting(s: State, c: Step, s': State, t: Tid)
    requires Took(s, c, s') && c == Step(t, Run) && t in s.pc && Getting(s.pc[t]) && t in s'.pc && Getting(s'.pc[t])
    ensures s'.out == s.out
  {
    hide Getting;
    GetHands(s, t);
    if s.pc[t].GetTake? { TakeEnds(s, t); NotIdle(s', t); }
  }

  lemma TakeEnds(s: State, t: Tid)
    requires TypedAt(s, t) && s.pc[t].GetTake?
    ensures t in Continue(s, t).pc && Continue(s, t).pc[t].Idle?
  {}

  lemma LastIsOwn(ss: seq<State>, acts: seq<Step>, i: nat, j: nat, t: Tid)
    requires IsGet(ss, acts, i, j, t) && i < j - 1 && OnCourse(ss, acts, i, j - 1, t)
    ensures acts[j - 1] == Step(t, Run)
    ensures if ss[j - 1].pc[t].GetTake? then
              var h := ss[j - 1].pc[t].h;
              HasUnlinked(ss, acts, i, j, t, h) && h !in ss[j - 1].out && ss[j].out == ss[j - 1].out + {h}
            else HasSeenEmpty(ss, acts, i, j, t) && ss[j].out == ss[j - 1].out
  {
    hide Init, Inv, IsRun, Took, Getting, GoesOnWith, SeesEmpty, Unlinks, HasSeenEmpty, HasUnlinked, Next, Continue, TypedAt;
    var s, c, s' := ss[j - 1], acts[j - 1], ss[j];
    assert Took(s, c, s');
    SeenLonger(ss, acts, i, j - 1, t);
    if s.pc[t].GetTake? { UnlinkedLonger(ss, acts, i, j - 1, t, s.pc[t].h); }
    if c.who != t || c.a.Create? { OthersLeave(s, c, s', t); }
    TookTyped(s, c, s');
    OwnRuns(s, c, s', t);
    GetGoes(s, t);
    GetHands(s, t);
    if s.pc[t].GetTake? {
      TraceIsRun(ss, acts);
      var g := RunInvariant(ss, j - 1);
      TakenIsNotOut(s, g, t);
    }
  }

  lemma TakenIsNotOut(s: State, g: Aux, t: Tid)
    requires Inv(s, g) && t in s.pc && s.pc[t].GetTake?
    ensures s.pc[t].h !in s.out
  {
    InvTyped(s, g, t);
    InvAt(s, g, t, s.pc[t].h);
  }

  // ---------------------------------------------------------------- add, alone

  lemma PublishAlone(s: State, t: Tid, n: Node, k: nat)
    requires t in s.pc && s.pc[t].Idle? && s.next.Keys == s.refs.Keys && n in s.refs && PtrMentions(s.head) <= s.refs.Keys
    ensures Alone(Goto(s, t, PubLoad(n, Finish)), t, k + 4) == s.(refs := s.refs[n := 1], next := s.next[n := s.head], head := Some(n))
  {
    hide Alone;
    var s1 := s.(next := s.next[n := s.head]);
    var s2 := s1.(refs := s.refs[n := 1]);
    GoesTo(s, s, t, PubLoad(n, Finish), PubNext(n, s.head, Finish), k + 3);
    GoesTo(s, s1, t, PubNext(n, s.head, Finish), PubRefs(n, s.head, Finish), k + 2);
    GoesTo(s1, s2, t, PubRefs(n, s.head, Finish), PubCas(n, s.head, Finish), k + 1);
    PublishLast(s2, t, n, k);
  }

  lemma GoesTo(s: State, s': State, t: Tid, p: Pc, p': Pc, k: nat)
    requires TypedAt(Goto(s, t, p), t) && !p.Idle? && Continue(Goto(s, t, p), t) == Goto(s', t, p')
    ensures Alone(Goto(s, t, p), t, k + 1) == Alone(Goto(s', t, p'), t, k)
  {
    hide Continue, TypedAt;
  }

  lemma PublishLast(s: State, t: Tid, n: Node, k: nat)
    requires t in s.pc && s.pc[t].Idle? && s.next.Keys == s.refs.Keys && n in s.refs && PtrMentions(s.head) <= s.refs.Keys
    ensures Alone(Goto(s, t, PubCas(n, s.head, Finish)), t, k + 1) == s.(head := Some(n))
  {
    assert s.pc[t := PubCas(n, s.head, Finish)][t := Idle] == s.pc;
    assert Continue(Goto(s, t, PubCas(n, s.head, Finish)), t) == s.(head := Some(n));
  }

  /** Alone on a quiet list add makes the node the first one, in four steps after its fetch_add. */
  lemma AddAlone(s: State, g: Aux, t: Tid, n: Node, k: nat)
    requires Inv(s, g) && t in s.pc && n in s.out && forall u <- s.pc :: s.pc[u].Idle?
    ensures TypedAt(s, t) && Enabled(s, t, Add(n))
    ensures var s' := Alone(Next(s, t, Add(n)), t, k + 4);
            && s' == s.(refs := s.refs[n := 1], next := s.next[n := s.head], head := Some(n), out := s.out - {n})
            && IsList(s', [n] + g.list)
  {
    hide Inv, Alone, Continue, Next, IsList;
    InvTyped(s, g, t);
    OutIsNode(s, g, n);
    QuietWord(s, g, n);
    var s1 := s.(refs := s.refs[n := FLAG], out := s.out - {n});
    AddBegins(s, t, n);
    PublishAlone(s1, t, n, k);
    assert s.refs[n := FLAG][n := 1] == s.refs[n := 1];
    InFront(s, g.list, n);
  }

  lemma QuietWord(s: State, g: Aux, n: Node)
    requires Inv(s, g) && n in s.refs && n in g.loc && n !in g.list && forall u <- s.pc :: s.pc[u].Idle?
    ensures s.refs[n] == 0
  {
    QuietNode(s, g, n);
  }

  lemma AddBegins(s: State, t: Tid, n: Node)
    requires TypedAt(s, t) && Enabled(s, t, Add(n)) && s.refs[n] == 0
    ensures Next(s, t, Add(n)) == Goto(s.(refs := s.refs[n := FLAG], out := s.out - {n}), t, PubLoad(n, Finish))
  {}

  lemma OutIsNode(s: State, g: Aux, n: Node)
    requires Inv(s, g) && n in s.out
    ensures n in s.refs && n in g.loc && n in s.next && n !in g.list
  {
    assert LocOk(s, g, n);
  }

  lemma InFront(s: State, list: seq<Node>, n: Node)
    requires IsList(s, list) && n !in list && n in s.next
    ensures IsList(s.(refs := s.refs[n := 1], next := s.next[n := s.head], head := Some(n), out := s.out - {n}), [n] + list)
  {
    var list' := [n] + list;
    forall i | 0 < i < |list'| ensures list'[i] == list[i - 1] {}
  }
}
