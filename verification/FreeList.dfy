/**
  The lock-free free list of concurrentqueue.h (FreeList: add, try_get and
  add_knowing_refcount_is_zero), one atomic operation per step, for any number of nodes
  and threads.

  Every shared word keeps the value the code keeps in it: the 32-bit `freeListRefs` holds
  the should-be-on-free-list bit on top of the reference count and is updated with
  wrap-around additions.  Steps are sequentially consistent.
*/
module FreeListProtocol {
  import opened Options

  type Node = nat
  type Tid = nat
  type Ptr = Option<Node>

  const WORD := 0x1_0000_0000
  /** SHOULD_BE_ON_FREELIST */
  const FLAG := 0x8000_0000
  /** Each thread can hold one reference and the list one more, so the count stays below the flag. */
  const MAX_THREADS := 0x7FFF_FFFE

  function Add32(x: nat, d: int): nat { (x + d) % WORD }

  /** REFS_MASK applied to a word. */
  function Count(x: nat): nat { x % FLAG }

  predicate Flagged(x: nat) { x >= FLAG }

  /** Where add_knowing_refcount_is_zero returns to: its caller's caller, or the loop of try_get. */
  datatype Cont = Finish | Retry(head: Ptr)

  /** What a thread does next; arguments are its locals. */
  datatype Pc =
    | Idle
    // add_knowing_refcount_is_zero(n)
    | PubLoad(n: Node, k: Cont)
    | PubNext(n: Node, head: Ptr, k: Cont)
    | PubRefs(n: Node, head: Ptr, k: Cont)
    | PubCas(n: Node, head: Ptr, k: Cont)
    | PubBack(n: Node, head: Ptr, k: Cont)
    // try_get
    | GetLoad
    | GetRefs(h: Node)
    | GetPin(h: Node, refs: nat)
    | GetNext(h: Node)
    | GetCas(h: Node, next: Ptr)
    | GetDrop(h: Node, head: Ptr)
    | GetTake(h: Node)

  /** `out` holds the nodes in the hands of the clients of the free list. */
  datatype State = State(
    refs: map<Node, nat>,
    next: map<Node, Ptr>,
    head: Ptr,
    pc: map<Tid, Pc>,
    out: set<Node>)

  /** Create: a block is allocated; Add and Get: an idle thread calls the operation; Run: it goes on. */
  datatype Action = Create(n: Node) | Add(n: Node) | Get | Run

  function Mentions(p: Pc): set<Node> {
    match p
    case Idle => {}
    case PubLoad(n, k) => {n} + ContMentions(k)
    case PubNext(n, head, k) => {n} + PtrMentions(head) + ContMentions(k)
    case PubRefs(n, head, k) => {n} + PtrMentions(head) + ContMentions(k)
    case PubCas(n, head, k) => {n} + PtrMentions(head) + ContMentions(k)
    case PubBack(n, head, k) => {n} + PtrMentions(head) + ContMentions(k)
    case GetLoad => {}
    case GetRefs(h) => {h}
    case GetPin(h, _) => {h}
    case GetNext(h) => {h}
    case GetCas(h, next) => {h} + PtrMentions(next)
    case GetDrop(h, head) => {h} + PtrMentions(head)
    case GetTake(h) => {h}
  }

  function PtrMentions(p: Ptr): set<Node> { if p.None? then {} else {p.value} }

  function ContMentions(k: Cont): set<Node> { if k.Finish? then {} else PtrMentions(k.head) }

  /** Pointers point to nodes. */
  ghost predicate Typed(s: State) {
    && s.next.Keys == s.refs.Keys
    && s.out <= s.refs.Keys
    && PtrMentions(s.head) <= s.refs.Keys
    && (forall n <- s.next :: PtrMentions(s.next[n]) <= s.refs.Keys)
    && (forall t <- s.pc :: Mentions(s.pc[t]) <= s.refs.Keys)
  }

  /** The pointers that thread t works with point to nodes. */
  ghost predicate TypedAt(s: State, t: Tid) {
    && t in s.pc
    && s.next.Keys == s.refs.Keys
    && Mentions(s.pc[t]) <= s.refs.Keys
  }

  function Resume(k: Cont): Pc {
    match k
    case Finish => Idle
    case Retry(None) => Idle
    case Retry(Some(h)) => GetRefs(h)
  }

  predicate Enabled(s: State, t: Tid, a: Action) {
    && t in s.pc
    && match a
       case Create(n) => n !in s.refs
       case Add(n) => s.pc[t].Idle? && n in s.out && n in s.refs
       case Get => s.pc[t].Idle?
       case Run => !s.pc[t].Idle?
  }

  function Goto(s: State, t: Tid, p: Pc): State { s.(pc := s.pc[t := p]) }

  /** One atomic operation of thread `t`. */
  ghost function Next(s: State, t: Tid, a: Action): State
    requires TypedAt(s, t) && Enabled(s, t, a)
  {
    match a
    case Create(n) => s.(refs := s.refs[n := 0], next := s.next[n := None], out := s.out + {n})
    case Add(n) =>
      var s1 := s.(refs := s.refs[n := Add32(s.refs[n], FLAG)], out := s.out - {n});
      Goto(s1, t, if s.refs[n] == 0 then PubLoad(n, Finish) else Idle)
    case Get => Goto(s, t, GetLoad)
    case Run => Continue(s, t)
  }

  ghost function Continue(s: State, t: Tid): State
    requires TypedAt(s, t) && !s.pc[t].Idle?
  {
    match s.pc[t]
    case PubLoad(n, k) => Goto(s, t, PubNext(n, s.head, k))
    case PubNext(n, head, k) => Goto(s.(next := s.next[n := head]), t, PubRefs(n, head, k))
    case PubRefs(n, head, k) => Goto(s.(refs := s.refs[n := 1]), t, PubCas(n, head, k))
    case PubCas(n, head, k) =>
      if s.head == head then Goto(s.(head := Some(n)), t, Resume(k))
      else Goto(s, t, PubBack(n, s.head, k))
    case PubBack(n, head, k) =>
      var s1 := s.(refs := s.refs[n := Add32(s.refs[n], FLAG - 1)]);
      Goto(s1, t, if s.refs[n] == 1 then PubNext(n, head, k) else Resume(k))
    case GetLoad => Goto(s, t, Resume(Retry(s.head)))
    case GetRefs(h) => Goto(s, t, if Count(s.refs[h]) == 0 then GetLoad else GetPin(h, s.refs[h]))
    case GetPin(h, refs) =>
      if s.refs[h] == refs then Goto(s.(refs := s.refs[h := Add32(refs, 1)]), t, GetNext(h))
      else Goto(s, t, GetLoad)
    case GetNext(h) => Goto(s, t, GetCas(h, s.next[h]))
    case GetCas(h, next) =>
      if s.head == Some(h) then Goto(s.(head := next), t, GetTake(h))
      else Goto(s, t, GetDrop(h, s.head))
    case GetDrop(h, head) =>
      var s1 := s.(refs := s.refs[h := Add32(s.refs[h], -1)]);
      Goto(s1, t, if s.refs[h] == FLAG + 1 then PubLoad(h, Retry(head)) else Resume(Retry(head)))
    case GetTake(h) =>
      Goto(s.(refs := s.refs[h := Add32(s.refs[h], -2)], out := s.out + {h}), t, Idle)
  }

  // ---------------------------------------------------------------- the invariant

  /** Where a node is. */
  datatype Loc =
    | Out                 // with a client
    | Silent(who: Tid)     // being published: no references at all
    | Pending(who: Tid)    // being published: the list's reference is set, the node is not linked yet
    | Linked
    | Taken(who: Tid)      // unlinked by `by`, which still holds its own and the list's reference
    | Waiting             // flagged: whoever drops the last reference must publish it

  /** Auxiliary state: the linked nodes in order, and the place of every node. */
  datatype Aux = Aux(list: seq<Node>, loc: map<Node, Loc>)

  predicate Holds(p: Pc, n: Node) {
    || p == GetNext(n)
    || (p.GetCas? && p.h == n)
    || (p.GetDrop? && p.h == n)
    || p == GetTake(n)
  }

  /** The threads holding a reference to n. */
  ghost function Holders(pc: map<Tid, Pc>, n: Node): set<Tid> { set t | t in pc && Holds(pc[t], n) }

  predicate Publishes(p: Pc, n: Node) { (p.PubLoad? || p.PubNext? || p.PubRefs?) && p.n == n }

  predicate Offers(p: Pc, n: Node) { (p.PubCas? || p.PubBack?) && p.n == n }

  function First(list: seq<Node>, i: nat): Ptr { if i < |list| then Some(list[i]) else None }

  /** The nodes of `list` are linked in this order from the head, each once. */
  ghost predicate IsList(s: State, list: seq<Node>) {
    && s.head == First(list, 0)
    && (forall i | 0 <= i < |list| :: list[i] in s.next && s.next[list[i]] == First(list, i + 1))
    && (forall i, j | 0 <= i < j < |list| :: list[i] != list[j])
  }

  function ListRef(l: Loc): nat { if l.Pending? || l.Linked? || l.Taken? then 1 else 0 }

  function FlagOf(l: Loc): nat { if l.Silent? || l.Waiting? then FLAG else 0 }

  /** The reference word of n says where n is and how many threads hold it. */
  ghost predicate RefsOk(s: State, g: Aux, n: Node)
    requires n in s.refs && n in g.loc
  {
    && s.refs[n] == FlagOf(g.loc[n]) + ListRef(g.loc[n]) + |Holders(s.pc, n)|
    && (g.loc[n].Silent? ==> Holders(s.pc, n) == {})
    && (g.loc[n].Waiting? ==> Holders(s.pc, n) != {})
  }

  ghost predicate LocOk(s: State, g: Aux, n: Node)
    requires n in g.loc
  {
    && (n in s.out <==> g.loc[n].Out?)
    && (n in g.list <==> g.loc[n].Linked?)
    && (g.loc[n].Silent? ==> g.loc[n].who in s.pc && Publishes(s.pc[g.loc[n].who], n))
    && (g.loc[n].Pending? ==> g.loc[n].who in s.pc && Offers(s.pc[g.loc[n].who], n))
    && (g.loc[n].Taken? ==> g.loc[n].who in s.pc && s.pc[g.loc[n].who] == GetTake(n))
  }

  /** What a thread knows at its program point. */
  ghost predicate PcOk(s: State, g: Aux, t: Tid)
    requires t in s.pc && Mentions(s.pc[t]) <= s.next.Keys && s.next.Keys == g.loc.Keys
  {
    match s.pc[t]
    case PubLoad(n, _) => g.loc[n] == Silent(t)
    case PubNext(n, _, _) => g.loc[n] == Silent(t)
    case PubRefs(n, head, _) => g.loc[n] == Silent(t) && s.next[n] == head
    case PubCas(n, head, _) => g.loc[n] == Pending(t) && s.next[n] == head
    case PubBack(n, _, _) => g.loc[n] == Pending(t)
    case GetPin(_, refs) => Count(refs) != 0
    case GetCas(h, next) => s.next[h] == next
    case GetTake(h) => g.loc[h] == Taken(t)
    case _ => true
  }

  ghost predicate Inv(s: State, g: Aux) {
    && Typed(s)
    && |s.pc| <= MAX_THREADS
    && g.loc.Keys == s.refs.Keys
    && IsList(s, g.list)
    && AllRefs(s, g)
    && AllLoc(s, g)
    && AllPc(s, g)
  }

  ghost predicate AllRefs(s: State, g: Aux)
    requires g.loc.Keys == s.refs.Keys
  {
    forall n <- s.refs :: RefsOk(s, g, n)
  }

  ghost predicate AllLoc(s: State, g: Aux) {
    forall n <- g.loc :: LocOk(s, g, n)
  }

  ghost predicate AllPc(s: State, g: Aux)
    requires Typed(s) && g.loc.Keys == s.refs.Keys
  {
    forall t <- s.pc :: PcOk(s, g, t)
  }

  /** An empty list, no node yet, every thread idle. */
  ghost predicate Init(s: State) {
    && s.refs == map[] && s.next == map[] && s.head == None && s.out == {}
    && |s.pc| <= MAX_THREADS
    && (forall t <- s.pc :: s.pc[t].Idle?)
  }

  // ---------------------------------------------------------------- each step keeps it

  /** Only the holders of the nodes that thread t held or holds now change. */
  lemma HoldersAfter(pc: map<Tid, Pc>, t: Tid, p: Pc, n: Node)
    requires t in pc
    ensures Holders(pc[t := p], n) == if Holds(p, n) then Holders(pc, n) + {t} else Holders(pc, n) - {t}
    ensures t in Holders(pc, n) <==> Holds(pc[t], n)
    ensures |Holders(pc[t := p], n)| == |Holders(pc, n)| + (if Holds(p, n) then 1 else 0) - (if Holds(pc[t], n) then 1 else 0)
  {
    var h, h' := Holders(pc, n), Holders(pc[t := p], n);
    assert h' == if Holds(p, n) then h + {t} else h - {t};
  }

  lemma HoldersBound(s: State, n: Node)
    ensures |Holders(s.pc, n)| <= |s.pc|
  {
    Cardinality(Holders(s.pc, n), s.pc.Keys);
  }

  lemma Cardinality<T>(a: set<T>, b: set<T>)
    requires a <= b
    ensures |a| <= |b|
  {
    assert |b| == |a + (b - a)| == |a| + |b - a|;
  }

  /**
    Every step moves one thread t to a program point p and touches one node m at most,
    giving it the reference word r, the link x and the place l.
   */
  datatype Move = Move(t: Tid, p: Pc, m: Node, r: nat, x: Ptr, l: Loc, head: Ptr, list: seq<Node>)

  ghost function Moved(s: State, d: Move): State {
    State(s.refs[d.m := d.r], s.next[d.m := d.x], d.head, s.pc[d.t := d.p],
          if d.l.Out? then s.out + {d.m} else s.out - {d.m})
  }

  ghost function MovedAux(g: Aux, d: Move): Aux { Aux(d.list, g.loc[d.m := d.l]) }

  /** A thread at p has no reference to, and no duty for, a node other than m. */
  ghost predicate OnlyAbout(p: Pc, m: Node) {
    forall n: Node | n != m :: !Holds(p, n) && !Publishes(p, n) && !Offers(p, n)
  }

  /** The place of node m fits the program point that thread t reaches. */
  predicate Fits(d: Move) {
    match d.l
    case Silent(u) => u == d.t && Publishes(d.p, d.m)
    case Pending(u) => u == d.t && Offers(d.p, d.m)
    case Taken(u) => u == d.t && d.p == GetTake(d.m)
    case _ => true
  }

  /** No thread other than t relies on this place. */
  predicate NotOthers(l: Loc, t: Tid) { (l.Silent? || l.Pending? || l.Taken?) ==> l.who == t }

  predicate NotMine(l: Loc, t: Tid) { (l.Silent? || l.Pending? || l.Taken?) ==> l.who != t }

  function Bit(b: bool): nat { if b then 1 else 0 }

  /** What a step must establish about the one node and the one thread that it changes. */
  ghost predicate MoveOk(s: State, g: Aux, d: Move) {
    && d.t in s.pc && d.m in s.refs && d.m in g.loc && d.m in s.next
    && OnlyAbout(s.pc[d.t], d.m) && OnlyAbout(d.p, d.m)
    && ((NotOthers(g.loc[d.m], d.t) && Fits(d)) || (d.l == g.loc[d.m] && NotMine(d.l, d.t)))
    && (d.x == s.next[d.m] || g.loc[d.m] == Silent(d.t))
    && RefsMoveOk(d, |Holders(s.pc, d.m)| + Bit(Holds(d.p, d.m)) - Bit(Holds(s.pc[d.t], d.m)))
    && (forall n: Node :: n in d.list <==> if n == d.m then d.l.Linked? else n in g.list)
  }

  predicate RefsMoveOk(d: Move, holders: int) {
    && d.r == FlagOf(d.l) + ListRef(d.l) + holders
    && (d.l.Silent? ==> holders == 0)
    && (d.l.Waiting? ==> holders != 0)
  }

  lemma MovedRefs(s: State, g: Aux, d: Move, n: Node)
    requires MoveOk(s, g, d) && n in s.refs && n in g.loc && RefsOk(s, g, n)
    ensures RefsOk(Moved(s, d), MovedAux(g, d), n)
  {
    HoldersAfter(s.pc, d.t, d.p, n);
  }

  lemma MovedLoc(s: State, g: Aux, d: Move, n: Node)
    requires MoveOk(s, g, d) && n in g.loc && LocOk(s, g, n)
    ensures LocOk(Moved(s, d), MovedAux(g, d), n)
  {
    if n != d.m {
      assert !Publishes(s.pc[d.t], n) && !Offers(s.pc[d.t], n) && !Holds(s.pc[d.t], n);
    }
  }

  lemma MovedPc(s: State, g: Aux, d: Move, u: Tid)
    requires MoveOk(s, g, d) && RefsOk(s, g, d.m)
    requires s.next.Keys == g.loc.Keys && u in s.pc && u != d.t && Mentions(s.pc[u]) <= s.next.Keys && PcOk(s, g, u)
    ensures PcOk(Moved(s, d), MovedAux(g, d), u)
  {
    if s.pc[u].GetCas? && s.pc[u].h == d.m {
      assert u in Holders(s.pc, d.m);
      assert d.x == s.next[d.m];
    }
  }

  lemma MovedTyped(s: State, d: Move)
    requires Typed(s) && d.t in s.pc && d.m in s.refs
    requires Mentions(d.p) + PtrMentions(d.x) + PtrMentions(d.head) <= s.refs.Keys
    ensures Typed(Moved(s, d)) && |Moved(s, d).pc| == |s.pc|
  {
    var s' := Moved(s, d);
    assert s'.pc.Keys == s.pc.Keys && |s'.pc| == |s'.pc.Keys| == |s.pc.Keys| == |s.pc|;
    assert s'.refs.Keys == s.refs.Keys && s'.next.Keys == s.next.Keys;
  }

  lemma MovedAllRefs(s: State, g: Aux, d: Move)
    requires g.loc.Keys == s.refs.Keys && AllRefs(s, g) && MoveOk(s, g, d)
    ensures MovedAux(g, d).loc.Keys == Moved(s, d).refs.Keys && AllRefs(Moved(s, d), MovedAux(g, d))
  {
    forall n | n in s.refs ensures RefsOk(Moved(s, d), MovedAux(g, d), n) { MovedRefs(s, g, d, n); }
  }

  lemma MovedAllLoc(s: State, g: Aux, d: Move)
    requires AllLoc(s, g) && MoveOk(s, g, d)
    ensures AllLoc(Moved(s, d), MovedAux(g, d))
  {
    forall n | n in g.loc ensures LocOk(Moved(s, d), MovedAux(g, d), n) { MovedLoc(s, g, d, n); }
  }

  lemma MovedAllPc(s: State, g: Aux, d: Move)
    requires Typed(s) && g.loc.Keys == s.refs.Keys && AllPc(s, g) && MoveOk(s, g, d) && RefsOk(s, g, d.m)
    requires Typed(Moved(s, d)) && PcOk(Moved(s, d), MovedAux(g, d), d.t)
    ensures MovedAux(g, d).loc.Keys == Moved(s, d).refs.Keys && AllPc(Moved(s, d), MovedAux(g, d))
  {
    forall u | u in s.pc && u != d.t ensures PcOk(Moved(s, d), MovedAux(g, d), u) { MovedPc(s, g, d, u); }
  }

  lemma MovedInv(s: State, g: Aux, d: Move)
    requires Inv(s, g) && MoveOk(s, g, d)
    requires Mentions(d.p) + PtrMentions(d.x) + PtrMentions(d.head) <= s.refs.Keys
    requires IsList(Moved(s, d), d.list) && PcOk(Moved(s, d), MovedAux(g, d), d.t)
    ensures Inv(Moved(s, d), MovedAux(g, d))
  {
    MovedTyped(s, d);
    MovedAllRefs(s, g, d);
    MovedAllLoc(s, g, d);
    MovedAllPc(s, g, d);
  }

  /** A step that only moves thread t, which keeps the references and duties it has. */
  ghost predicate KeepsDuties(s: State, t: Tid, p: Pc) {
    && t in s.pc && p.GetTake? == s.pc[t].GetTake?
    && forall n: Node :: Holds(p, n) == Holds(s.pc[t], n) && Publishes(p, n) == Publishes(s.pc[t], n) && Offers(p, n) == Offers(s.pc[t], n)
  }

  lemma GotoInv(s: State, g: Aux, t: Tid, p: Pc)
    requires Inv(s, g) && KeepsDuties(s, t, p) && Mentions(p) <= s.refs.Keys && PcOk(Goto(s, t, p), g, t)
    ensures Inv(Goto(s, t, p), g)
  {
    var s' := Goto(s, t, p);
    assert s'.pc.Keys == s.pc.Keys && |s'.pc| == |s'.pc.Keys| == |s.pc.Keys| == |s.pc|;
    GotoRefs(s, g, t, p);
    GotoLoc(s, g, t, p);
    GotoPc(s, g, t, p);
  }

  lemma GotoRefs(s: State, g: Aux, t: Tid, p: Pc)
    requires g.loc.Keys == s.refs.Keys && AllRefs(s, g) && KeepsDuties(s, t, p)
    ensures AllRefs(Goto(s, t, p), g)
  {
    forall n | n in s.refs ensures RefsOk(Goto(s, t, p), g, n) { GotoHolders(s, t, p, n); }
  }

  lemma GotoHolders(s: State, t: Tid, p: Pc, n: Node)
    requires KeepsDuties(s, t, p)
    ensures Holders(Goto(s, t, p).pc, n) == Holders(s.pc, n)
  {}

  lemma GotoLoc(s: State, g: Aux, t: Tid, p: Pc)
    requires AllLoc(s, g) && KeepsDuties(s, t, p)
    ensures AllLoc(Goto(s, t, p), g)
  {
    forall n | n in g.loc ensures LocOk(Goto(s, t, p), g, n) { assert LocOk(s, g, n); assert s.pc[t].GetTake? ==> Holds(s.pc[t], s.pc[t].h); }
  }

  lemma GotoPc(s: State, g: Aux, t: Tid, p: Pc)
    requires Typed(s) && g.loc.Keys == s.refs.Keys && AllPc(s, g) && t in s.pc
    requires Mentions(p) <= s.refs.Keys && PcOk(Goto(s, t, p), g, t)
    ensures Typed(Goto(s, t, p)) && AllPc(Goto(s, t, p), g)
  {
    forall u | u in s.pc && u != t ensures PcOk(Goto(s, t, p), g, u) { assert PcOk(s, g, u); }
  }

  // ---------------------------------------------------------------- the steps one by one

  /** What the invariant says about node m and thread t. */
  ghost predicate At(s: State, g: Aux, t: Tid, m: Node) {
    && TypedAt(s, t)
    && g.loc.Keys == s.refs.Keys
    && m in s.refs && m in s.next && m in g.loc && RefsOk(s, g, m) && LocOk(s, g, m) && PcOk(s, g, t)
    && PtrMentions(s.next[m]) <= s.refs.Keys
    && |Holders(s.pc, m)| <= MAX_THREADS
    && (Holds(s.pc[t], m) ==> |Holders(s.pc, m)| >= 1)
  }

  lemma InvAt(s: State, g: Aux, t: Tid, m: Node)
    requires Inv(s, g) && t in s.pc && m in s.refs
    ensures At(s, g, t, m) && IsList(s, g.list)
  {
    assert Mentions(s.pc[t]) <= s.refs.Keys;
    HoldersBound(s, m);
    if Holds(s.pc[t], m) {
      Cardinality({t}, Holders(s.pc, m));
    }
  }

  /** What a move does to the state and to the thread's program point. */
  ghost predicate StateMatches(s: State, g: Aux, d: Move, s': State) {
    && d.t in s.pc && d.m in s.refs
    && Mentions(d.p) + PtrMentions(d.x) <= s.refs.Keys && (d.head == s.head || PtrMentions(d.head) <= s.refs.Keys)
    && s.next.Keys == s.refs.Keys == g.loc.Keys
    && Mentions(Moved(s, d).pc[d.t]) <= Moved(s, d).next.Keys && Moved(s, d).next.Keys == MovedAux(g, d).loc.Keys
    && PcOk(Moved(s, d), MovedAux(g, d), d.t) && s' == Moved(s, d)
  }

  /** The move d is the step that thread t takes in s, and it leaves the list in order. */
  ghost predicate Matches(s: State, g: Aux, d: Move, s': State) {
    MoveOk(s, g, d) && IsList(Moved(s, d), d.list) && StateMatches(s, g, d, s')
  }

  lemma MatchInv(s: State, g: Aux, d: Move, s': State)
    requires Inv(s, g) && Matches(s, g, d, s')
    ensures Inv(s', MovedAux(g, d))
  {
    MovedInv(s, g, d);
  }

  /** A step that leaves the list alone, or changes the link of a node outside it. */
  lemma SameList(s: State, g: Aux, d: Move)
    requires IsList(s, g.list) && d.m in s.next && d.head == s.head && d.list == g.list
    requires d.x == s.next[d.m] || d.m !in g.list
    ensures IsList(Moved(s, d), d.list)
  {}

  function AddMove(s: State, g: Aux, t: Tid, n: Node): Move
    requires n in s.refs && n in s.next
  {
    if s.refs[n] == 0 then Move(t, PubLoad(n, Finish), n, FLAG, s.next[n], Silent(t), s.head, g.list)
    else Move(t, Idle, n, s.refs[n] + FLAG, s.next[n], Waiting, s.head, g.list)
  }

  lemma AddFirstMatches(s: State, g: Aux, t: Tid, n: Node)
    requires At(s, g, t, n) && IsList(s, g.list) && Enabled(s, t, Add(n)) && s.refs[n] == 0
    ensures Matches(s, g, AddMove(s, g, t, n), Next(s, t, Add(n)))
  {
    hide MoveOk, RefsOk, LocOk, PcOk, Moved, MovedAux, Continue, Holders, StateMatches;
    AddFirstMove(s, g, t, n);
    AddFirstState(s, g, t, n);
    SameList(s, g, AddMove(s, g, t, n));
  }

  lemma AddFirstMove(s: State, g: Aux, t: Tid, n: Node)
    requires At(s, g, t, n) && IsList(s, g.list) && Enabled(s, t, Add(n)) && s.refs[n] == 0
    ensures MoveOk(s, g, AddMove(s, g, t, n))
  {
  }

  lemma AddFirstState(s: State, g: Aux, t: Tid, n: Node)
    requires At(s, g, t, n) && IsList(s, g.list) && Enabled(s, t, Add(n)) && s.refs[n] == 0
    ensures StateMatches(s, g, AddMove(s, g, t, n), Next(s, t, Add(n)))
  {
    hide RefsOk, Holders;
  }

  lemma AddFlagMatches(s: State, g: Aux, t: Tid, n: Node)
    requires At(s, g, t, n) && IsList(s, g.list) && Enabled(s, t, Add(n)) && s.refs[n] != 0
    ensures Matches(s, g, AddMove(s, g, t, n), Next(s, t, Add(n)))
  {
    hide MoveOk, RefsOk, LocOk, PcOk, Moved, MovedAux, Continue, Holders, StateMatches;
    AddFlagMove(s, g, t, n);
    AddFlagState(s, g, t, n);
    SameList(s, g, AddMove(s, g, t, n));
  }

  lemma AddFlagMove(s: State, g: Aux, t: Tid, n: Node)
    requires At(s, g, t, n) && IsList(s, g.list) && Enabled(s, t, Add(n)) && s.refs[n] != 0
    ensures MoveOk(s, g, AddMove(s, g, t, n))
  {
  }

  lemma AddFlagState(s: State, g: Aux, t: Tid, n: Node)
    requires At(s, g, t, n) && IsList(s, g.list) && Enabled(s, t, Add(n)) && s.refs[n] != 0
    ensures StateMatches(s, g, AddMove(s, g, t, n), Next(s, t, Add(n)))
  {
  }

  lemma ResumeFacts(k: Cont)
    ensures forall n: Node :: !Holds(Resume(k), n) && !Publishes(Resume(k), n) && !Offers(Resume(k), n)
    ensures Mentions(Resume(k)) == ContMentions(k)
    ensures Resume(k).Idle? || Resume(k).GetRefs?
  {}

  /** The steps of add_knowing_refcount_is_zero and try_get that change a node. */
  predicate Moves(s: State, t: Tid)
    requires t in s.pc && Mentions(s.pc[t]) <= s.refs.Keys
  {
    match s.pc[t]
    case PubNext(_, _, _) => true
    case PubRefs(_, _, _) => true
    case PubCas(n, head, _) => s.head == head
    case PubBack(_, _, _) => true
    case GetPin(h, refs) => s.refs[h] == refs
    case GetCas(h, _) => s.head == Some(h)
    case GetDrop(_, _) => true
    case GetTake(_) => true
    case _ => false
  }

  /** The node that the step is about. */
  function Focus(p: Pc): Node
    requires !p.Idle? && !p.GetLoad?
  {
    match p
    case PubLoad(n, _) => n
    case PubNext(n, _, _) => n
    case PubRefs(n, _, _) => n
    case PubCas(n, _, _) => n
    case PubBack(n, _, _) => n
    case GetRefs(h) => h
    case GetPin(h, _) => h
    case GetNext(h) => h
    case GetCas(h, _) => h
    case GetDrop(h, _) => h
    case GetTake(h) => h
  }

  ghost function RunMove(s: State, g: Aux, t: Tid): Move
    requires TypedAt(s, t) && g.loc.Keys == s.refs.Keys && Moves(s, t)
  {
    var m := Focus(s.pc[t]);
    match s.pc[t]
    case PubNext(n, head, k) => Move(t, PubRefs(n, head, k), n, s.refs[n], head, Silent(t), s.head, g.list)
    case PubRefs(n, head, k) => Move(t, PubCas(n, head, k), n, 1, s.next[n], Pending(t), s.head, g.list)
    case PubCas(n, head, k) => Move(t, Resume(k), n, s.refs[n], s.next[n], Linked, Some(n), [n] + g.list)
    case PubBack(n, head, k) =>
      if s.refs[n] == 1 then Move(t, PubNext(n, head, k), n, FLAG, s.next[n], Silent(t), s.head, g.list)
      else Move(t, Resume(k), n, Add32(s.refs[n], FLAG - 1), s.next[n], Waiting, s.head, g.list)
    case GetPin(h, refs) => Move(t, GetNext(h), h, Add32(refs, 1), s.next[h], g.loc[h], s.head, g.list)
    case GetCas(h, next) =>
      Move(t, GetTake(h), h, s.refs[h], s.next[h], Taken(t), next, if g.list == [] then [] else g.list[1..])
    case GetDrop(h, head) =>
      if s.refs[h] == FLAG + 1 then Move(t, PubLoad(h, Retry(head)), h, FLAG, s.next[h], Silent(t), s.head, g.list)
      else Move(t, Resume(Retry(head)), h, Add32(s.refs[h], -1), s.next[h], g.loc[h], s.head, g.list)
    case GetTake(h) => Move(t, Idle, h, Add32(s.refs[h], -2), s.next[h], Out, s.head, g.list)
  }

  lemma NotLinked(s: State, g: Aux, t: Tid)
    requires TypedAt(s, t) && s.pc[t].PubNext? && At(s, g, t, s.pc[t].n)
    ensures s.pc[t].n !in g.list
  {
    hide RefsOk, Holders;
  }

  lemma PubNextMatches(s: State, g: Aux, t: Tid)
    requires TypedAt(s, t) && s.pc[t].PubNext? && At(s, g, t, s.pc[t].n) && IsList(s, g.list)
    ensures Matches(s, g, RunMove(s, g, t), Continue(s, t))
  {
    hide MoveOk, RefsOk, LocOk, PcOk, Moved, MovedAux, Continue, Holders, StateMatches;
    PubNextMove(s, g, t);
    PubNextState(s, g, t);
    NotLinked(s, g, t);
    SameList(s, g, RunMove(s, g, t));
  }

  lemma PubNextMove(s: State, g: Aux, t: Tid)
    requires TypedAt(s, t) && s.pc[t].PubNext? && At(s, g, t, s.pc[t].n) && IsList(s, g.list)
    ensures MoveOk(s, g, RunMove(s, g, t))
  {
  }

  lemma PubNextState(s: State, g: Aux, t: Tid)
    requires TypedAt(s, t) && s.pc[t].PubNext? && At(s, g, t, s.pc[t].n) && IsList(s, g.list)
    ensures StateMatches(s, g, RunMove(s, g, t), Continue(s, t))
  {
    hide RefsOk, Holders;
  }

  lemma PubRefsMatches(s: State, g: Aux, t: Tid)
    requires TypedAt(s, t) && s.pc[t].PubRefs? && At(s, g, t, s.pc[t].n) && IsList(s, g.list)
    ensures Matches(s, g, RunMove(s, g, t), Continue(s, t))
  {
    hide MoveOk, RefsOk, LocOk, PcOk, Moved, MovedAux, Continue, Holders, StateMatches;
    PubRefsMove(s, g, t);
    PubRefsState(s, g, t);
    SameList(s, g, RunMove(s, g, t));
  }

  lemma PubRefsMove(s: State, g: Aux, t: Tid)
    requires TypedAt(s, t) && s.pc[t].PubRefs? && At(s, g, t, s.pc[t].n) && IsList(s, g.list)
    ensures MoveOk(s, g, RunMove(s, g, t))
  {
  }

  lemma PubRefsState(s: State, g: Aux, t: Tid)
    requires TypedAt(s, t) && s.pc[t].PubRefs? && At(s, g, t, s.pc[t].n) && IsList(s, g.list)
    ensures StateMatches(s, g, RunMove(s, g, t), Continue(s, t))
  {
    hide RefsOk, Holders;
  }

  lemma PubBackLastMatches(s: State, g: Aux, t: Tid)
    requires TypedAt(s, t) && s.pc[t].PubBack? && At(s, g, t, s.pc[t].n) && IsList(s, g.list)
    requires s.refs[s.pc[t].n] == 1
    ensures Matches(s, g, RunMove(s, g, t), Continue(s, t))
  {
    hide MoveOk, RefsOk, LocOk, PcOk, Moved, MovedAux, Continue, Holders, StateMatches;
    PubBackLastMove(s, g, t);
    PubBackLastState(s, g, t);
    SameList(s, g, RunMove(s, g, t));
  }

  lemma PubBackLastMove(s: State, g: Aux, t: Tid)
    requires TypedAt(s, t) && s.pc[t].PubBack? && At(s, g, t, s.pc[t].n) && IsList(s, g.list)
    requires s.refs[s.pc[t].n] == 1
    ensures MoveOk(s, g, RunMove(s, g, t))
  {
  }

  lemma PubBackLastState(s: State, g: Aux, t: Tid)
    requires TypedAt(s, t) && s.pc[t].PubBack? && At(s, g, t, s.pc[t].n) && IsList(s, g.list)
    requires s.refs[s.pc[t].n] == 1
    ensures StateMatches(s, g, RunMove(s, g, t), Continue(s, t))
  {
    hide RefsOk, Holders;
  }

  lemma PubBackFlagMatches(s: State, g: Aux, t: Tid)
    requires TypedAt(s, t) && s.pc[t].PubBack? && At(s, g, t, s.pc[t].n) && IsList(s, g.list)
    requires s.refs[s.pc[t].n] != 1
    ensures Matches(s, g, RunMove(s, g, t), Continue(s, t))
  {
    hide MoveOk, RefsOk, LocOk, PcOk, Moved, MovedAux, Continue, Holders, StateMatches;
    PubBackFlagMove(s, g, t);
    PubBackFlagState(s, g, t);
    SameList(s, g, RunMove(s, g, t));
  }

  lemma PubBackFlagMove(s: State, g: Aux, t: Tid)
    requires TypedAt(s, t) && s.pc[t].PubBack? && At(s, g, t, s.pc[t].n) && IsList(s, g.list)
    requires s.refs[s.pc[t].n] != 1
    ensures MoveOk(s, g, RunMove(s, g, t))
  {
    ResumeFacts(s.pc[t].k);
  }

  lemma PubBackFlagState(s: State, g: Aux, t: Tid)
    requires TypedAt(s, t) && s.pc[t].PubBack? && At(s, g, t, s.pc[t].n) && IsList(s, g.list)
    requires s.refs[s.pc[t].n] != 1
    ensures StateMatches(s, g, RunMove(s, g, t), Continue(s, t))
  {
    hide RefsOk, Holders;
    ResumeFacts(s.pc[t].k);
  }

  lemma PinPlace(s: State, g: Aux, h: Node)
    requires h in s.refs && h in g.loc && RefsOk(s, g, h) && Count(s.refs[h]) != 0 && |Holders(s.pc, h)| <= MAX_THREADS
    ensures !g.loc[h].Silent? && Add32(s.refs[h], 1) == s.refs[h] + 1
  {}

  lemma GetPinMatches(s: State, g: Aux, t: Tid)
    requires TypedAt(s, t) && s.pc[t].GetPin? && At(s, g, t, s.pc[t].h) && IsList(s, g.list) && Moves(s, t)
    ensures Matches(s, g, RunMove(s, g, t), Continue(s, t))
  {
    hide MoveOk, RefsOk, LocOk, PcOk, Moved, MovedAux, Continue, Holders, StateMatches;
    GetPinMove(s, g, t);
    GetPinState(s, g, t);
    SameList(s, g, RunMove(s, g, t));
  }

  lemma GetPinMove(s: State, g: Aux, t: Tid)
    requires TypedAt(s, t) && s.pc[t].GetPin? && At(s, g, t, s.pc[t].h) && IsList(s, g.list) && Moves(s, t)
    ensures MoveOk(s, g, RunMove(s, g, t))
  {
    PinPlace(s, g, s.pc[t].h);
  }

  lemma GetPinState(s: State, g: Aux, t: Tid)
    requires TypedAt(s, t) && s.pc[t].GetPin? && At(s, g, t, s.pc[t].h) && IsList(s, g.list) && Moves(s, t)
    ensures StateMatches(s, g, RunMove(s, g, t), Continue(s, t))
  {
    hide RefsOk, Holders;
  }

  lemma GetDropLastMatches(s: State, g: Aux, t: Tid)
    requires TypedAt(s, t) && s.pc[t].GetDrop? && At(s, g, t, s.pc[t].h) && IsList(s, g.list)
    requires s.refs[s.pc[t].h] == FLAG + 1
    ensures Matches(s, g, RunMove(s, g, t), Continue(s, t))
  {
    hide MoveOk, RefsOk, LocOk, PcOk, Moved, MovedAux, Continue, Holders, StateMatches;
    GetDropLastMove(s, g, t);
    GetDropLastState(s, g, t);
    SameList(s, g, RunMove(s, g, t));
  }

  lemma GetDropLastMove(s: State, g: Aux, t: Tid)
    requires TypedAt(s, t) && s.pc[t].GetDrop? && At(s, g, t, s.pc[t].h) && IsList(s, g.list)
    requires s.refs[s.pc[t].h] == FLAG + 1
    ensures MoveOk(s, g, RunMove(s, g, t))
  {
  }

  lemma GetDropLastState(s: State, g: Aux, t: Tid)
    requires TypedAt(s, t) && s.pc[t].GetDrop? && At(s, g, t, s.pc[t].h) && IsList(s, g.list)
    requires s.refs[s.pc[t].h] == FLAG + 1
    ensures StateMatches(s, g, RunMove(s, g, t), Continue(s, t))
  {
  }

  lemma GetDropOtherMatches(s: State, g: Aux, t: Tid)
    requires TypedAt(s, t) && s.pc[t].GetDrop? && At(s, g, t, s.pc[t].h) && IsList(s, g.list)
    requires s.refs[s.pc[t].h] != FLAG + 1
    ensures Matches(s, g, RunMove(s, g, t), Continue(s, t))
  {
    hide MoveOk, RefsOk, LocOk, PcOk, Moved, MovedAux, Continue, Holders, StateMatches;
    GetDropOtherMove(s, g, t);
    GetDropOtherState(s, g, t);
    SameList(s, g, RunMove(s, g, t));
  }

  lemma GetDropOtherState(s: State, g: Aux, t: Tid)
    requires TypedAt(s, t) && s.pc[t].GetDrop? && At(s, g, t, s.pc[t].h) && s.refs[s.pc[t].h] != FLAG + 1
    ensures StateMatches(s, g, RunMove(s, g, t), Continue(s, t))
  {
    hide RefsOk, Holders;
    ResumeFacts(Retry(s.pc[t].head));
  }

  lemma GetDropOtherMove(s: State, g: Aux, t: Tid)
    requires TypedAt(s, t) && s.pc[t].GetDrop? && At(s, g, t, s.pc[t].h) && s.refs[s.pc[t].h] != FLAG + 1
    ensures MoveOk(s, g, RunMove(s, g, t))
  {
    hide IsList;
    ResumeFacts(Retry(s.pc[t].head));
  }

  lemma GetTakeMatches(s: State, g: Aux, t: Tid)
    requires TypedAt(s, t) && s.pc[t].GetTake? && At(s, g, t, s.pc[t].h) && IsList(s, g.list)
    ensures Matches(s, g, RunMove(s, g, t), Continue(s, t))
  {
    hide MoveOk, RefsOk, LocOk, PcOk, Moved, MovedAux, Continue, Holders, StateMatches;
    GetTakeMove(s, g, t);
    GetTakeState(s, g, t);
    SameList(s, g, RunMove(s, g, t));
  }

  lemma GetTakeMove(s: State, g: Aux, t: Tid)
    requires TypedAt(s, t) && s.pc[t].GetTake? && At(s, g, t, s.pc[t].h)
    ensures MoveOk(s, g, RunMove(s, g, t))
  {
    hide IsList;
  }

  lemma GetTakeState(s: State, g: Aux, t: Tid)
    requires TypedAt(s, t) && s.pc[t].GetTake? && At(s, g, t, s.pc[t].h)
    ensures StateMatches(s, g, RunMove(s, g, t), Continue(s, t))
  {
    hide RefsOk, Holders;
  }

  lemma Pushed(s: State, g: Aux, d: Move)
    requires IsList(s, g.list) && d.m in s.next && d.m !in g.list && s.next[d.m] == s.head
    requires d.x == s.next[d.m] && d.head == Some(d.m) && d.list == [d.m] + g.list
    ensures IsList(Moved(s, d), d.list)
    ensures forall n: Node :: n in d.list <==> n == d.m || n in g.list
  {}

  /** What a thread before a CAS that will succeed knows. */
  lemma CasReady(s: State, g: Aux, t: Tid)
    requires TypedAt(s, t) && (s.pc[t].GetCas? || s.pc[t].PubCas?) && At(s, g, t, Focus(s.pc[t])) && IsList(s, g.list) && Moves(s, t)
    ensures s.pc[t].GetCas? ==> s.next[s.pc[t].h] == s.pc[t].next && g.list != [] && s.pc[t].h in g.list
    ensures s.pc[t].PubCas? ==> s.next[s.pc[t].n] == s.head && s.pc[t].n !in g.list
  {
    hide RefsOk, Holders;
  }

  lemma PubCasMatches(s: State, g: Aux, t: Tid)
    requires TypedAt(s, t) && s.pc[t].PubCas? && At(s, g, t, s.pc[t].n) && IsList(s, g.list) && Moves(s, t)
    ensures Matches(s, g, RunMove(s, g, t), Continue(s, t))
  {
    hide MoveOk, RefsOk, LocOk, PcOk, Moved, MovedAux, Continue, Holders, StateMatches;
    PubCasMove(s, g, t);
    PubCasState(s, g, t);
    CasReady(s, g, t);
    Pushed(s, g, RunMove(s, g, t));
  }

  lemma PubCasMove(s: State, g: Aux, t: Tid)
    requires TypedAt(s, t) && s.pc[t].PubCas? && At(s, g, t, s.pc[t].n) && IsList(s, g.list) && Moves(s, t)
    ensures MoveOk(s, g, RunMove(s, g, t))
  {
    ResumeFacts(s.pc[t].k);
  }

  lemma PubCasState(s: State, g: Aux, t: Tid)
    requires TypedAt(s, t) && s.pc[t].PubCas? && At(s, g, t, s.pc[t].n) && IsList(s, g.list) && Moves(s, t)
    ensures StateMatches(s, g, RunMove(s, g, t), Continue(s, t))
  {
    hide RefsOk, Holders;
    ResumeFacts(s.pc[t].k);
  }

  lemma Popped(s: State, g: Aux, d: Move)
    requires IsList(s, g.list) && s.head == Some(d.m) && d.m in s.next
    requires d.x == s.next[d.m] && d.head == d.x && g.list != [] && d.list == g.list[1..]
    ensures IsList(Moved(s, d), d.list)
    ensures forall n: Node :: n in d.list <==> n != d.m && n in g.list
  {
    var list := g.list;
    assert list == [list[0]] + d.list;
    forall i | 0 <= i < |d.list| ensures d.list[i] == list[i + 1] {}
  }

  lemma GetCasMatches(s: State, g: Aux, t: Tid)
    requires TypedAt(s, t) && s.pc[t].GetCas? && At(s, g, t, s.pc[t].h) && IsList(s, g.list) && Moves(s, t)
    ensures Matches(s, g, RunMove(s, g, t), Continue(s, t))
  {
    hide MoveOk, RefsOk, LocOk, PcOk, Moved, MovedAux, Continue, Holders, StateMatches;
    CasReady(s, g, t);
    Popped(s, g, RunMove(s, g, t));
    GetCasMove(s, g, t);
    GetCasState(s, g, t);
  }

  lemma GetCasState(s: State, g: Aux, t: Tid)
    requires TypedAt(s, t) && s.pc[t].GetCas? && At(s, g, t, s.pc[t].h) && Moves(s, t) && s.pc[t].h in g.list
    ensures StateMatches(s, g, RunMove(s, g, t), Continue(s, t))
  {
    hide RefsOk, Holders;
  }

  lemma GetCasMove(s: State, g: Aux, t: Tid)
    requires TypedAt(s, t) && s.pc[t].GetCas? && At(s, g, t, s.pc[t].h) && Moves(s, t) && g.list != []
    requires forall n: Node :: n in g.list[1..] <==> n != s.pc[t].h && n in g.list
    requires s.pc[t].h in g.list
    ensures MoveOk(s, g, RunMove(s, g, t))
  {
    hide IsList;
  }

  lemma RunMatches(s: State, g: Aux, t: Tid)
    requires TypedAt(s, t) && Moves(s, t) && At(s, g, t, Focus(s.pc[t])) && IsList(s, g.list)
    ensures Matches(s, g, RunMove(s, g, t), Continue(s, t))
  {
    match s.pc[t]
    case PubNext(_, _, _) => PubNextMatches(s, g, t);
    case PubRefs(_, _, _) => PubRefsMatches(s, g, t);
    case PubCas(_, _, _) => PubCasMatches(s, g, t);
    case PubBack(n, _, _) => if s.refs[n] == 1 { PubBackLastMatches(s, g, t); } else { PubBackFlagMatches(s, g, t); }
    case GetPin(_, _) => GetPinMatches(s, g, t);
    case GetCas(_, _) => GetCasMatches(s, g, t);
    case GetDrop(h, _) => if s.refs[h] == FLAG + 1 { GetDropLastMatches(s, g, t); } else { GetDropOtherMatches(s, g, t); }
    case GetTake(_) => GetTakeMatches(s, g, t);
  }

  /** The other steps only look. */
  lemma LookingSteps(s: State, g: Aux, t: Tid)
    requires TypedAt(s, t) && !s.pc[t].Idle? && !Moves(s, t) && g.loc.Keys == s.refs.Keys
    requires PtrMentions(s.head) <= s.refs.Keys
    requires !s.pc[t].GetLoad? ==> At(s, g, t, Focus(s.pc[t]))
    ensures var s' := Continue(s, t);
            s' == Goto(s, t, s'.pc[t]) && KeepsDuties(s, t, s'.pc[t]) && Mentions(s'.pc[t]) <= s.refs.Keys && PcOk(s', g, t)
  {
    hide RefsOk, LocOk, Holders, KeepsDuties, IsList;
    LookingGoto(s, g, t);
    LookingDuties(s, t);
  }

  lemma LookingGoto(s: State, g: Aux, t: Tid)
    requires TypedAt(s, t) && !s.pc[t].Idle? && !Moves(s, t) && PtrMentions(s.head) <= s.refs.Keys
    requires !s.pc[t].GetLoad? ==> At(s, g, t, Focus(s.pc[t]))
    ensures var s' := Continue(s, t); t in s'.pc && s' == Goto(s, t, s'.pc[t]) && Mentions(s'.pc[t]) <= s.refs.Keys
  {
    hide RefsOk, LocOk, Holders, IsList, PcOk;
    ResumeFacts(Retry(s.head));
  }

  lemma LookingDuties(s: State, t: Tid)
    requires TypedAt(s, t) && !s.pc[t].Idle? && !Moves(s, t)
    ensures t in Continue(s, t).pc && KeepsDuties(s, t, Continue(s, t).pc[t])
  {
    ResumeFacts(Retry(s.head));
  }

  lemma CreateInv(s: State, g: Aux, n: Node)
    requires Inv(s, g) && n !in s.refs
    ensures Inv(Created(s, n), g.(loc := g.loc[n := Out]))
  {
    hide Typed, IsList, AllRefs, AllPc, LocOk;
    TypedKeys(s);
    CreateTyped(s, n);
    CreateList(s, g.list, n);
    CreateRefs(s, g, n);
    CreateLoc(s, g, n);
    CreatedLoc(s, n, g.(loc := g.loc[n := Out]));
    CreatePc(s, g, n);
  }

  lemma CreatedLoc(s: State, n: Node, g: Aux)
    requires AllLoc(s.(out := s.out + {n}), g)
    ensures AllLoc(Created(s, n), g)
  {
    forall m | m in g.loc ensures LocOk(Created(s, n), g, m) { assert LocOk(s.(out := s.out + {n}), g, m); }
  }

  function Created(s: State, n: Node): State {
    s.(refs := s.refs[n := 0], next := s.next[n := None], out := s.out + {n})
  }

  lemma TypedKeys(s: State)
    requires Typed(s)
    ensures s.next.Keys == s.refs.Keys
  {}

  lemma CreateTyped(s: State, n: Node)
    requires Typed(s) && n !in s.refs
    ensures Typed(Created(s, n)) && Created(s, n).pc == s.pc
  {}

  lemma CreateList(s: State, list: seq<Node>, n: Node)
    requires IsList(s, list) && n !in s.next
    ensures IsList(Created(s, n), list)
  {}

  lemma CreatePc(s: State, g: Aux, n: Node)
    requires Typed(s) && g.loc.Keys == s.refs.Keys && AllPc(s, g) && n !in s.refs && Typed(Created(s, n))
    ensures AllPc(Created(s, n), g.(loc := g.loc[n := Out]))
  {
    forall u | u in s.pc ensures PcOk(Created(s, n), g.(loc := g.loc[n := Out]), u) { assert PcOk(s, g, u); }
  }

  lemma NoHolders(s: State, n: Node)
    requires Typed(s) && n !in s.refs
    ensures Holders(s.pc, n) == {}
  {
    forall t | t in s.pc ensures !Holds(s.pc[t], n) { assert Mentions(s.pc[t]) <= s.refs.Keys; }
  }

  lemma CreateRefs(s: State, g: Aux, n: Node)
    requires Typed(s) && g.loc.Keys == s.refs.Keys && AllRefs(s, g) && n !in s.refs
    ensures AllRefs(Created(s, n), g.(loc := g.loc[n := Out]))
  {
    NoHolders(s, n);
    forall m | m in Created(s, n).refs ensures RefsOk(Created(s, n), g.(loc := g.loc[n := Out]), m) {
      if m != n { assert RefsOk(s, g, m); }
    }
  }

  lemma CreateLoc(s: State, g: Aux, n: Node)
    requires Typed(s) && g.loc.Keys == s.refs.Keys && AllLoc(s, g) && n !in s.refs && IsList(s, g.list)
    ensures AllLoc(s.(out := s.out + {n}), g.(loc := g.loc[n := Out]))
  {
    forall m | m in g.loc ensures LocOk(s.(out := s.out + {n}), g.(loc := g.loc[n := Out]), m) {
      assert LocOk(s, g, m);
    }
  }

  /** What one step can do to the linked nodes: nothing, link the node that t offers, unlink the first one. */
  ghost predicate ListStep(s: State, s': State, t: Tid, list: seq<Node>, list': seq<Node>)
    requires t in s.pc && t in s'.pc
  {
    || list' == list
    || (s.pc[t].PubCas? && list' == [s.pc[t].n] + list)
    || (list != [] && list' == list[1..] && s'.pc[t] == GetTake(list[0]))
  }

  lemma NextInv(s: State, g: Aux, t: Tid, a: Action) returns (g': Aux)
    requires Inv(s, g) && Enabled(s, t, a)
    ensures TypedAt(s, t)
    ensures Inv(Next(s, t, a), g') && t in Next(s, t, a).pc && ListStep(s, Next(s, t, a), t, g.list, g'.list)
  {
    match a
    case Create(n) =>
      CreateInv(s, g, n);
      g' := g.(loc := g.loc[n := Out]);
    case Add(n) =>
      InvAt(s, g, t, n);
      if s.refs[n] == 0 { AddFirstMatches(s, g, t, n); } else { AddFlagMatches(s, g, t, n); }
      MatchInv(s, g, AddMove(s, g, t, n), Next(s, t, a));
      g' := MovedAux(g, AddMove(s, g, t, n));
    case Get =>
      GotoInv(s, g, t, GetLoad);
      g' := g;
    case Run => g' := RunInv(s, g, t);
  }

  lemma RunInv(s: State, g: Aux, t: Tid) returns (g': Aux)
    requires Inv(s, g) && t in s.pc && !s.pc[t].Idle?
    ensures TypedAt(s, t) && Inv(Continue(s, t), g') && t in Continue(s, t).pc && ListStep(s, Continue(s, t), t, g.list, g'.list)
  {
    InvTyped(s, g, t);
    if !s.pc[t].GetLoad? { InvAt(s, g, t, Focus(s.pc[t])); }
    if Moves(s, t) {
      RunMatches(s, g, t);
      MatchInv(s, g, RunMove(s, g, t), Continue(s, t));
      g' := MovedAux(g, RunMove(s, g, t));
      RunList(s, g, t);
    } else {
      LookingSteps(s, g, t);
      GotoInv(s, g, t, Continue(s, t).pc[t]);
      g' := g;
    }
  }

  lemma FocusMentioned(p: Pc)
    requires !p.Idle? && !p.GetLoad?
    ensures Focus(p) in Mentions(p)
  {}

  lemma InvTyped(s: State, g: Aux, t: Tid)
    requires Inv(s, g) && t in s.pc
    ensures TypedAt(s, t) && PtrMentions(s.head) <= s.refs.Keys && IsList(s, g.list) && PcOk(s, g, t)
    ensures !s.pc[t].Idle? && !s.pc[t].GetLoad? ==> Focus(s.pc[t]) in s.refs
  {
    assert Mentions(s.pc[t]) <= s.refs.Keys;
    if !s.pc[t].Idle? && !s.pc[t].GetLoad? { FocusMentioned(s.pc[t]); }
  }

  lemma RunList(s: State, g: Aux, t: Tid)
    requires TypedAt(s, t) && Moves(s, t) && At(s, g, t, Focus(s.pc[t])) && IsList(s, g.list)
    ensures t in Continue(s, t).pc && ListStep(s, Continue(s, t), t, g.list, RunMove(s, g, t).list)
  {}

  // ---------------------------------------------------------------- what every run keeps

  ghost predicate IsStep(s: State, s': State) {
    exists t, a :: Enabled(s, t, a) && TypedAt(s, t) && s' == Next(s, t, a)
  }

  /** A run: any number of operations of any number of threads, interleaved in any way. */
  ghost predicate IsRun(ss: seq<State>) {
    && |ss| > 0 && Init(ss[0])
    && forall i | 0 <= i < |ss| - 1 :: IsStep(ss[i], ss[i + 1])
  }

  /** The threads that are publishing n, or have unlinked it and not returned it yet. */
  ghost function Owners(s: State, n: Node): set<Tid> {
    set t | t in s.pc && (Publishes(s.pc[t], n) || Offers(s.pc[t], n) || s.pc[t] == GetTake(n))
  }

  /** Node n is in exactly one place, and never lost. */
  ghost predicate OnePlace(s: State, list: seq<Node>, n: Node)
    requires n in s.refs
  {
    && !(n in s.out && n in list)
    && (n in s.out || n in list ==> Owners(s, n) == {})
    && (forall t, u | t in Owners(s, n) && u in Owners(s, n) :: t == u)
    && (n in s.out || n in list || Owners(s, n) != {} || (Flagged(s.refs[n]) && Holders(s.pc, n) != {}))
  }

  /** What try_get relies on in thread t. */
  ghost predicate ThreadSafe(s: State, list: seq<Node>, t: Tid)
    requires t in s.pc
  {
    && (s.pc[t].GetCas? && s.head == Some(s.pc[t].h) ==> list != [] && s.pc[t].h == list[0] && s.pc[t].next == First(list, 1))
    && (s.pc[t].GetTake? && s.pc[t].h in s.refs ==> !Flagged(s.refs[s.pc[t].h]) && Count(s.refs[s.pc[t].h]) >= 2)
  }

  /** The properties of the free list in one state, in terms of the code's own words. */
  ghost predicate Safe(s: State, list: seq<Node>) {
    && (forall t <- s.pc :: TypedAt(s, t))
    && IsList(s, list)
    && (forall n <- s.refs :: OnePlace(s, list, n))
    // the reference count counts, and does not run into the flag
    && (forall n <- s.refs :: s.refs[n] < WORD && |Holders(s.pc, n)| <= Count(s.refs[n]) <= 1 + |Holders(s.pc, n)|)
    // no ABA: a `next` read under a reference stays the node's next, so a winning CAS unlinks the first node
    // and the assertion of try_get, with room for its fetch_sub(2)
    && (forall t <- s.pc :: ThreadSafe(s, list, t))
  }

  ghost predicate SafeState(s: State) { exists list :: Safe(s, list) }

  lemma NodeSafe(s: State, g: Aux, n: Node)
    requires n in s.refs && n in g.loc && RefsOk(s, g, n) && LocOk(s, g, n) && |Holders(s.pc, n)| <= MAX_THREADS
    requires forall t <- Owners(s, n) :: g.loc[n] == Silent(t) || g.loc[n] == Pending(t) || g.loc[n] == Taken(t)
    ensures OnePlace(s, g.list, n) && s.refs[n] < WORD && |Holders(s.pc, n)| <= Count(s.refs[n]) <= 1 + |Holders(s.pc, n)|
  {
    if g.loc[n].Silent? || g.loc[n].Pending? || g.loc[n].Taken? { assert g.loc[n].who in Owners(s, n); }
  }

  lemma NodesSafe(s: State, g: Aux, n: Node)
    requires Inv(s, g) && n in s.refs
    ensures OnePlace(s, g.list, n) && s.refs[n] < WORD && |Holders(s.pc, n)| <= Count(s.refs[n]) <= 1 + |Holders(s.pc, n)|
  {
    HoldersBound(s, n);
    OwnersPlaced(s, g, n);
    NodeSafe(s, g, n);
  }

  lemma ThreadsSafe(s: State, g: Aux, t: Tid)
    requires TypedAt(s, t) && g.loc.Keys == s.refs.Keys && PcOk(s, g, t) && IsList(s, g.list)
    requires s.pc[t].GetTake? ==> At(s, g, t, s.pc[t].h)
    ensures ThreadSafe(s, g.list, t)
  {}

  lemma InvSafe(s: State, g: Aux)
    requires Inv(s, g)
    ensures Safe(s, g.list)
  {
    forall t | t in s.pc ensures TypedAt(s, t) && ThreadSafe(s, g.list, t) {
      InvTyped(s, g, t);
      if s.pc[t].GetTake? { InvAt(s, g, t, s.pc[t].h); }
      ThreadsSafe(s, g, t);
    }
    forall n | n in s.refs
      ensures OnePlace(s, g.list, n) && s.refs[n] < WORD && |Holders(s.pc, n)| <= Count(s.refs[n]) <= 1 + |Holders(s.pc, n)|
    {
      NodesSafe(s, g, n);
    }
  }

  lemma OwnersPlaced(s: State, g: Aux, n: Node)
    requires Typed(s) && g.loc.Keys == s.refs.Keys && AllPc(s, g) && n in s.refs
    ensures forall t <- Owners(s, n) :: g.loc[n] == Silent(t) || g.loc[n] == Pending(t) || g.loc[n] == Taken(t)
  {
    forall t | t in Owners(s, n) ensures g.loc[n] == Silent(t) || g.loc[n] == Pending(t) || g.loc[n] == Taken(t) {
      assert PcOk(s, g, t);
    }
  }

  lemma {:induction false} RunInvariant(ss: seq<State>, i: nat) returns (g: Aux)
    requires IsRun(ss) && i < |ss|
    ensures Inv(ss[i], g)
  {
    if i == 0 {
      g := Aux([], map[]);
    } else {
      var g0 := RunInvariant(ss, i - 1);
      assert IsStep(ss[i - 1], ss[i]);
      var t, a :| Enabled(ss[i - 1], t, a) && TypedAt(ss[i - 1], t) && ss[i] == Next(ss[i - 1], t, a);
      g := NextInv(ss[i - 1], g0, t, a);
    }
  }

  /** In every state of every run the free list is safe. */
  lemma FreeListSafe(ss: seq<State>)
    requires IsRun(ss)
    ensures forall i | 0 <= i < |ss| :: SafeState(ss[i])
  {
    forall i | 0 <= i < |ss| ensures SafeState(ss[i]) {
      var g := RunInvariant(ss, i);
      InvSafe(ss[i], g);
    }
  }

  /** With no operation running, every node is either with a client or linked, and its word says which. */
  lemma QuiescentConservation(ss: seq<State>, i: nat) returns (list: seq<Node>)
    requires IsRun(ss) && i < |ss| && forall t <- ss[i].pc :: ss[i].pc[t].Idle?
    ensures IsList(ss[i], list)
    ensures ss[i].refs.Keys == ss[i].out + (set n | n in list) && ss[i].out !! (set n | n in list)
    ensures forall n <- ss[i].refs :: ss[i].refs[n] == if n in list then 1 else 0
  {
    var g := RunInvariant(ss, i);
    list := g.list;
    Quiet(ss[i], g);
  }

  lemma Quiet(s: State, g: Aux)
    requires Inv(s, g) && forall t <- s.pc :: s.pc[t].Idle?
    ensures IsList(s, g.list)
    ensures s.refs.Keys == s.out + (set n | n in g.list) && s.out !! (set n | n in g.list)
    ensures forall n <- s.refs :: s.refs[n] == if n in g.list then 1 else 0
  {
    forall n | n in s.refs ensures s.refs[n] == (if n in g.list then 1 else 0) && (n in s.out <==> n !in g.list) {
      QuietNode(s, g, n);
    }
    forall n | n in g.list ensures n in s.refs { assert n in s.next; }
  }

  lemma QuietNode(s: State, g: Aux, n: Node)
    requires n in s.refs && n in g.loc && RefsOk(s, g, n) && LocOk(s, g, n) && forall t <- s.pc :: s.pc[t].Idle?
    ensures s.refs[n] == (if n in g.list then 1 else 0) && (n in s.out <==> n !in g.list)
  {
    assert Holders(s.pc, n) == {};
  }

  /** The state after thread t has gone on alone for k steps, or has finished before. */
  ghost function Alone(s: State, t: Tid, k: nat): State
    decreases k
  {
    if k > 0 && TypedAt(s, t) && !s.pc[t].Idle? then Alone(Continue(s, t), t, k - 1) else s
  }

  lemma TakeStep(s: State, t: Tid, h: Node)
    requires t in s.pc && s.pc[t].Idle? && s.next.Keys == s.refs.Keys && h in s.refs
    ensures Continue(Goto(s.(refs := s.refs[h := 2]), t, GetTake(h)), t) == s.(refs := s.refs[h := 0], out := s.out + {h})
  {
    assert s.refs[h := 2][h := 0] == s.refs[h := 0];
    assert s.pc[t := GetTake(h)][t := Idle] == s.pc;
  }

  lemma PinAlone(s: State, t: Tid, h: Node, k: nat)
    requires t in s.pc && s.next.Keys == s.refs.Keys && h in s.refs && s.refs[h] == 1
    ensures Alone(Goto(s, t, GetRefs(h)), t, k + 2) == Alone(Goto(s.(refs := s.refs[h := 2]), t, GetNext(h)), t, k)
  {
    assert Continue(Goto(s, t, GetRefs(h)), t) == Goto(s, t, GetPin(h, 1));
    assert Continue(Goto(s, t, GetPin(h, 1)), t) == Goto(s.(refs := s.refs[h := 2]), t, GetNext(h));
  }

  lemma CasAlone(c: State, t: Tid, h: Node, k: nat)
    requires t in c.pc && c.next.Keys == c.refs.Keys && h in c.refs
    requires c.head == Some(h) && PtrMentions(c.next[h]) <= c.refs.Keys
    ensures Alone(Goto(c, t, GetNext(h)), t, k + 2) == Alone(Goto(c.(head := c.next[h]), t, GetTake(h)), t, k)
  {
    assert Continue(Goto(c, t, GetNext(h)), t) == Goto(c, t, GetCas(h, c.next[h]));
    assert Continue(Goto(c, t, GetCas(h, c.next[h])), t) == Goto(c.(head := c.next[h]), t, GetTake(h));
  }

  lemma LastAlone(s: State, t: Tid, h: Node, k: nat)
    requires t in s.pc && s.pc[t].Idle? && s.next.Keys == s.refs.Keys && h in s.refs
    ensures Alone(Goto(s.(refs := s.refs[h := 2]), t, GetTake(h)), t, k + 1) == s.(refs := s.refs[h := 0], out := s.out + {h})
  {
    TakeStep(s, t, h);
  }

  /** Five steps of thread t alone take the first node h of the list, whose word is 1. */
  lemma TakeAlone(s: State, t: Tid, h: Node, k: nat)
    requires t in s.pc && s.pc[t].Idle? && s.next.Keys == s.refs.Keys && h in s.refs && s.refs[h] == 1
    requires s.head == Some(h) && PtrMentions(s.next[h]) <= s.refs.Keys
    ensures Alone(Goto(s, t, GetRefs(h)), t, k + 5) == s.(refs := s.refs[h := 0], out := s.out + {h}, head := s.next[h])
  {
    PinAlone(s, t, h, k + 3);
    CasAlone(s.(refs := s.refs[h := 2]), t, h, k + 1);
    LastAlone(s.(head := s.next[h]), t, h, k);
  }

  /** Alone on a quiet list try_get takes the first node; on an empty list it returns nothing. */
  lemma TryGetAlone(s: State, g: Aux, t: Tid, k: nat)
    requires Inv(s, g) && t in s.pc && forall u <- s.pc :: s.pc[u].Idle?
    ensures g.list == [] ==> Alone(Goto(s, t, GetLoad), t, k + 1) == s
    ensures g.list != [] ==>
              && Alone(Goto(s, t, GetLoad), t, k + 6) == s.(refs := s.refs[g.list[0] := 0], out := s.out + {g.list[0]}, head := s.next[g.list[0]])
              && IsList(s.(head := s.next[g.list[0]]), g.list[1..])
  {
    if g.list == [] {
      EmptyAlone(s, t, k);
    } else {
      var h := g.list[0];
      InvAt(s, g, t, h);
      QuietNode(s, g, h);
      LoadAlone(s, t, h, k + 5);
      TakeAlone(s, t, h, k);
      Tail(s, g.list);
    }
  }

  lemma EmptyAlone(s: State, t: Tid, k: nat)
    requires t in s.pc && s.pc[t].Idle? && s.next.Keys == s.refs.Keys && s.head == None
    ensures Alone(Goto(s, t, GetLoad), t, k + 1) == s
  {
    assert Continue(Goto(s, t, GetLoad), t).pc == s.pc;
  }

  lemma LoadAlone(s: State, t: Tid, h: Node, k: nat)
    requires t in s.pc && s.next.Keys == s.refs.Keys && s.head == Some(h)
    ensures Alone(Goto(s, t, GetLoad), t, k + 1) == Alone(Goto(s, t, GetRefs(h)), t, k)
  {
    assert Continue(Goto(s, t, GetLoad), t) == Goto(s, t, GetRefs(h));
  }

  lemma Tail(s: State, list: seq<Node>)
    requires IsList(s, list) && list != []
    ensures IsList(s.(head := s.next[list[0]]), list[1..])
  {
    var tail := list[1..];
    forall i | 0 <= i < |tail| ensures tail[i] == list[i + 1] {}
  }
}
