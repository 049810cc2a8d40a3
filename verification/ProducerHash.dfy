/**
  The thread-id hash of concurrentqueue.h, which gives each thread its own implicit producer:
  get_or_add_implicit_producer, one atomic operation per step, for any number of threads, with
  tables replaced by larger ones at any time and allocations that may fail.

  Tables are never freed: a chain of `prev` pointers is a sequence, the current table last.
  Recycling of producers is absent: no implicit producer is ever marked inactive without the
  thread-local support that the header disables.
*/
module ProducerHash {
  import opened Options
  import opened Words

  type Tid = nat
  type ProdId = nat

  /** A table of 2^c slots.  Auxiliary: how far from its hash each thread id sits. */
  datatype Table = Table(c: nat, keys: seq<Option<Tid>>, values: seq<Option<ProdId>>, at: map<Tid, nat>) {
    function Cap(): nat { Pow2(c) }

    /** The slot d steps after the one that hash h selects. */
    function Slot(h: nat, d: nat): nat { (h + d) % Cap() }

    /** (capacity >> 1) + (capacity >> 2) */
    function Limit(): nat { Cap() / 2 + Cap() / 4 }
  }

  /** What a thread does next; `main` and `h` are tables, `index` a slot, `j` (auxiliary) how many slots were probed. */
  datatype Pc =
    | Done(result: Option<ProdId>)
    | LoadMain
    | Probe(main: nat, h: nat, index: nat, j: nat)
    | Reserve(main: nat)                                  // implicitProducerHashCount.fetch_add
    | Decide(main: nat, n: nat)
    | TryLock(main: nat, n: nat)                          // implicitProducerHashResizeInProgress.test_and_set
    | Reload(n: nat)
    | Resize(main: nat, n: nat)                           // allocate and publish a larger table
    | Unlock(main: nat, n: nat)
    | Room(main: nat, n: nat)
    | Wait(n: nat)
    | Create(main: nat, n: nat)                           // recycle_or_create_producer
    | Add(main: nat, p: ProdId, index: nat, j: nat)       // load a key of the main table
    | AddCas(main: nat, p: ProdId, index: nat, j: nat)
    | AddStore(main: nat, p: ProdId, index: nat, j: nat)
    | GiveUp(locked: bool)                                // no memory: implicitProducerHashCount.fetch_sub
    | ClearLock

  /**
    The tables, the counter, the resize lock and the producers by their creator; auxiliary: the threads
    holding a reservation in the order they made it, with the count each one saw, the producer and the
    first table of each thread, and who holds the lock.
   */
  datatype State = State(
    hash: seq<nat>, tables: seq<Table>, count: nat, lock: bool, producers: seq<Tid>, pcs: seq<Pc>,
    reserved: seq<Tid>, ticket: map<Tid, nat>, prodOf: map<Tid, ProdId>, home: map<Tid, nat>, holder: Option<Tid>)

  function Goto(s: State, t: Tid, p: Pc): State
    requires t < |s.pcs|
  {
    s.(pcs := s.pcs[t := p])
  }

  /** index & (capacity - 1) */
  function Masked(tb: Table, index: nat): nat { And(index, tb.Cap() - 1) }

  /** while (newCount >= (newCapacity >> 1)) newCapacity <<= 1; */
  function Doubled(c: nat, n: nat): (r: nat)
    ensures r >= c && n < Pow2(r) / 2 && (r > c ==> n >= Pow2(r - 1) / 2)
    decreases n + 1 - Pow2(c) / 2
  {
    if n < Pow2(c) / 2 then c else PowHalf(c); Doubled(c + 1, n)
  }

  lemma PowHalf(c: nat)
    ensures Pow2(c + 1) / 2 == Pow2(c) > Pow2(c) / 2
  {}

  function Empty(c: nat): Table { Table(c, seq(Pow2(c), _ => None), seq(Pow2(c), _ => None), map[]) }

  datatype Action = Call(t: Tid) | Run(t: Tid, memory: bool)

  /** Nothing the step dereferences is missing.  (Every reachable state has this.) */
  predicate Ready(s: State, t: Tid) {
    && t < |s.pcs| && t < |s.hash| && s.tables != []
    && match s.pcs[t]
       case Done(_) => false
       case Probe(main, h, index, _) =>
         && main < |s.tables| && h <= main && index < |s.tables[h].keys|
         && (s.tables[h].keys[index] == Some(t) ==> index < |s.tables[h].values| && s.tables[h].values[index].Some?)
       case Decide(main, _) => main < |s.tables|
       case Resize(main, _) => main < |s.tables|
       case Room(main, _) => main < |s.tables|
       case Create(main, _) => main < |s.tables|
       case Add(main, _, index, _) => main < |s.tables| && index < |s.tables[main].keys|
       case AddCas(main, _, index, _) => main < |s.tables| && index < |s.tables[main].keys|
       case AddStore(main, _, index, _) => main < |s.tables| && index < |s.tables[main].values|
       case GiveUp(_) => s.count > 0
       case _ => true
  }

  predicate Enabled(s: State, a: Action) {
    match a
    case Call(t) => t < |s.pcs| && s.pcs[t].Done?
    case Run(t, _) => Ready(s, t)
  }

  function SetTable(s: State, i: nat, tb: Table): State
    requires i < |s.tables|
  {
    s.(tables := s.tables[i := tb])
  }

  function IndexOf(r: seq<Tid>, t: Tid): (k: nat)
    requires t in r
    ensures k < |r| && r[k] == t
  {
    if r[0] == t then 0 else 1 + IndexOf(r[1..], t)
  }

  function Without(r: seq<Tid>, t: Tid): seq<Tid> {
    if t in r then r[..IndexOf(r, t)] + r[IndexOf(r, t) + 1..] else r
  }

  function Next(s: State, a: Action): State
    requires Enabled(s, a)
  {
    match a
    case Call(t) => Goto(s, t, LoadMain)
    case Run(t, memory) => RunNext(s, t, memory)
  }

  /** It has found its own key, an empty slot, or that of another thread. */
  function Probing(s: State, t: Tid): Pc
    requires Ready(s, t) && s.pcs[t].Probe?
  {
    var Probe(main, h, index, j) := s.pcs[t];
    var tb := s.tables[h];
    if tb.keys[index] == Some(t) then
      var value := tb.values[index].value;
      if h == main then Done(Some(value)) else Add(main, value, Masked(s.tables[main], s.hash[t]), 0)
    else if tb.keys[index] == None then
      if h > 0 then Probe(main, h - 1, Masked(s.tables[h - 1], s.hash[t]), 0) else Reserve(main)
    else Probe(main, h, Masked(tb, index + 1), j + 1)
  }

  function RunNext(s: State, t: Tid, memory: bool): (s': State)
    requires Ready(s, t)
    ensures |s'.pcs| == |s.pcs|
  {
    var cur := |s.tables| - 1;
    match s.pcs[t]
    case LoadMain => Goto(s, t, Probe(cur, cur, Masked(s.tables[cur], s.hash[t]), 0))
    case Probe(_, _, _, _) => Goto(s, t, Probing(s, t))
    case Reserve(main) =>
      Goto(s.(count := s.count + 1, reserved := s.reserved + [t], ticket := s.ticket[t := s.count + 1]), t, Decide(main, s.count + 1))
    case Decide(main, n) =>
      Goto(s, t, if n >= s.tables[main].Cap() / 2 then TryLock(main, n) else Room(main, n))
    case TryLock(main, n) =>
      if s.lock then Goto(s, t, Room(main, n)) else Goto(s.(lock := true, holder := Some(t)), t, Reload(n))
    case Reload(n) =>
      Goto(s, t, if n >= s.tables[cur].Cap() / 2 then Resize(cur, n) else Unlock(cur, n))
    case Resize(main, n) =>
      if memory
      then Goto(s.(tables := s.tables + [Empty(Doubled(s.tables[main].c + 1, n))]), t, Unlock(|s.tables|, n))
      else Goto(s, t, GiveUp(true))
    case Unlock(main, n) => Goto(s.(lock := false, holder := None), t, Room(main, n))
    case Room(main, n) =>
      Goto(s, t, if n < s.tables[main].Limit() then Create(main, n) else Wait(n))
    case Wait(n) => Goto(s, t, Decide(cur, n))
    case Create(main, n) =>
      if memory
      then Goto(s.(producers := s.producers + [t], prodOf := s.prodOf[t := |s.producers|]),
                t, Add(main, |s.producers|, Masked(s.tables[main], s.hash[t]), 0))
      else Goto(s, t, GiveUp(false))
    case Add(main, p, index, j) =>
      Goto(s, t, if s.tables[main].keys[index] == None then AddCas(main, p, index, j) else Add(main, p, Masked(s.tables[main], index + 1), j + 1))
    case AddCas(main, p, index, j) =>
      var tb := s.tables[main];
      if tb.keys[index] == None
      then Goto(SetTable(s, main, tb.(keys := tb.keys[index := Some(t)], at := tb.at[t := j])).(home := if t in s.home then s.home else s.home[t := main]),
                t, AddStore(main, p, index, j))
      else Goto(s, t, Add(main, p, Masked(tb, index + 1), j + 1))
    case AddStore(main, p, index, j) =>
      var tb := s.tables[main];
      Goto(SetTable(s, main, tb.(values := tb.values[index := Some(p)])), t, Done(Some(p)))
    case GiveUp(locked) =>
      Goto(s.(count := s.count - 1, reserved := Without(s.reserved, t), ticket := s.ticket - {t}), t, if locked then ClearLock else Done(None))
    case ClearLock => Goto(s.(lock := false, holder := None), t, Done(None))
  }

  ghost predicate Init(s: State, c: nat) {
    && s.tables == [Empty(c)] && s.count == 0 && !s.lock && s.producers == []
    && |s.hash| == |s.pcs| && (forall t | 0 <= t < |s.pcs| :: s.pcs[t] == Done(None))
    && s.reserved == [] && s.ticket == map[] && s.prodOf == map[] && s.home == map[] && s.holder == None
  }

  // ---------------------------------------------------------------- the invariant: tables

  predicate Filled(tb: Table, h: nat, d: nat)
    requires |tb.keys| == tb.Cap()
  {
    SlotIn(tb, h, d);
    tb.keys[tb.Slot(h, d)].Some?
  }

  lemma SlotIn(tb: Table, h: nat, d: nat)
    ensures 0 <= tb.Slot(h, d) < tb.Cap()
  {}

  /** Every id is in one slot, reached from its hash over filled slots only. */
  ghost predicate TableOk(hash: seq<nat>, tb: Table) {
    && |tb.keys| == |tb.values| == tb.Cap()
    && (forall t <- tb.at :: t < |hash| && tb.at[t] < tb.Cap() && tb.Slot(hash[t], tb.at[t]) < |tb.keys| && tb.keys[tb.Slot(hash[t], tb.at[t])] == Some(t))
    && (forall t <- tb.at, d: nat :: d < tb.at[t] ==> Filled(tb, hash[t], d))
    && (forall i | 0 <= i < |tb.keys| && tb.keys[i].Some? :: tb.keys[i].value in tb.at && tb.Slot(hash[tb.keys[i].value], tb.at[tb.keys[i].value]) == i)
  }

  ghost predicate TablesOk(hash: seq<nat>, tables: seq<Table>) {
    && tables != []
    && (forall i | 0 <= i < |tables| :: TableOk(hash, tables[i]))
    && (forall i, j | 0 <= i < j < |tables| :: tables[i].c < tables[j].c)
  }

  // ---- reservations

  /** The k-th reservation that is still held was made with at least k + 1 counted. */
  ghost predicate TicketsOk(count: nat, reserved: seq<Tid>, ticket: map<Tid, nat>) {
    && |reserved| == count
    && (forall i, j | 0 <= i < j < |reserved| :: reserved[i] != reserved[j])
    && (forall i | 0 <= i < |reserved| :: reserved[i] in ticket && ticket[reserved[i]] >= i + 1)
    && (forall t <- ticket :: t in reserved)
  }

  /** Only ids with a count below three quarters of the capacity are in a table. */
  ghost predicate Admitted(tables: seq<Table>, ticket: map<Tid, nat>) {
    forall i, t | 0 <= i < |tables| && t in tables[i].at :: t in ticket && ticket[t] < tables[i].Limit()
  }

  // ---- producers

  ghost predicate ProducersOk(producers: seq<Tid>, prodOf: map<Tid, ProdId>) {
    forall t <- prodOf :: prodOf[t] < |producers| && producers[prodOf[t]] == t
  }

  // ---- threads

  predicate Holds(p: Pc) { p.Reload? || p.Resize? || p.Unlock? || p.ClearLock? || (p.GiveUp? && p.locked) }

  ghost predicate LockOk(lock: bool, holder: Option<Tid>, pcs: seq<Pc>) {
    && (lock <==> holder.Some?) && (holder.Some? ==> holder.value < |pcs|)
    && (forall t | 0 <= t < |pcs| :: Holds(pcs[t]) <==> holder == Some(t))
  }

  /** What thread t knows about itself: its reservation, its producer, its first table. */
  datatype Self = Self(ticket: Option<nat>, prod: Option<ProdId>, home: Option<nat>)

  function Get(m: map<Tid, nat>, t: Tid): Option<nat> { if t in m then Some(m[t]) else None }

  function SelfOf(s: State, t: Tid): Self { Self(Get(s.ticket, t), Get(s.prodOf, t), Get(s.home, t)) }

  ghost predicate Nowhere(tables: seq<Table>, t: Tid) { forall i | 0 <= i < |tables| :: t !in tables[i].at }

  /** The thread has an entry with its producer, or neither a reservation nor a producer nor an entry. */
  ghost predicate Settled(tables: seq<Table>, me: Self, t: Tid) {
    if me.home == None then me.ticket == None && me.prod == None && Nowhere(tables, t)
    else me.ticket.Some? && me.prod.Some? && me.home.value < |tables| && t in tables[me.home.value].at
  }

  /** Every entry of the thread has its producer. */
  ghost predicate Stored(hash: seq<nat>, tb: Table, me: Self, t: Tid) {
    t in tb.at ==> t < |hash| && me.prod.Some? && tb.Slot(hash[t], tb.at[t]) < |tb.values| && tb.values[tb.Slot(hash[t], tb.at[t])] == me.prod
  }

  ghost predicate AllStored(hash: seq<nat>, tables: seq<Table>, me: Self, t: Tid) {
    forall i | 0 <= i < |tables| :: Stored(hash, tables[i], me, t)
  }

  /** The j slots probed in a table are filled, and not with t. */
  ghost predicate Probed(hash: seq<nat>, tb: Table, t: Tid, index: nat, j: nat) {
    && t < |hash| && |tb.keys| == tb.Cap() && index == tb.Slot(hash[t], j)
    && (forall d: nat | d < j :: Filled(tb, hash[t], d))
    && (t in tb.at ==> tb.at[t] >= j)
  }

  ghost predicate ThreadOk(hash: seq<nat>, tables: seq<Table>, me: Self, t: Tid, p: Pc) {
    && t < |hash|
    && (if p.AddStore? then forall i | 0 <= i < |tables| && i != p.main :: Stored(hash, tables[i], me, t) else AllStored(hash, tables, me, t))
    && match p
       case Done(result) => Settled(tables, me, t) && (result.Some? ==> result == me.prod)
       case LoadMain => Settled(tables, me, t)
       case Probe(main, h, index, j) =>
         && Settled(tables, me, t) && h <= main < |tables| && Probed(hash, tables[h], t, index, j)
         && (forall i | h < i < |tables| :: t !in tables[i].at)
       case Reserve(main) => main < |tables| && Settled(tables, me, t) && me.home == None
       case Decide(main, n) => main < |tables| && Waiting(tables, me, t, n)
       case TryLock(main, n) => main < |tables| && Waiting(tables, me, t, n)
       case Reload(n) => Waiting(tables, me, t, n)
       case Resize(main, n) => main == |tables| - 1 && Waiting(tables, me, t, n)
       case Unlock(main, n) => main < |tables| && Waiting(tables, me, t, n)
       case Room(main, n) => main < |tables| && Waiting(tables, me, t, n)
       case Wait(n) => Waiting(tables, me, t, n)
       case Create(main, n) => main < |tables| && Waiting(tables, me, t, n) && n < tables[main].Limit()
       case Add(main, q, index, j) => Adding(hash, tables, me, t, main, q, index, j)
       case AddCas(main, q, index, j) => Adding(hash, tables, me, t, main, q, index, j)
       case AddStore(main, q, index, j) =>
         && Settled(tables, me, t) && main < |tables| && me.prod == Some(q)
         && t in tables[main].at && tables[main].at[t] == j && index == tables[main].Slot(hash[t], j)
       case GiveUp(_) => me.ticket.Some? && me.prod == None && me.home == None && Nowhere(tables, t)
       case ClearLock => Settled(tables, me, t)
  }

  /** The thread holds a reservation with count n, and has nothing else yet. */
  ghost predicate Waiting(tables: seq<Table>, me: Self, t: Tid, n: nat) {
    me.ticket == Some(n) && me.prod == None && me.home == None && Nowhere(tables, t)
  }

  /** The thread is about to enter the main table, for the first time. */
  ghost predicate Adding(hash: seq<nat>, tables: seq<Table>, me: Self, t: Tid, main: nat, q: ProdId, index: nat, j: nat) {
    && main < |tables| && me.prod == Some(q) && me.ticket.Some? && me.ticket.value < tables[main].Limit()
    && t !in tables[main].at && Probed(hash, tables[main], t, index, j)
    && (if me.home == None then Nowhere(tables, t) else me.home.value < |tables| && t in tables[me.home.value].at)
  }

  ghost predicate ThreadsOk(s: State) {
    && |s.hash| == |s.pcs|
    && forall t | 0 <= t < |s.pcs| :: ThreadOk(s.hash, s.tables, SelfOf(s, t), t, s.pcs[t])
  }

  /** Only threads of the program have a producer, and only those with a reservation. */
  ghost predicate Inv(s: State) {
    && TablesOk(s.hash, s.tables)
    && TicketsOk(s.count, s.reserved, s.ticket)
    && Admitted(s.tables, s.ticket)
    && ProducersOk(s.producers, s.prodOf)
    && LockOk(s.lock, s.holder, s.pcs)
    && ThreadsOk(s)
  }

  // ---------------------------------------------------------------- probing

  lemma FirstSlot(tb: Table, h: nat)
    ensures Masked(tb, h) == tb.Slot(h, 0)
  {
    AndMask(h, tb.c);
  }

  lemma NextSlot(tb: Table, h: nat, d: nat)
    ensures Masked(tb, tb.Slot(h, d) + 1) == tb.Slot(h, d + 1)
  {
    hide And, Pow2;
    AndMask(tb.Slot(h, d) + 1, tb.c);
    ModAdd(1, h + d, tb.Cap());
  }

  lemma ProbeFirst(hash: seq<nat>, tb: Table, t: Tid)
    requires TableOk(hash, tb) && t < |hash|
    ensures Probed(hash, tb, t, Masked(tb, hash[t]), 0) && Masked(tb, hash[t]) < |tb.keys|
  {
    FirstSlot(tb, hash[t]);
    SlotIn(tb, hash[t], 0);
  }

  /** What a probed slot tells a thread: its own entry is there, or it has none, or it is further on. */
  lemma ProbeTells(hash: seq<nat>, tb: Table, t: Tid, index: nat, j: nat)
    requires TableOk(hash, tb) && Probed(hash, tb, t, index, j)
    ensures index < |tb.keys|
    ensures tb.keys[index] == Some(t) <==> t in tb.at && tb.at[t] == j
    ensures tb.keys[index] == None ==> t !in tb.at
    ensures tb.keys[index].Some? && tb.keys[index] != Some(t) ==> Probed(hash, tb, t, Masked(tb, index + 1), j + 1)
  {
    SlotIn(tb, hash[t], j);
    NextSlot(tb, hash[t], j);
    if tb.keys[index] == Some(t) { SlotReached(hash, tb, t, index, j); }
    if t in tb.at && j < tb.at[t] { assert Filled(tb, hash[t], j); }
  }

  lemma SlotReached(hash: seq<nat>, tb: Table, t: Tid, index: nat, j: nat)
    requires TableOk(hash, tb) && Probed(hash, tb, t, index, j) && index < |tb.keys| && tb.keys[index] == Some(t)
    ensures t in tb.at && tb.at[t] == j
  {
    assert tb.Slot(hash[t], tb.at[t]) == index;
    if j < tb.at[t] { SlotsApart(tb, hash[t], j, tb.at[t]); }
  }

  lemma SlotsApart(tb: Table, h: nat, d: nat, e: nat)
    requires d < e < d + tb.Cap()
    ensures tb.Slot(h, d) != tb.Slot(h, e)
  {
    var cap, x, y := tb.Cap(), h + d, h + e;
    if x % cap == y % cap {
      DivModUnique(y - x, cap, y / cap - x / cap, 0);
      DivModUnique(y - x, cap, 0, y - x);
    }
  }

  lemma SlotWraps(tb: Table, h: nat, d: nat)
    ensures tb.Slot(h, d + tb.Cap()) == tb.Slot(h, d)
  {
    var cap, x := tb.Cap(), h + d;
    DivModUnique(x + cap, cap, x / cap + 1, x % cap);
  }

  /** A probe that reaches an empty slot has not gone round the table. */
  lemma EmptyBeforeWrap(hash: seq<nat>, tb: Table, t: Tid, index: nat, j: nat)
    requires Probed(hash, tb, t, index, j) && index < |tb.keys| && tb.keys[index] == None
    ensures j < tb.Cap()
  {
    if j >= tb.Cap() { WrapFilled(hash, tb, t, index, j); }
  }

  lemma WrapFilled(hash: seq<nat>, tb: Table, t: Tid, index: nat, j: nat)
    requires Probed(hash, tb, t, index, j) && index < |tb.keys| && j >= tb.Cap()
    ensures tb.keys[index].Some?
  {
    SlotWraps(tb, hash[t], j - tb.Cap());
    assert Filled(tb, hash[t], j - tb.Cap());
  }

  // ---------------------------------------------------------------- what the other threads survive

  /** For thread u nothing is lost when tables grow, or when others enter them. */
  ghost predicate Grows(tables: seq<Table>, tables': seq<Table>, hash: seq<nat>, u: Tid) {
    && |tables| <= |tables'|
    && (forall i | 0 <= i < |tables| :: TableGrows(tables[i], tables'[i], hash, u))
    && (forall i | |tables| <= i < |tables'| :: u !in tables'[i].at)
  }

  ghost predicate TableGrows(tb: Table, tb': Table, hash: seq<nat>, u: Tid) {
    && tb'.c == tb.c && |tb'.keys| == |tb.keys| && |tb'.values| == |tb.values|
    && (forall i | 0 <= i < |tb.keys| && tb.keys[i].Some? :: tb'.keys[i] == tb.keys[i])
    && (u in tb.at <==> u in tb'.at)
    && (u in tb.at ==> tb'.at[u] == tb.at[u])
    && (u in tb.at && u < |hash| && tb.Slot(hash[u], tb.at[u]) < |tb.values| ==> tb'.values[tb.Slot(hash[u], tb.at[u])] == tb.values[tb.Slot(hash[u], tb.at[u])])
  }

  lemma ProbedFrame(hash: seq<nat>, tb: Table, tb': Table, u: Tid, index: nat, j: nat)
    requires Probed(hash, tb, u, index, j) && TableGrows(tb, tb', hash, u)
    ensures Probed(hash, tb', u, index, j)
  {
    forall d: nat | d < j ensures Filled(tb', hash[u], d) {
      assert Filled(tb, hash[u], d);
      SlotIn(tb, hash[u], d);
    }
  }

  lemma ThreadFrame(hash: seq<nat>, tables: seq<Table>, tables': seq<Table>, me: Self, u: Tid, p: Pc)
    requires ThreadOk(hash, tables, me, u, p) && Grows(tables, tables', hash, u) && (p.Resize? ==> |tables'| == |tables|)
    ensures ThreadOk(hash, tables', me, u, p)
  {
    hide Probed, TableGrows, Stored, Settled, Nowhere, Waiting, Adding;
    StoredKept(hash, tables, tables', me, u, if p.AddStore? then p.main else -1);
    WhereFrame(hash, tables, tables', me, u);
    forall i | 0 <= i < |tables| ensures u in tables[i].at <==> u in tables'[i].at { AtFrame(tables[i], tables'[i], hash, u); }
    match p {
      case Probe(main, h, index, j) => ProbedFrame(hash, tables[h], tables'[h], u, index, j);
      case Add(main, q, index, j) => AddingFrame(hash, tables, tables', me, u, main, q, index, j);
      case AddCas(main, q, index, j) => AddingFrame(hash, tables, tables', me, u, main, q, index, j);
      case AddStore(main, _, _, _) => AtFrame(tables[main], tables'[main], hash, u);
      case Create(main, _) => AtFrame(tables[main], tables'[main], hash, u);
      case _ =>
    }
  }

  lemma StoredKept(hash: seq<nat>, tables: seq<Table>, tables': seq<Table>, me: Self, u: Tid, except: int)
    requires Grows(tables, tables', hash, u) && forall i | 0 <= i < |tables| && i != except :: Stored(hash, tables[i], me, u)
    ensures forall i | 0 <= i < |tables'| && i != except :: Stored(hash, tables'[i], me, u)
  {
    hide TableGrows;
    forall i | 0 <= i < |tables'| && i != except ensures Stored(hash, tables'[i], me, u) {
      if i < |tables| { StoredFrame(hash, tables[i], tables'[i], me, u); }
    }
  }

  lemma AddingFrame(hash: seq<nat>, tables: seq<Table>, tables': seq<Table>, me: Self, u: Tid, main: nat, q: ProdId, index: nat, j: nat)
    requires Grows(tables, tables', hash, u) && Adding(hash, tables, me, u, main, q, index, j)
    ensures Adding(hash, tables', me, u, main, q, index, j)
  {
    hide TableGrows, Probed, Nowhere;
    WhereFrame(hash, tables, tables', me, u);
    ProbedFrame(hash, tables[main], tables'[main], u, index, j);
    AtFrame(tables[main], tables'[main], hash, u);
    if me.home.Some? { AtFrame(tables[me.home.value], tables'[me.home.value], hash, u); }
  }

  /** Where a thread is does not change. */
  lemma WhereFrame(hash: seq<nat>, tables: seq<Table>, tables': seq<Table>, me: Self, u: Tid)
    requires Grows(tables, tables', hash, u)
    ensures (Settled(tables, me, u) ==> Settled(tables', me, u)) && (Nowhere(tables, u) ==> Nowhere(tables', u))
    ensures forall n: nat :: Waiting(tables, me, u, n) ==> Waiting(tables', me, u, n)
  {
    hide TableGrows;
    forall i | 0 <= i < |tables| ensures u in tables[i].at <==> u in tables'[i].at { AtFrame(tables[i], tables'[i], hash, u); }
  }

  lemma AtFrame(tb: Table, tb': Table, hash: seq<nat>, u: Tid)
    requires TableGrows(tb, tb', hash, u)
    ensures tb'.c == tb.c && (u in tb.at <==> u in tb'.at) && (u in tb.at ==> tb'.at[u] == tb.at[u])
  {}

  lemma StoredFrame(hash: seq<nat>, tb: Table, tb': Table, me: Self, u: Tid)
    requires Stored(hash, tb, me, u) && TableGrows(tb, tb', hash, u)
    ensures Stored(hash, tb', me, u)
  {}

  /** The step of thread t leaves the others as they were. */
  lemma OthersOk(s: State, s': State, t: Tid)
    requires ThreadsOk(s) && t < |s.pcs| && s'.hash == s.hash && |s'.pcs| == |s.pcs| && s'.pcs == s.pcs[t := s'.pcs[t]]
    requires forall u | 0 <= u < |s.pcs| && u != t :: SelfOf(s', u) == SelfOf(s, u) && Grows(s.tables, s'.tables, s.hash, u) && (s.pcs[u].Resize? ==> |s'.tables| == |s.tables|)
    requires ThreadOk(s.hash, s'.tables, SelfOf(s', t), t, s'.pcs[t])
    ensures ThreadsOk(s')
  {
    hide ThreadOk, Grows, SelfOf;
    forall u | 0 <= u < |s.pcs| ensures ThreadOk(s'.hash, s'.tables, SelfOf(s', u), u, s'.pcs[u]) {
      if u != t { ThreadFrame(s.hash, s.tables, s'.tables, SelfOf(s, u), u, s.pcs[u]); }
    }
  }

  lemma SameTables(tables: seq<Table>, hash: seq<nat>, u: Tid)
    ensures Grows(tables, tables, hash, u)
  {}

  // ---------------------------------------------------------------- steps that move one thread

  lemma MoveInv(s: State, t: Tid, p: Pc)
    requires Inv(s) && t < |s.pcs| && (Holds(p) <==> Holds(s.pcs[t])) && ThreadOk(s.hash, s.tables, SelfOf(s, t), t, p)
    ensures Inv(Goto(s, t, p))
  {
    hide TablesOk, TicketsOk, Admitted, ProducersOk, ThreadOk, SelfOf, Grows;
    forall u: nat ensures Grows(s.tables, s.tables, s.hash, u) { SameTables(s.tables, s.hash, u); }
    assert forall u: nat :: SelfOf(Goto(s, t, p), u) == SelfOf(s, u) by { SameSelf(s, t, p); }
    OthersOk(s, Goto(s, t, p), t);
  }

  lemma SameSelf(s: State, t: Tid, p: Pc)
    requires t < |s.pcs|
    ensures forall u: nat :: SelfOf(Goto(s, t, p), u) == SelfOf(s, u)
  {}

  /** What thread t knows and the tables: all that its own next move depends on. */
  ghost predicate View(s: State, t: Tid, me: Self) {
    && t < |s.pcs| && |s.hash| == |s.pcs| && me == SelfOf(s, t) && s.tables != [] && ThreadOk(s.hash, s.tables, me, t, s.pcs[t])
    && forall i | 0 <= i < |s.tables| :: TableOk(s.hash, s.tables[i])
  }

  lemma Mine(s: State, t: Tid) returns (me: Self)
    requires Inv(s) && t < |s.pcs|
    ensures View(s, t, me) && me == SelfOf(s, t)
  {
    me := SelfOf(s, t);
    hide ThreadOk, TableOk, SelfOf;
  }

  lemma CallInv(s: State, t: Tid)
    requires Inv(s) && t < |s.pcs| && s.pcs[t].Done?
    ensures Inv(Next(s, Call(t)))
  {
    var me := Mine(s, t);
    hide Inv, TableOk, SelfOf;
    MoveInv(s, t, LoadMain);
  }

  lemma LoadMainInv(s: State, t: Tid, m: bool)
    requires Inv(s) && t < |s.pcs| && s.pcs[t].LoadMain?
    ensures Ready(s, t) && Inv(RunNext(s, t, m))
  {
    var me := Mine(s, t);
    hide Inv, TableOk, Probed, SelfOf;
    var cur := |s.tables| - 1;
    ProbeFirst(s.hash, s.tables[cur], t);
    MoveInv(s, t, Probe(cur, cur, Masked(s.tables[cur], s.hash[t]), 0));
  }

  // ---- searching

  lemma LimitMonotone(tables: seq<Table>, hash: seq<nat>, i: nat, j: nat)
    requires TablesOk(hash, tables) && i < j < |tables|
    ensures tables[i].Limit() <= tables[j].Limit()
  {
    Pow2Less(tables[i].c, tables[j].c);
  }

  /** A thread that finds its id has its producer there, and fits into the main table. */
  lemma FoundFits(s: State, t: Tid, me: Self)
    requires TablesOk(s.hash, s.tables) && Admitted(s.tables, s.ticket) && View(s, t, me) && s.pcs[t].Probe?
    requires var Probe(main, h, index, j) := s.pcs[t]; h < |s.tables| && t in s.tables[h].at
    ensures var Probe(main, h, index, j) := s.pcs[t];
            main < |s.tables| && me.ticket.Some? && me.ticket.value < s.tables[main].Limit()
  {
    var Probe(main, h, _, _) := s.pcs[t];
    hide TableOk, Probed, Stored, Settled;
    if h < main { LimitMonotone(s.tables, s.hash, h, main); }
  }

  lemma FoundValue(s: State, t: Tid, me: Self)
    requires View(s, t, me) && s.pcs[t].Probe?
    requires var Probe(main, h, index, j) := s.pcs[t]; h < |s.tables| && t in s.tables[h].at && s.tables[h].at[t] == j
    ensures var Probe(main, h, index, j) := s.pcs[t];
            && h <= main < |s.tables| && index < |s.tables[h].values| && s.tables[h].values[index].Some? && s.tables[h].values[index] == me.prod
  {
    hide TableOk, Settled;
    assert Stored(s.hash, s.tables[s.pcs[t].h], me, t);
  }

  lemma ProbeTellsMe(s: State, t: Tid, me: Self)
    requires View(s, t, me) && s.pcs[t].Probe?
    ensures var Probe(main, h, index, j) := s.pcs[t];
            && h <= main < |s.tables| && index < |s.tables[h].keys| == |s.tables[h].values|
            && (s.tables[h].keys[index] == Some(t) <==> t in s.tables[h].at && s.tables[h].at[t] == j)
            && (s.tables[h].keys[index] == None ==> t !in s.tables[h].at)
            && (s.tables[h].keys[index].Some? && s.tables[h].keys[index] != Some(t) ==> Probed(s.hash, s.tables[h], t, Masked(s.tables[h], index + 1), j + 1))
  {
    hide Probed, Settled, Stored;
    ProbeTells(s.hash, s.tables[s.pcs[t].h], t, s.pcs[t].index, s.pcs[t].j);
  }

  /** Where a searching thread goes next. */
  function ProbeNext(tables: seq<Table>, h0: nat, t: Tid, main: nat, h: nat, index: nat, j: nat): Pc
    requires h <= main < |tables| && index < |tables[h].keys|
    requires tables[h].keys[index] == Some(t) ==> index < |tables[h].values| && tables[h].values[index].Some?
  {
    if tables[h].keys[index] == Some(t) then
      if h == main then Done(tables[h].values[index]) else Add(main, tables[h].values[index].value, Masked(tables[main], h0), 0)
    else if tables[h].keys[index] == None then
      if h > 0 then Probe(main, h - 1, Masked(tables[h - 1], h0), 0) else Reserve(main)
    else Probe(main, h, Masked(tables[h], index + 1), j + 1)
  }

  lemma ProbeShape(s: State, t: Tid, m: bool)
    requires t < |s.pcs| && t < |s.hash| && s.pcs[t].Probe?
    requires var Probe(main, h, index, _) := s.pcs[t];
             && h <= main < |s.tables| && index < |s.tables[h].keys|
             && (s.tables[h].keys[index] == Some(t) ==> index < |s.tables[h].values| && s.tables[h].values[index].Some?)
    ensures Ready(s, t)
    ensures var Probe(main, h, index, j) := s.pcs[t]; RunNext(s, t, m) == Goto(s, t, ProbeNext(s.tables, s.hash[t], t, main, h, index, j))
  {}

  lemma ProbeFoundOk(s: State, t: Tid, me: Self)
    requires TablesOk(s.hash, s.tables) && Admitted(s.tables, s.ticket) && View(s, t, me) && s.pcs[t].Probe?
    requires var Probe(main, h, index, j) := s.pcs[t]; h <= main < |s.tables| && t in s.tables[h].at && s.tables[h].at[t] == j
    ensures var Probe(main, h, index, j) := s.pcs[t];
            && index < |s.tables[h].values| && s.tables[h].values[index].Some? && t < |s.hash|
            && ThreadOk(s.hash, s.tables, me, t, if h == main then Done(s.tables[h].values[index]) else Add(main, s.tables[h].values[index].value, Masked(s.tables[main], s.hash[t]), 0))
  {
    FoundFits(s, t, me);
    FoundValue(s, t, me);
    ProbeFirst(s.hash, s.tables[s.pcs[t].main], t);
    hide TableOk, Probed, TablesOk, Admitted, SelfOf;
  }

  lemma ProbeEmptyOk(s: State, t: Tid, me: Self)
    requires View(s, t, me) && s.pcs[t].Probe? && s.pcs[t].h < |s.tables| && t !in s.tables[s.pcs[t].h].at
    ensures var Probe(main, h, _, _) := s.pcs[t];
            t < |s.hash| && ThreadOk(s.hash, s.tables, me, t, if h > 0 then Probe(main, h - 1, Masked(s.tables[h - 1], s.hash[t]), 0) else Reserve(main))
  {
    hide TableOk, Probed, SelfOf, Masked;
    var Probe(main, h, _, _) := s.pcs[t];
    if h > 0 { ProbeFirst(s.hash, s.tables[h - 1], t); }
  }

  lemma ProbeOnOk(s: State, t: Tid, me: Self)
    requires View(s, t, me) && s.pcs[t].Probe? && s.pcs[t].h < |s.tables|
    requires var Probe(_, h, index, j) := s.pcs[t]; t < |s.hash| && Probed(s.hash, s.tables[h], t, Masked(s.tables[h], index + 1), j + 1)
    ensures var Probe(main, h, index, j) := s.pcs[t]; ThreadOk(s.hash, s.tables, me, t, Probe(main, h, Masked(s.tables[h], index + 1), j + 1))
  {
    hide TableOk, Probed, SelfOf, Settled, Stored;
  }

  lemma ProbeInv(s: State, t: Tid, m: bool)
    requires Inv(s) && t < |s.pcs| && s.pcs[t].Probe?
    ensures Ready(s, t) && Inv(RunNext(s, t, m))
  {
    hide TablesOk, Admitted, View, Probed, ThreadOk, SelfOf, TicketsOk, ProducersOk, LockOk, ThreadsOk, Ready, RunNext;
    HashLength(s);
    var me := Mine(s, t);
    ProbeTellsMe(s, t, me);
    var Probe(main, h, index, j) := s.pcs[t];
    if s.tables[h].keys[index] == Some(t) { ProbeFoundOk(s, t, me); }
    else if s.tables[h].keys[index] == None { ProbeEmptyOk(s, t, me); }
    else { ProbeOnOk(s, t, me); }
    ProbeShape(s, t, m);
    MoveInv(s, t, ProbeNext(s.tables, s.hash[t], t, main, h, index, j));
  }

  lemma HashLength(s: State)
    requires Inv(s)
    ensures |s.hash| == |s.pcs|
  {}

  // ---- reserving and waiting

  lemma ReserveTickets(count: nat, reserved: seq<Tid>, ticket: map<Tid, nat>, t: Tid)
    requires TicketsOk(count, reserved, ticket) && t !in ticket
    ensures TicketsOk(count + 1, reserved + [t], ticket[t := count + 1])
  {
    forall i | 0 <= i < |reserved| ensures reserved[i] != t {}
  }

  /** Steps in which only the thread itself and the words without tables change. */
  lemma OwnStep(s: State, s': State, t: Tid)
    requires ThreadsOk(s) && t < |s.pcs| && s'.hash == s.hash && s'.tables == s.tables && |s'.pcs| == |s.pcs| && s'.pcs == s.pcs[t := s'.pcs[t]]
    requires forall u | 0 <= u < |s.pcs| && u != t :: SelfOf(s', u) == SelfOf(s, u)
    requires ThreadOk(s.hash, s.tables, SelfOf(s', t), t, s'.pcs[t])
    ensures ThreadsOk(s')
  {
    hide ThreadOk, SelfOf;
    forall u: nat ensures Grows(s.tables, s.tables, s.hash, u) { SameTables(s.tables, s.hash, u); }
    hide Grows;
    OthersOk(s, s', t);
  }

  lemma ReserveInv(s: State, t: Tid, m: bool)
    requires Inv(s) && t < |s.pcs| && s.pcs[t].Reserve?
    ensures Ready(s, t) && Inv(RunNext(s, t, m))
  {
    hide TablesOk, TicketsOk, ProducersOk, ThreadsOk, Admitted, ThreadOk, SelfOf, RunNext, Ready, View;
    var me := Mine(s, t);
    ReserveSelf(s, t, me, m);
    ReserveTickets(s.count, s.reserved, s.ticket, t);
    ReserveAdmitted(s.tables, s.ticket, t, s.count + 1);
    OwnStep(s, RunNext(s, t, m), t);
  }

  lemma ReserveAdmitted(tables: seq<Table>, ticket: map<Tid, nat>, t: Tid, n: nat)
    requires Admitted(tables, ticket) && t !in ticket
    ensures Admitted(tables, ticket[t := n])
  {}

  lemma ReserveSelf(s: State, t: Tid, me: Self, m: bool)
    requires View(s, t, me) && s.pcs[t].Reserve?
    ensures Ready(s, t) && t !in s.ticket
    ensures var s' := RunNext(s, t, m);
            && (forall u: nat | u != t :: SelfOf(s', u) == SelfOf(s, u)) && ThreadOk(s.hash, s.tables, SelfOf(s', t), t, s'.pcs[t])
            && s' == s.(pcs := s.pcs[t := s'.pcs[t]], count := s.count + 1, reserved := s.reserved + [t], ticket := s.ticket[t := s.count + 1])
            && s'.pcs[t].Decide?
  {
    hide TableOk;
  }

  /** The steps between the reservation and the new producer, but for the new table. */
  lemma WaitInv(s: State, t: Tid, m: bool)
    requires Inv(s) && t < |s.pcs| && (s.pcs[t].Decide? || s.pcs[t].Room? || s.pcs[t].Wait? || s.pcs[t].Reload?)
    ensures Ready(s, t) && Inv(RunNext(s, t, m))
  {
    hide Inv, SelfOf, View, ThreadOk, RunNext, Ready, Holds;
    var me := Mine(s, t);
    WaitSelf(s, t, me, m);
    MoveInv(s, t, RunNext(s, t, m).pcs[t]);
  }

  lemma WaitSelf(s: State, t: Tid, me: Self, m: bool)
    requires View(s, t, me) && (s.pcs[t].Decide? || s.pcs[t].Room? || s.pcs[t].Wait? || s.pcs[t].Reload?)
    ensures Ready(s, t)
    ensures var s' := RunNext(s, t, m);
            ThreadOk(s.hash, s.tables, me, t, s'.pcs[t]) && s' == Goto(s, t, s'.pcs[t]) && (Holds(s'.pcs[t]) <==> Holds(s.pcs[t]))
  {
    hide TableOk, Stored, Waiting;
  }

  lemma LockInv(s: State, t: Tid, m: bool)
    requires Inv(s) && t < |s.pcs| && (s.pcs[t].TryLock? || s.pcs[t].Unlock? || s.pcs[t].ClearLock?)
    ensures Ready(s, t) && Inv(RunNext(s, t, m))
  {
    hide TablesOk, TicketsOk, ProducersOk, TableOk, Stored, Admitted, ThreadsOk, Settled, Masked, Doubled, Empty, Without, IndexOf;
    var me := Mine(s, t);
    OwnStep(s, RunNext(s, t, m), t);
  }

  lemma WithoutIs(r: seq<Tid>, t: Tid)
    requires t in r
    ensures |Without(r, t)| == |r| - 1
    ensures forall i | 0 <= i < |r| - 1 :: Without(r, t)[i] == r[if i < IndexOf(r, t) then i else i + 1]
    ensures forall u | u in r && u != t :: u in Without(r, t)
  {
    var k := IndexOf(r, t);
    assert r == r[..k] + [t] + r[k + 1..];
  }

  lemma GiveUpTickets(count: nat, reserved: seq<Tid>, ticket: map<Tid, nat>, t: Tid)
    requires TicketsOk(count, reserved, ticket) && t in ticket
    ensures count > 0 && TicketsOk(count - 1, Without(reserved, t), ticket - {t})
  {
    hide Without, IndexOf;
    WithoutIs(reserved, t);
    var k := IndexOf(reserved, t);
    var r' := Without(reserved, t);
    forall i | 0 <= i < |r'| ensures r'[i] in ticket - {t} && (ticket - {t})[r'[i]] >= i + 1 {
      assert r'[i] == reserved[if i < k then i else i + 1];
    }
  }

  lemma GiveUpSelf(s: State, t: Tid, m: bool)
    requires ThreadsOk(s) && s.tables != [] && t < |s.pcs| && s.pcs[t].GiveUp? && s.count > 0
    ensures Ready(s, t)
    ensures var s' := RunNext(s, t, m);
            && ThreadOk(s.hash, s.tables, SelfOf(s', t), t, s'.pcs[t]) && (forall u: nat | u != t :: SelfOf(s', u) == SelfOf(s, u))
            && s' == s.(pcs := s.pcs[t := s'.pcs[t]], count := s.count - 1, reserved := Without(s.reserved, t), ticket := s.ticket - {t})
            && (Holds(s'.pcs[t]) <==> Holds(s.pcs[t])) && t in s.ticket && Nowhere(s.tables, t)
  {
    assert ThreadOk(s.hash, s.tables, SelfOf(s, t), t, s.pcs[t]);
    hide ThreadsOk;
  }

  lemma GiveUpAdmitted(tables: seq<Table>, ticket: map<Tid, nat>, t: Tid)
    requires Admitted(tables, ticket) && Nowhere(tables, t)
    ensures Admitted(tables, ticket - {t})
  {}

  lemma SomeTicket(s: State, t: Tid)
    requires Inv(s) && t < |s.pcs| && s.pcs[t].GiveUp?
    ensures s.count > 0 && t in s.ticket && s.tables != []
  {
    hide TablesOk, Admitted, ProducersOk, LockOk;
    assert ThreadOk(s.hash, s.tables, SelfOf(s, t), t, s.pcs[t]);
    assert t in s.reserved;
    TablesThere(s);
  }

  lemma TablesThere(s: State)
    requires Inv(s)
    ensures s.tables != []
  {}

  lemma GiveUpInv(s: State, t: Tid, m: bool)
    requires Inv(s) && t < |s.pcs| && s.pcs[t].GiveUp?
    ensures Ready(s, t) && Inv(RunNext(s, t, m))
  {
    SomeTicket(s, t);
    hide TablesOk, TicketsOk, ProducersOk, ThreadsOk, Admitted, ThreadOk, SelfOf, RunNext, Ready, Holds, Nowhere;
    GiveUpSelf(s, t, m);
    GiveUpTickets(s.count, s.reserved, s.ticket, t);
    GiveUpAdmitted(s.tables, s.ticket, t);
    OwnStep(s, RunNext(s, t, m), t);
  }

  // ---- a larger table

  lemma EmptyOk(hash: seq<nat>, c: nat)
    ensures TableOk(hash, Empty(c))
  {}

  lemma ResizeTables(hash: seq<nat>, tables: seq<Table>, n: nat)
    requires TablesOk(hash, tables)
    ensures TablesOk(hash, tables + [Empty(Doubled(tables[|tables| - 1].c + 1, n))])
  {
    hide TableOk, Empty;
    EmptyOk(hash, Doubled(tables[|tables| - 1].c + 1, n));
    assert Empty(Doubled(tables[|tables| - 1].c + 1, n)).c > tables[|tables| - 1].c by { EmptyC(Doubled(tables[|tables| - 1].c + 1, n)); }
  }

  lemma EmptyC(c: nat)
    ensures Empty(c).c == c && Empty(c).at == map[]
  {}

  lemma AppendGrows(tables: seq<Table>, tb: Table, hash: seq<nat>, u: Tid)
    requires tb.at == map[]
    ensures Grows(tables, tables + [tb], hash, u)
  {}

  lemma ResizeInv(s: State, t: Tid)
    requires Inv(s) && t < |s.pcs| && s.pcs[t].Resize?
    ensures Ready(s, t) && Inv(RunNext(s, t, true))
  {
    hide TablesOk, TicketsOk, ProducersOk, ThreadsOk, Admitted, ThreadOk, SelfOf, RunNext, Ready, Grows, Empty, Doubled;
    TablesThere(s);
    ResizeAlone(s, t);
    ResizeSelf(s, t);
    var tb := Empty(Doubled(s.tables[|s.tables| - 1].c + 1, s.pcs[t].n));
    EmptyC(Doubled(s.tables[|s.tables| - 1].c + 1, s.pcs[t].n));
    ResizeTables(s.hash, s.tables, s.pcs[t].n);
    ResizeAdmitted(s.tables, s.ticket, tb);
    forall u: nat ensures Grows(s.tables, s.tables + [tb], s.hash, u) { AppendGrows(s.tables, tb, s.hash, u); }
    OthersOk(s, RunNext(s, t, true), t);
  }

  /** Only the holder of the lock is resizing. */
  lemma ResizeAlone(s: State, t: Tid)
    requires Inv(s) && t < |s.pcs| && s.pcs[t].Resize?
    ensures forall u | 0 <= u < |s.pcs| && u != t :: !s.pcs[u].Resize?
  {
    hide TablesOk, TicketsOk, ProducersOk, ThreadsOk, Admitted;
    assert Holds(s.pcs[t]);
    forall u | 0 <= u < |s.pcs| && u != t ensures !s.pcs[u].Resize? { assert Holds(s.pcs[u]) <==> s.holder == Some(u); }
  }

  lemma ResizeAdmitted(tables: seq<Table>, ticket: map<Tid, nat>, tb: Table)
    requires Admitted(tables, ticket) && tb.at == map[]
    ensures Admitted(tables + [tb], ticket)
  {}

  lemma ResizeSelf(s: State, t: Tid)
    requires ThreadsOk(s) && s.tables != [] && t < |s.pcs| && s.pcs[t].Resize?
    ensures Ready(s, t)
    ensures var s' := RunNext(s, t, true);
            && (forall u: nat :: SelfOf(s', u) == SelfOf(s, u)) && ThreadOk(s'.hash, s'.tables, SelfOf(s', t), t, s'.pcs[t])
            && s' == s.(pcs := s.pcs[t := s'.pcs[t]], tables := s.tables + [Empty(Doubled(s.tables[|s.tables| - 1].c + 1, s.pcs[t].n))])
            && s'.pcs[t].Unlock?
  {
    assert ThreadOk(s.hash, s.tables, SelfOf(s, t), t, s.pcs[t]);
    EmptyC(Doubled(s.tables[|s.tables| - 1].c + 1, s.pcs[t].n));
    hide ThreadsOk;
  }

  lemma ResizeFailInv(s: State, t: Tid)
    requires Inv(s) && t < |s.pcs| && s.pcs[t].Resize?
    ensures Ready(s, t) && Inv(RunNext(s, t, false))
  {
    var me := Mine(s, t);
    hide Inv, TableOk, Stored, SelfOf;
    MoveInv(s, t, GiveUp(true));
  }

  // ---- a new producer

  lemma CreateInv(s: State, t: Tid)
    requires Inv(s) && t < |s.pcs| && s.pcs[t].Create?
    ensures Ready(s, t) && Inv(RunNext(s, t, true))
  {
    TablesThere(s);
    var me := Mine(s, t);
    hide TablesOk, TicketsOk, ProducersOk, ThreadsOk, Admitted, ThreadOk, SelfOf, RunNext, Ready, View;
    CreateSelf(s, t, me);
    CreateProducers(s.producers, s.prodOf, t);
    OwnStep(s, RunNext(s, t, true), t);
  }

  lemma CreateProducers(producers: seq<Tid>, prodOf: map<Tid, ProdId>, t: Tid)
    requires ProducersOk(producers, prodOf)
    ensures ProducersOk(producers + [t], prodOf[t := |producers|])
  {}

  lemma CreateSelf(s: State, t: Tid, me: Self)
    requires View(s, t, me) && s.pcs[t].Create?
    ensures Ready(s, t)
    ensures var s' := RunNext(s, t, true);
            && (forall u: nat | u != t :: SelfOf(s', u) == SelfOf(s, u)) && ThreadOk(s.hash, s.tables, SelfOf(s', t), t, s'.pcs[t])
            && s' == s.(pcs := s.pcs[t := s'.pcs[t]], producers := s.producers + [t], prodOf := s.prodOf[t := |s.producers|])
            && s'.pcs[t].Add?
  {
    ProbeFirst(s.hash, s.tables[s.pcs[t].main], t);
    hide TableOk, Probed;
  }

  lemma CreateFailInv(s: State, t: Tid)
    requires Inv(s) && t < |s.pcs| && s.pcs[t].Create?
    ensures Ready(s, t) && Inv(RunNext(s, t, false))
  {
    var me := Mine(s, t);
    hide Inv, TableOk, Stored, SelfOf;
    MoveInv(s, t, GiveUp(false));
  }

  // ---- entering the main table

  lemma AddTellsMe(s: State, t: Tid, me: Self)
    requires View(s, t, me) && (s.pcs[t].Add? || s.pcs[t].AddCas?)
    ensures var main, index, j := s.pcs[t].main, s.pcs[t].index, s.pcs[t].j;
            && main < |s.tables| && index < |s.tables[main].keys| && t !in s.tables[main].at && index == s.tables[main].Slot(s.hash[t], j)
            && (s.tables[main].keys[index] == None ==> j < s.tables[main].Cap())
            && (s.tables[main].keys[index].Some? ==> Probed(s.hash, s.tables[main], t, Masked(s.tables[main], index + 1), j + 1))
            && Probed(s.hash, s.tables[main], t, index, j)
  {
    var main, index, j := s.pcs[t].main, s.pcs[t].index, s.pcs[t].j;
    ProbeTells(s.hash, s.tables[main], t, index, j);
    if s.tables[main].keys[index] == None { EmptyBeforeWrap(s.hash, s.tables[main], t, index, j); }
    hide Settled, Stored, TableOk, Filled;
  }

  lemma AddOn(s: State, t: Tid, me: Self)
    requires View(s, t, me) && (s.pcs[t].Add? || s.pcs[t].AddCas?)
    ensures var main, q, index, j := s.pcs[t].main, s.pcs[t].p, s.pcs[t].index, s.pcs[t].j;
            && main < |s.tables| && index < |s.tables[main].keys|
            && (s.tables[main].keys[index].Some? ==> ThreadOk(s.hash, s.tables, me, t, Add(main, q, Masked(s.tables[main], index + 1), j + 1)))
            && ThreadOk(s.hash, s.tables, me, t, AddCas(main, q, index, j))
  {
    AddTellsMe(s, t, me);
    hide TableOk, Probed, Stored, SelfOf;
  }

  /** The slot is in use, or is seen to be free. */
  lemma AddOnInv(s: State, t: Tid, m: bool)
    requires Inv(s) && t < |s.pcs| && (s.pcs[t].Add? || (s.pcs[t].AddCas? && s.pcs[t].main < |s.tables| && s.pcs[t].index < |s.tables[s.pcs[t].main].keys| && s.tables[s.pcs[t].main].keys[s.pcs[t].index].Some?))
    ensures Ready(s, t) && Inv(RunNext(s, t, m))
  {
    hide Inv, ThreadOk, SelfOf, View, RunNext, Ready;
    HashLength(s);
    var me := Mine(s, t);
    TablesThere(s);
    AddOn(s, t, me);
    AddShape(s, t, m);
    MoveInv(s, t, AddNext(s, t));
  }

  function AddNext(s: State, t: Tid): Pc
    requires t < |s.pcs| && (s.pcs[t].Add? || s.pcs[t].AddCas?) && s.pcs[t].main < |s.tables| && s.pcs[t].index < |s.tables[s.pcs[t].main].keys|
  {
    var main, q, index, j := s.pcs[t].main, s.pcs[t].p, s.pcs[t].index, s.pcs[t].j;
    if s.tables[main].keys[index] == None then AddCas(main, q, index, j) else Add(main, q, Masked(s.tables[main], index + 1), j + 1)
  }

  lemma AddShape(s: State, t: Tid, m: bool)
    requires t < |s.pcs| == |s.hash| && s.tables != [] && (s.pcs[t].Add? || s.pcs[t].AddCas?)
    requires s.pcs[t].main < |s.tables| && s.pcs[t].index < |s.tables[s.pcs[t].main].keys|
    requires s.pcs[t].AddCas? ==> s.tables[s.pcs[t].main].keys[s.pcs[t].index].Some?
    ensures Ready(s, t) && RunNext(s, t, m) == Goto(s, t, AddNext(s, t))
  {}

  function Entered(tb: Table, t: Tid, index: nat, j: nat): Table
    requires index < |tb.keys|
  {
    tb.(keys := tb.keys[index := Some(t)], at := tb.at[t := j])
  }

  lemma EnteredOk(hash: seq<nat>, tb: Table, t: Tid, index: nat, j: nat)
    requires TableOk(hash, tb) && Probed(hash, tb, t, index, j) && t !in tb.at && index < |tb.keys| && tb.keys[index] == None && j < tb.Cap()
    ensures TableOk(hash, Entered(tb, t, index, j))
  {
    var tb' := Entered(tb, t, index, j);
    assert forall h: nat, d: nat :: tb'.Slot(h, d) == tb.Slot(h, d);
    forall u, d: nat | u in tb'.at && d < tb'.at[u] ensures Filled(tb', hash[u], d) {
      assert Filled(tb, hash[u], d);
      SlotIn(tb, hash[u], d);
    }
  }

  lemma EnteredGrows(hash: seq<nat>, tables: seq<Table>, tables': seq<Table>, main: nat, t: Tid, index: nat, j: nat)
    requires main < |tables| && index < |tables[main].keys| && tables[main].keys[index] == None
    requires tables' == tables[main := Entered(tables[main], t, index, j)]
    ensures forall u: nat | u != t :: Grows(tables, tables', hash, u)
  {}

  lemma EnteredTables(hash: seq<nat>, tables: seq<Table>, ticket: map<Tid, nat>, main: nat, t: Tid, index: nat, j: nat)
    requires TablesOk(hash, tables) && Admitted(tables, ticket) && main < |tables|
    requires Probed(hash, tables[main], t, index, j) && t !in tables[main].at && index < |tables[main].keys| && tables[main].keys[index] == None && j < tables[main].Cap()
    requires t in ticket && ticket[t] < tables[main].Limit()
    ensures var tables' := tables[main := Entered(tables[main], t, index, j)];
            TablesOk(hash, tables') && Admitted(tables', ticket)
  {
    EnteredOk(hash, tables[main], t, index, j);
    hide TableOk, Probed;
  }

  lemma EnterSelf(s: State, t: Tid, me: Self, m: bool)
    requires View(s, t, me) && s.pcs[t].AddCas?
    requires var main, index, j := s.pcs[t].main, s.pcs[t].index, s.pcs[t].j;
             && main < |s.tables| && index < |s.tables[main].keys| && s.tables[main].keys[index] == None && t !in s.tables[main].at
             && index == s.tables[main].Slot(s.hash[t], j)
    ensures Ready(s, t)
    ensures var main, index, j := s.pcs[t].main, s.pcs[t].index, s.pcs[t].j;
            var s' := RunNext(s, t, m);
            && (forall u: nat | u != t :: SelfOf(s', u) == SelfOf(s, u))
            && ThreadOk(s.hash, s'.tables, SelfOf(s', t), t, s'.pcs[t])
            && s' == s.(pcs := s.pcs[t := s'.pcs[t]], tables := s.tables[main := Entered(s.tables[main], t, index, j)], home := s'.home)
            && s'.pcs[t].AddStore?
            && t in s.ticket && s.ticket[t] < s.tables[main].Limit()
  {
    hide TableOk, Probed;
  }

  lemma AddCasInv(s: State, t: Tid, m: bool)
    requires Inv(s) && t < |s.pcs| && s.pcs[t].AddCas?
    requires s.pcs[t].main < |s.tables| && s.pcs[t].index < |s.tables[s.pcs[t].main].keys| && s.tables[s.pcs[t].main].keys[s.pcs[t].index] == None
    ensures Ready(s, t) && Inv(RunNext(s, t, m))
  {
    hide TablesOk, TicketsOk, ProducersOk, ThreadsOk, Admitted, ThreadOk, SelfOf, RunNext, Ready, View, Grows, Probed, Entered;
    var me := Mine(s, t);
    var AddCas(main, _, index, j) := s.pcs[t];
    AddTellsMe(s, t, me);
    EnterSelf(s, t, me, m);
    EnteredTables(s.hash, s.tables, s.ticket, main, t, index, j);
    EnteredGrows(s.hash, s.tables, RunNext(s, t, m).tables, main, t, index, j);
    OthersOk(s, RunNext(s, t, m), t);
  }

  // ---- the value is stored beside the key

  function Valued(tb: Table, index: nat, q: ProdId): Table
    requires index < |tb.values|
  {
    tb.(values := tb.values[index := Some(q)])
  }

  lemma ValuedTables(hash: seq<nat>, tables: seq<Table>, ticket: map<Tid, nat>, main: nat, index: nat, q: ProdId)
    requires TablesOk(hash, tables) && Admitted(tables, ticket) && main < |tables| && index < |tables[main].values|
    ensures var tables' := tables[main := Valued(tables[main], index, q)];
            TablesOk(hash, tables') && Admitted(tables', ticket)
  {
    ValuedOk(hash, tables[main], index, q);
    hide TableOk;
  }

  lemma ValuedOk(hash: seq<nat>, tb: Table, index: nat, q: ProdId)
    requires TableOk(hash, tb) && index < |tb.values|
    ensures TableOk(hash, Valued(tb, index, q))
  {
    var tb' := Valued(tb, index, q);
    forall u, d: nat | u in tb'.at && d < tb'.at[u] ensures Filled(tb', hash[u], d) { assert Filled(tb, hash[u], d); }
  }

  lemma ValuedGrows(hash: seq<nat>, tables: seq<Table>, tables': seq<Table>, main: nat, t: Tid, index: nat, q: ProdId)
    requires main < |tables| && index < |tables[main].values| && TableOk(hash, tables[main])
    requires t in tables[main].at && t < |hash| && index == tables[main].Slot(hash[t], tables[main].at[t])
    requires tables' == tables[main := Valued(tables[main], index, q)]
    ensures forall u: nat | u != t :: Grows(tables, tables', hash, u)
  {
    forall u: nat | u != t ensures Grows(tables, tables', hash, u) {
      var tb := tables[main];
      assert u in tb.at ==> tb.keys[tb.Slot(hash[u], tb.at[u])] == Some(u);
    }
  }

  lemma StoreSelf(s: State, t: Tid, me: Self, m: bool)
    requires View(s, t, me) && s.pcs[t].AddStore?
    ensures Ready(s, t)
    ensures var AddStore(main, q, index, j) := s.pcs[t];
            var s' := RunNext(s, t, m);
            && (forall u: nat :: SelfOf(s', u) == SelfOf(s, u))
            && ThreadOk(s.hash, s'.tables, SelfOf(s', t), t, s'.pcs[t])
            && main < |s.tables| && index < |s.tables[main].values|
            && s' == s.(pcs := s.pcs[t := s'.pcs[t]], tables := s.tables[main := Valued(s.tables[main], index, q)])
            && s'.pcs[t].Done? && t < |s.hash|
            && t in s.tables[main].at && index == s.tables[main].Slot(s.hash[t], s.tables[main].at[t])
  {
    assert TableOk(s.hash, s.tables[s.pcs[t].main]);
    SlotIn(s.tables[s.pcs[t].main], s.hash[t], s.pcs[t].j);
    hide Filled;
  }

  lemma AddStoreInv(s: State, t: Tid, m: bool)
    requires Inv(s) && t < |s.pcs| && s.pcs[t].AddStore?
    ensures Ready(s, t) && Inv(RunNext(s, t, m))
  {
    hide TablesOk, TicketsOk, ProducersOk, ThreadsOk, Admitted, ThreadOk, SelfOf, RunNext, Ready, View, Grows, TableOk, Valued;
    var me := Mine(s, t);
    StoreTable(s, t, me);
    var AddStore(main, q, index, j) := s.pcs[t];
    StoreSelf(s, t, me, m);
    ValuedTables(s.hash, s.tables, s.ticket, main, index, q);
    ValuedGrows(s.hash, s.tables, RunNext(s, t, m).tables, main, t, index, q);
    OthersOk(s, RunNext(s, t, m), t);
  }

  lemma StoreTable(s: State, t: Tid, me: Self)
    requires View(s, t, me) && s.pcs[t].AddStore?
    ensures s.pcs[t].main < |s.tables| && TableOk(s.hash, s.tables[s.pcs[t].main])
  {
    hide TableOk;
  }

  // ---------------------------------------------------------------- every step

  /** Whatever a thread inside get_or_add_implicit_producer does next, it can do it, and the invariant stays. */
  lemma RunInv(s: State, t: Tid, memory: bool)
    requires Inv(s) && t < |s.pcs| && !s.pcs[t].Done?
    ensures Ready(s, t) && Inv(RunNext(s, t, memory))
  {
    hide Inv, Ready, RunNext;
    match s.pcs[t] {
      case LoadMain => LoadMainInv(s, t, memory);
      case Probe(_, _, _, _) => ProbeInv(s, t, memory);
      case Reserve(_) => ReserveInv(s, t, memory);
      case TryLock(_, _) => LockInv(s, t, memory);
      case Unlock(_, _) => LockInv(s, t, memory);
      case ClearLock => LockInv(s, t, memory);
      case Resize(_, _) => if memory { ResizeInv(s, t); } else { ResizeFailInv(s, t); }
      case Create(_, _) => if memory { CreateInv(s, t); } else { CreateFailInv(s, t); }
      case Add(_, _, _, _) => AddOnInv(s, t, memory);
      case AddCas(main, _, index, _) =>
        AddReady(s, t);
        if s.tables[main].keys[index].Some? { AddOnInv(s, t, memory); } else { AddCasInv(s, t, memory); }
      case AddStore(_, _, _, _) => AddStoreInv(s, t, memory);
      case GiveUp(_) => GiveUpInv(s, t, memory);
      case _ => WaitInv(s, t, memory);
    }
  }

  lemma AddReady(s: State, t: Tid)
    requires Inv(s) && t < |s.pcs| && s.pcs[t].AddCas?
    ensures s.pcs[t].main < |s.tables| && s.pcs[t].index < |s.tables[s.pcs[t].main].keys|
  {
    var me := Mine(s, t);
    hide Inv, View;
    AddTellsMe(s, t, me);
  }

  lemma NextInv(s: State, a: Action)
    requires Inv(s) && Enabled(s, a)
    ensures Inv(Next(s, a))
  {
    hide Inv, RunNext;
    match a {
      case Call(t) => CallInv(s, t);
      case Run(t, memory) => RunInv(s, t, memory);
    }
  }

  // ---------------------------------------------------------------- no table fills up

  function Front(r: seq<Tid>, n: nat): (ids: set<Tid>)
    requires n <= |r|
    ensures |ids| <= n && forall i | 0 <= i < n :: r[i] in ids
  {
    if n == 0 then {} else Front(r, n - 1) + {r[n - 1]}
  }

  /** Of the reservations only the first `limit - 1` can have been made with a count below the limit. */
  lemma EarlyTickets(count: nat, reserved: seq<Tid>, ticket: map<Tid, nat>, limit: nat, t: Tid)
    requires TicketsOk(count, reserved, ticket) && t in ticket && ticket[t] < limit
    ensures exists i :: 0 <= i < |reserved| && i + 1 < limit && reserved[i] == t
  {
    var i :| 0 <= i < |reserved| && reserved[i] == t;
  }

  lemma SubsetSize(a: set<Tid>, b: set<Tid>)
    requires a <= b
    ensures |a| <= |b|
  {
    if a != {} {
      var x :| x in a;
      SubsetSize(a - {x}, b - {x});
    }
  }

  /** A table of capacity C holds fewer than C/2 + C/4 ids (none, if that is 0). */
  lemma TableHasRoom(s: State, i: nat)
    requires Inv(s) && i < |s.tables|
    ensures |s.tables[i].at| < s.tables[i].Limit() || s.tables[i].at == map[]
    ensures |s.tables[i].at| < s.tables[i].Cap()
  {
    hide TablesOk, ThreadsOk, LockOk, ProducersOk;
    var tb := s.tables[i];
    var m := if tb.Limit() == 0 then 0 else tb.Limit() - 1;
    var k := if m < |s.reserved| then m else |s.reserved|;
    forall t | t in tb.at ensures t in Front(s.reserved, k) {
      EarlyTickets(s.count, s.reserved, s.ticket, tb.Limit(), t);
    }
    SubsetSize(tb.at.Keys, Front(s.reserved, k));
    assert |tb.at| == |tb.at.Keys|;
  }

  /** The ids in the first n slots. */
  function Ids(keys: seq<Option<Tid>>, n: nat): set<Tid>
    requires n <= |keys|
  {
    if n == 0 then {} else Ids(keys, n - 1) + (if keys[n - 1].Some? then {keys[n - 1].value} else {})
  }

  lemma {:induction false} FullIds(hash: seq<nat>, tb: Table, n: nat)
    requires TableOk(hash, tb) && n <= |tb.keys| && forall i | 0 <= i < n :: tb.keys[i].Some?
    ensures |Ids(tb.keys, n)| == n && Ids(tb.keys, n) <= tb.at.Keys
    ensures forall t <- Ids(tb.keys, n) :: t in tb.at && tb.Slot(hash[t], tb.at[t]) < n
  {
    if n > 0 { FullIds(hash, tb, n - 1); }
  }

  /** A search that has probed as many slots as there are would have seen them all. */
  lemma {:induction false} AllSeen(hash: seq<nat>, tb: Table, t: Tid, index: nat, j: nat, i: nat)
    requires Probed(hash, tb, t, index, j) && j >= tb.Cap() && i < tb.Cap()
    ensures tb.keys[i].Some?
  {
    var h, cap := hash[t], tb.Cap();
    var d := (i - h) % cap;
    ModAdd(h, i - h, cap);
    DivModUnique(i, cap, 0, i);
    assert tb.Slot(h, d) == i;
    assert Filled(tb, h, d);
  }

  lemma ProbeEnds(s: State, i: nat, t: Tid, index: nat, j: nat)
    requires Inv(s) && i < |s.tables| && Probed(s.hash, s.tables[i], t, index, j)
    ensures j < s.tables[i].Cap()
  {
    var tb := s.tables[i];
    TableHasRoom(s, i);
    if j >= tb.Cap() {
      forall n: nat | n < tb.Cap() ensures tb.keys[n].Some? { AllSeen(s.hash, tb, t, index, j, n); }
      FullIds(s.hash, tb, |tb.keys|);
      SubsetSize(Ids(tb.keys, |tb.keys|), tb.at.Keys);
    }
  }

  /** Every probe loop ends within one round of its table. */
  ghost predicate ProbesBounded(s: State) {
    forall t | 0 <= t < |s.pcs| ::
      && (s.pcs[t].Probe? ==> s.pcs[t].h < |s.tables| && s.pcs[t].j < s.tables[s.pcs[t].h].Cap())
      && (s.pcs[t].Add? || s.pcs[t].AddCas? ==> s.pcs[t].main < |s.tables| && s.pcs[t].j < s.tables[s.pcs[t].main].Cap())
  }

  lemma InvProbesBounded(s: State)
    requires Inv(s)
    ensures ProbesBounded(s)
  {
    forall t | 0 <= t < |s.pcs| && (s.pcs[t].Probe? || s.pcs[t].Add? || s.pcs[t].AddCas?)
      ensures var i := if s.pcs[t].Probe? then s.pcs[t].h else s.pcs[t].main; i < |s.tables| && s.pcs[t].j < s.tables[i].Cap()
    {
      MyProbe(s, t);
      ProbeEnds(s, if s.pcs[t].Probe? then s.pcs[t].h else s.pcs[t].main, t, s.pcs[t].index, s.pcs[t].j);
    }
  }

  lemma MyProbe(s: State, t: Tid)
    requires Inv(s) && t < |s.pcs| && (s.pcs[t].Probe? || s.pcs[t].Add? || s.pcs[t].AddCas?)
    ensures var i := if s.pcs[t].Probe? then s.pcs[t].h else s.pcs[t].main; i < |s.tables| && Probed(s.hash, s.tables[i], t, s.pcs[t].index, s.pcs[t].j)
  {
    var me := Mine(s, t);
    hide Inv, TableOk, Probed, Settled, Stored;
  }

  // ---------------------------------------------------------------- runs

  lemma InitInv(s: State, c: nat)
    requires Init(s, c)
    ensures Inv(s)
  {
    EmptyOk(s.hash, c);
    EmptyC(c);
    hide TableOk, Empty;
  }

  ghost predicate IsRun(ss: seq<State>, acts: seq<Action>) {
    && |ss| == |acts| + 1 && (exists c: nat :: Init(ss[0], c))
    && forall i | 0 <= i < |acts| :: Enabled(ss[i], acts[i]) && ss[i + 1] == Next(ss[i], acts[i])
  }

  lemma {:induction false} RunInvariant(ss: seq<State>, acts: seq<Action>, i: nat)
    requires IsRun(ss, acts) && i < |ss|
    ensures Inv(ss[i])
  {
    hide Inv, Enabled, Next;
    if i == 0 {
      var c: nat :| Init(ss[0], c);
      InitInv(ss[0], c);
    } else {
      RunInvariant(ss, acts, i - 1);
      NextInv(ss[i - 1], acts[i - 1]);
    }
  }

  /** In every state of every run all tables have room and all probes are bounded. */
  lemma ProbingEnds(ss: seq<State>, acts: seq<Action>)
    requires IsRun(ss, acts)
    ensures forall i | 0 <= i < |ss| :: ProbesBounded(ss[i])
    ensures forall i, k | 0 <= i < |ss| && 0 <= k < |ss[i].tables| :: |ss[i].tables[k].at| < ss[i].tables[k].Cap()
  {
    hide IsRun, Inv, ProbesBounded;
    forall i | 0 <= i < |ss| ensures ProbesBounded(ss[i]) {
      RunInvariant(ss, acts, i);
      InvProbesBounded(ss[i]);
    }
    forall i, k | 0 <= i < |ss| && 0 <= k < |ss[i].tables| ensures |ss[i].tables[k].at| < ss[i].tables[k].Cap() {
      RunInvariant(ss, acts, i);
      TableHasRoom(ss[i], k);
    }
  }

  /** A producer once made for a thread stays that thread's. */
  lemma ProducerStays(s: State, a: Action, t: Tid)
    requires Inv(s) && Enabled(s, a) && t in s.prodOf
    ensures var s' := Next(s, a); t in s'.prodOf && s'.prodOf[t] == s.prodOf[t]
  {
    hide Inv, RunNext, Ready;
    if a.Run? {
      OnlyCreateAdds(s, a.t, a.memory);
      if s.pcs[a.t].Create? { CreatesOnce(s, a.t); }
    }
  }

  lemma OnlyCreateAdds(s: State, t: Tid, m: bool)
    requires Ready(s, t)
    ensures t < |s.pcs| && RunNext(s, t, m).prodOf == if s.pcs[t].Create? && m then s.prodOf[t := |s.producers|] else s.prodOf
  {
    hide Masked, Doubled, Empty, Without, IndexOf, Pow2;
    match s.pcs[t] {
      case Probe(_, _, _, _) => ProbeAddsNone(s, t, m);
      case Add(_, _, _, _) => AddSizes(s, t, m);
      case AddCas(_, _, _, _) => CasAddsNone(s, t, m);
      case _ =>
    }
  }

  predicate MovesOnly(s: State, s': State, t: Tid) { t < |s.pcs| == |s'.pcs| && s'.pcs == s.pcs[t := s'.pcs[t]] }

  lemma ProbeAddsNone(s: State, t: Tid, m: bool)
    requires Ready(s, t) && s.pcs[t].Probe?
    ensures RunNext(s, t, m).prodOf == s.prodOf && RunNext(s, t, m).tables == s.tables && MovesOnly(s, RunNext(s, t, m), t)
  {
    hide Masked;
  }

  lemma CasAddsNone(s: State, t: Tid, m: bool)
    requires Ready(s, t) && s.pcs[t].AddCas?
    ensures RunNext(s, t, m).prodOf == s.prodOf && MovesOnly(s, RunNext(s, t, m), t)
    ensures |RunNext(s, t, m).tables| == |s.tables| && forall i | 0 <= i < |s.tables| :: RunNext(s, t, m).tables[i].c == s.tables[i].c
  {
    hide Masked;
  }

  lemma CreatesOnce(s: State, t: Tid)
    requires Inv(s) && t < |s.pcs| && s.pcs[t].Create?
    ensures t !in s.prodOf
  {
    var me := Mine(s, t);
    hide Inv, TableOk, Stored;
  }

  lemma {:induction false} ProducerStaysLong(ss: seq<State>, acts: seq<Action>, i: nat, j: nat, t: Tid)
    requires IsRun(ss, acts) && i <= j < |ss| && t in ss[i].prodOf
    ensures t in ss[j].prodOf && ss[j].prodOf[t] == ss[i].prodOf[t]
  {
    hide Inv, Enabled, Next;
    if i < j {
      ProducerStaysLong(ss, acts, i, j - 1, t);
      RunInvariant(ss, acts, j - 1);
      ProducerStays(ss[j - 1], acts[j - 1], t);
    }
  }

  lemma ResultIsOwn(s: State, t: Tid)
    requires Inv(s) && t < |s.pcs| && s.pcs[t].Done? && s.pcs[t].result.Some?
    ensures t in s.prodOf && s.prodOf[t] == s.pcs[t].result.value
    ensures s.pcs[t].result.value < |s.producers| && s.producers[s.pcs[t].result.value] == t
  {
    var me := Mine(s, t);
    hide TablesOk, TicketsOk, Admitted, LockOk, ThreadsOk, TableOk, Stored, Settled;
  }

  /**
    Two calls, at any times in any run, that return producers p and q to threads t and u: the same
    producer exactly when they are the same thread.
   */
  lemma OneProducerEach(ss: seq<State>, acts: seq<Action>, i: nat, j: nat, t: Tid, u: Tid)
    requires IsRun(ss, acts) && i <= j < |ss| && t < |ss[i].pcs| && u < |ss[j].pcs|
    requires ss[i].pcs[t].Done? && ss[i].pcs[t].result.Some? && ss[j].pcs[u].Done? && ss[j].pcs[u].result.Some?
    ensures ss[i].pcs[t].result == ss[j].pcs[u].result <==> t == u
  {
    RunInvariant(ss, acts, i);
    RunInvariant(ss, acts, j);
    ResultIsOwn(ss[i], t);
    ResultIsOwn(ss[j], u);
    ProducerStaysLong(ss, acts, i, j, t);
    Owns(ss[j], t);
  }

  lemma Owns(s: State, t: Tid)
    requires Inv(s) && t in s.prodOf
    ensures s.prodOf[t] < |s.producers| && s.producers[s.prodOf[t]] == t
  {}

  // ---------------------------------------------------------------- a resize is enough

  /** Tables keep their size, and a thread is moved by its own steps only. */
  lemma SizesStay(s: State, a: Action, t: Tid)
    requires Enabled(s, a) && t < |s.pcs|
    ensures var s' := Next(s, a);
            && |s.tables| <= |s'.tables| && (forall i | 0 <= i < |s.tables| :: s'.tables[i].c == s.tables[i].c)
            && |s'.pcs| == |s.pcs| && (a.t != t ==> s'.pcs[t] == s.pcs[t])
  {
    hide Ready, RunNext;
    if a.Run? { RunSizes(s, a.t, a.memory, t); }
  }

  lemma RunSizes(s: State, u: Tid, m: bool, t: Tid)
    requires Ready(s, u) && t < |s.pcs|
    ensures var s' := RunNext(s, u, m);
            && |s.tables| <= |s'.tables| && (forall i | 0 <= i < |s.tables| :: s'.tables[i].c == s.tables[i].c)
            && |s'.pcs| == |s.pcs| && (u != t ==> s'.pcs[t] == s.pcs[t])
  {
    hide RunNext, Ready;
    ReadyThere(s, u);
    match s.pcs[u] {
      case AddCas(_, _, _, _) => CasAddsNone(s, u, m);
      case AddStore(_, _, _, _) => StoreSizes(s, u, m);
      case Resize(_, _) => ResizeSizes(s, u, m);
      case _ => ElseSizes(s, u, m);
    }
  }

  lemma ReadyThere(s: State, u: Tid)
    requires Ready(s, u)
    ensures u < |s.pcs|
  {}

  lemma StoreSizes(s: State, u: Tid, m: bool)
    requires Ready(s, u) && s.pcs[u].AddStore?
    ensures MovesOnly(s, RunNext(s, u, m), u)
    ensures |RunNext(s, u, m).tables| == |s.tables| && forall i | 0 <= i < |s.tables| :: RunNext(s, u, m).tables[i].c == s.tables[i].c
  {}

  lemma ResizeSizes(s: State, u: Tid, m: bool)
    requires Ready(s, u) && s.pcs[u].Resize?
    ensures MovesOnly(s, RunNext(s, u, m), u)
    ensures |RunNext(s, u, m).tables| >= |s.tables| && forall i | 0 <= i < |s.tables| :: RunNext(s, u, m).tables[i] == s.tables[i]
  {
    hide Doubled, Empty;
  }

  lemma ElseSizes(s: State, u: Tid, m: bool)
    requires Ready(s, u) && !s.pcs[u].AddStore? && !s.pcs[u].AddCas? && !s.pcs[u].Resize?
    ensures MovesOnly(s, RunNext(s, u, m), u)
    ensures RunNext(s, u, m).tables == s.tables
  {
    hide Masked, Doubled, Empty, Without, IndexOf, Pow2;
    match s.pcs[u] {
      case Probe(_, _, _, _) => ProbeAddsNone(s, u, m);
      case Add(_, _, _, _) => AddSizes(s, u, m);
      case _ =>
    }
  }

  lemma AddSizes(s: State, u: Tid, m: bool)
    requires Ready(s, u) && s.pcs[u].Add?
    ensures RunNext(s, u, m).tables == s.tables && RunNext(s, u, m).prodOf == s.prodOf && MovesOnly(s, RunNext(s, u, m), u)
  {
    hide Masked;
  }

  /** The table that a thread has made is large enough for the count that it saw. */
  lemma ResizeMakesRoom(s: State, t: Tid)
    requires Ready(s, t) && s.pcs[t].Resize?
    ensures var s' := RunNext(s, t, true);
            && t < |s'.pcs| && s'.pcs[t] == Unlock(|s.tables|, s.pcs[t].n) && |s'.tables| == |s.tables| + 1
            && s.pcs[t].n < s'.tables[|s.tables|].Limit()
  {}

  /**
    A thread that has made a larger table in state i is let in by the test that follows, in state j, whatever
    the others have done meanwhile: it never goes round the resizing loop again.
   */
  lemma {:induction false} MakerGetsRoom(ss: seq<State>, acts: seq<Action>, i: nat, j: nat, t: Tid)
    requires IsRun(ss, acts) && i < j < |ss| && acts[i] == Run(t, true) && t < |ss[i].pcs| && ss[i].pcs[t].Resize?
    requires forall m | i < m <= j :: t < |ss[m].pcs| && (ss[m].pcs[t].Unlock? || ss[m].pcs[t].Room?)
    ensures ss[j].pcs[t].main < |ss[j].tables| && ss[j].pcs[t].n < ss[j].tables[ss[j].pcs[t].main].Limit()
    ensures ss[j].pcs[t].Room? && j < |acts| && acts[j].Run? && acts[j].t == t ==> ss[j + 1].pcs[t].Create?
  {
    hide Init, Enabled, Next;
    if j == i + 1 {
      MakesTable(ss[i], t);
    } else {
      MakerGetsRoom(ss, acts, i, j - 1, t);
      SizesStay(ss[j - 1], acts[j - 1], t);
      if acts[j - 1].t == t { UnlockOnly(ss[j - 1], acts[j - 1]); }
      SameLimit(ss[j - 1].tables, ss[j].tables, ss[j].pcs[t].main);
    }
    if ss[j].pcs[t].Room? && j < |acts| && acts[j].Run? && acts[j].t == t { RoomCreates(ss[j], acts[j]); }
  }

  lemma MakesTable(s: State, t: Tid)
    requires Enabled(s, Run(t, true)) && s.pcs[t].Resize?
    ensures var s' := Next(s, Run(t, true));
            && t < |s'.pcs| && s'.pcs[t].Unlock? && s'.pcs[t].main < |s'.tables| && s'.pcs[t].n < s'.tables[s'.pcs[t].main].Limit()
  {
    hide Ready, RunNext;
    ResizeMakesRoom(s, t);
  }

  /** From Unlock only to Room, with the same table and count. */
  lemma UnlockOnly(s: State, a: Action)
    requires Enabled(s, a) && (s.pcs[a.t].Unlock? || s.pcs[a.t].Room?)
    ensures a.Run? && a.t < |Next(s, a).pcs|
    ensures var p, p' := s.pcs[a.t], Next(s, a).pcs[a.t]; p'.Unlock? || p'.Room? ==> p'.main == p.main && p'.n == p.n
  {}

  lemma SameLimit(tables: seq<Table>, tables': seq<Table>, i: nat)
    requires i < |tables| <= |tables'| && tables'[i].c == tables[i].c
    ensures tables'[i].Limit() == tables[i].Limit()
  {}

  lemma RoomCreates(s: State, a: Action)
    requires Enabled(s, a) && a.Run? && s.pcs[a.t].Room? && s.pcs[a.t].main < |s.tables| && s.pcs[a.t].n < s.tables[s.pcs[a.t].main].Limit()
    ensures a.t < |Next(s, a).pcs| && Next(s, a).pcs[a.t].Create?
  {}
}
