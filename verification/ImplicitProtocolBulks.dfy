/**
  Bulks in runs of module ImplicitProtocol: a bulk is published whole or leaves no trace, the queue
  is the concatenation of the bulks published, and the claims go through it in order, so that no
  two bulks are ever interleaved, however producer and consumers are.
*/
module ImplicitProtocolBulks {
  import opened Jobs
  import opened Options
  import opened Words
  import opened BlockIndex
  import opened BlockNumbers
  import opened Bulks
  import opened ImplicitProtocol
  import opened ImplicitProtocolRuns

  // ---------------------------------------------------------------- what a step does to the contents

  /** The elements of a bulk that may still succeed. */
  function Pending(pp: Producer): Option<seq<Value>> {
    match pp
    case PCheck(xs, _) => Some(xs)
    case PGrow(xs, _) => Some(xs)
    case PKey(xs, _, _) => Some(xs)
    case PTail(xs, _, _) => Some(xs)
    case PTake(xs, _, _) => Some(xs)
    case PNew(xs, _, _) => Some(xs)
    case PReset(xs, _, _, _) => Some(xs)
    case PValue(xs, _, _, _) => Some(xs)
    case PWrite(xs, _, _) => Some(xs)
    case _ => None
  }

  /** The blocks that the bulk has taken from the pool so far. */
  function Holding(pp: Producer): seq<BlockId> {
    match pp
    case PIdle => []
    case PReset(_, chain, _, b) => chain + [b]
    case PValue(_, chain, _, b) => chain + [b]
    case _ => pp.chain
  }

  /** How many of them it has given back. */
  function GivenBack(pp: Producer): nat { if pp.PRollFree? then pp.j else 0 }

  /** The last step of a bulk that succeeds. */
  predicate Publishes(s: State, a: Action) { a.Go? && s.pp.PWrite? && s.pp.j >= |s.pp.xs| }

  /** The blocks that a step takes from the pool for the bulk. */
  function Taken(a: Action): seq<BlockId> { if a.Take? then [a.b] else [] }

  /** The blocks that a step of the producer gives back to the pool. */
  function Freed(s: State, a: Action): seq<BlockId> {
    if a.Go? && s.pp.PRollFree? && s.pp.j < |s.pp.chain| then [s.pp.chain[s.pp.j]] else []
  }

  /** Only the last step of a bulk changes the contents, and it appends all of the bulk. */
  lemma ContentsChange(s: State, a: Action)
    requires Enabled(s, a)
    ensures a.Start? ==> s.pp.PIdle?
    ensures var s' := Next(s, a);
            if Publishes(s, a) then s'.st.log == s.st.log + s.pp.xs && s'.pp.PIdle? && Pending(s.pp) == Some(s.pp.xs)
            else s'.st.log == s.st.log && Pending(s'.pp) == if a.Start? then Some(a.xs) else if a.Fail? then None else Pending(s.pp)
  {
    if a.Go? { GoContents(s); }
  }

  lemma GoContents(s: State)
    requires GoReady(s)
    ensures !Publishes(s, Go) ==> GoNext(s).st.log == s.st.log && Pending(GoNext(s).pp) == Pending(s.pp)
    ensures Publishes(s, Go) ==> GoNext(s).st.log == s.st.log + s.pp.xs && GoNext(s).pp.PIdle?
  {}

  // ---------------------------------------------------------------- the bulks of a run

  /** The elements of the bulk begun last. */
  function LastStart(acts: seq<Action>): seq<Value> {
    if acts == [] then [] else if acts[|acts| - 1].Start? then acts[|acts| - 1].xs else LastStart(acts[..|acts| - 1])
  }

  /** The elements of all bulks begun, in order. */
  function Begun(acts: seq<Action>): seq<seq<Value>> {
    if acts == [] then [] else Begun(acts[..|acts| - 1]) + if acts[|acts| - 1].Start? then [acts[|acts| - 1].xs] else []
  }

  /** The bulks that are over, and whether their elements were published. */
  function Finished(ss: seq<State>, acts: seq<Action>): seq<Bulk>
    requires |ss| == |acts| + 1
  {
    if acts == [] then []
    else
      var n := |acts| - 1;
      Finished(ss[..n + 1], acts[..n])
      + if !ss[n].pp.PIdle? && ss[n + 1].pp.PIdle? then [Bulk(LastStart(acts[..n]), Publishes(ss[n], acts[n]))] else []
  }

  function JobsOf(bs: seq<Bulk>): seq<seq<Socks>> { seq(|bs|, i requires 0 <= i < |bs| => bs[i].jobs) }

  lemma ShorterRun(ss: seq<State>, acts: seq<Action>, n: nat)
    requires IsRun(ss, acts) && n <= |acts|
    ensures IsRun(ss[..n + 1], acts[..n]) && (forall min: nat | AllClaim(acts, min) :: AllClaim(acts[..n], min))
  {
    hide Init, Enabled, Next;
  }

  /**
    The elements of the queue are those of the bulks that succeeded, in the order of the calls, and
    every call is a bulk that is over or the one in progress.
   */
  lemma {:induction false} QueueIsBulks(ss: seq<State>, acts: seq<Action>)
    requires IsRun(ss, acts)
    ensures BulksAre(ss[|acts|], Finished(ss, acts), acts)
  {
    hide Enabled, Next, BulksAre;
    if acts == [] {
      NoBulksYet(ss, acts);
    } else {
      var n := |acts| - 1;
      ShorterRun(ss, acts, n);
      QueueIsBulks(ss[..n + 1], acts[..n]);
      OneMoreAction(ss[n], acts[n], Finished(ss[..n + 1], acts[..n]), acts[..n]);
      assert acts == acts[..n] + [acts[n]];
    }
  }

  ghost predicate BulksAre(s: State, bs: seq<Bulk>, acts: seq<Action>) {
    && s.st.log == Contents(bs)
    && (Pending(s.pp).Some? ==> Pending(s.pp).value == LastStart(acts))
    && Begun(acts) == JobsOf(bs) + if s.pp.PIdle? then [] else [LastStart(acts)]
  }

  lemma NoBulksYet(ss: seq<State>, acts: seq<Action>)
    requires IsRun(ss, acts) && acts == []
    ensures BulksAre(ss[0], [], acts)
  {}

  lemma OneMoreAction(s: State, a: Action, bs: seq<Bulk>, acts: seq<Action>)
    requires Enabled(s, a) && BulksAre(s, bs, acts)
    ensures var bs' := bs + if !s.pp.PIdle? && Next(s, a).pp.PIdle? then [Bulk(LastStart(acts), Publishes(s, a))] else [];
            BulksAre(Next(s, a), bs', acts + [a])
  {
    hide Enabled, Next, Contents, Pending, Publishes;
    ContentsChange(s, a);
    PublishesLast(s, a);
    PublishesLast(Next(s, a), a);
    BulkEnds(s, a);
    var b := Bulk(LastStart(acts), Publishes(s, a));
    assert (acts + [a])[..|acts|] == acts;
    OneMoreBulk(bs, b);
    assert JobsOf(bs + [b]) == JobsOf(bs) + [b.jobs];
    assert bs + [] == bs && Contents(bs) + [] == Contents(bs);
    assert Begun(acts) + [] == Begun(acts) && JobsOf(bs) + [] == JobsOf(bs);
  }

  lemma PublishesLast(s: State, a: Action)
    ensures Publishes(s, a) ==> s.pp.PWrite? && Pending(s.pp) == Some(s.pp.xs)
    ensures s.pp.PIdle? ==> Pending(s.pp) == None
  {}

  /** A bulk ends by a step of the producer. */
  lemma BulkEnds(s: State, a: Action)
    requires Enabled(s, a)
    ensures a.Start? ==> s.pp.PIdle? && !Next(s, a).pp.PIdle?
    ensures s.pp.PIdle? && !a.Start? ==> Next(s, a).pp.PIdle?
  {}

  // ---------------------------------------------------------------- the claims go through the bulks in order

  /** Only a claim moves the head, past exactly what it claims. */
  lemma HeadChange(s: State, a: Action)
    requires Enabled(s, a)
    ensures Next(s, a).st.head == s.st.head + if a.ClaimRange? then a.count else 0
  {
    hide StepNext, StepReady, GoNext, GoReady, TakeNext;
    match a {
      case Go => GoKeeps(s);
      case Take(b) => TakeKeeps(s, b);
      case Step(t) => StepHead(s, t);
      case _ =>
    }
  }

  lemma StepHead(s: State, t: Tid)
    requires StepReady(s, t)
    ensures StepNext(s, t).st.head == s.st.head
  {}

  /** Of two claims in a run the earlier lies wholly before the later. */
  lemma {:induction false} ClaimsInOrder(ss: seq<State>, acts: seq<Action>, i: nat, j: nat)
    requires IsRun(ss, acts) && i < j < |ss| && acts[i].ClaimRange?
    ensures ss[i].st.head + acts[i].count <= ss[j].st.head
  {
    hide Enabled, Next;
    HeadChange(ss[j - 1], acts[j - 1]);
    if i < j - 1 { ClaimsInOrder(ss, acts, i, j - 1); }
  }

  /** Place p of the queue is claimed in action i. */
  predicate ClaimedIn(ss: seq<State>, acts: seq<Action>, i: nat, p: nat)
    requires |ss| == |acts| + 1
  {
    i < |acts| && acts[i].ClaimRange? && ss[i].st.head <= p < ss[i].st.head + acts[i].count
  }

  /**
    Of two places claimed one after the other the first is not of a later bulk: once a claim has
    reached a bulk, no later claim gets an element of the bulks before it.
   */
  lemma NeverInterleaved(ss: seq<State>, acts: seq<Action>, i: nat, j: nat, p: nat, q: nat, m: nat, n: nat)
    requires IsRun(ss, acts) && i < j && ClaimedIn(ss, acts, i, p) && ClaimedIn(ss, acts, j, q)
    requires OfBulk(Finished(ss, acts), m, p) && OfBulk(Finished(ss, acts), n, q)
    ensures p < q && m <= n
  {
    ClaimsInOrder(ss, acts, i, j);
    InOrder(Finished(ss, acts), m, n, p, q);
  }

  /** What a consumer has been handed at place p is the job that stands at that place of the one bulk that holds it. */
  lemma ServedFromBulk(ss: seq<State>, acts: seq<Action>, p: nat) returns (m: nat)
    requires IsRun(ss, acts) && AllClaim(acts, 1) && p in ss[|acts|].st.delivered
    ensures var bs := Finished(ss, acts);
            && OfBulk(bs, m, p) && ss[|acts|].st.delivered[p] == bs[m].jobs[p - StartOf(bs, m)]
            && (forall n: nat | OfBulk(bs, n, p) :: n == m)
  {
    hide Init, Enabled, Next, AllClaim;
    DeliveredIs(ss, acts, p);
    LogIsBulks(ss, acts);
    m := TheBulk(Finished(ss, acts), p);
  }

  lemma TheBulk(bs: seq<Bulk>, p: nat) returns (m: nat)
    requires p < |Contents(bs)|
    ensures OfBulk(bs, m, p) && Contents(bs)[p] == bs[m].jobs[p - StartOf(bs, m)] && forall n: nat | OfBulk(bs, n, p) :: n == m
  {
    hide OfBulk, Contents, StartOf;
    m := EveryPlace(bs, p);
    PlaceOf(bs, m, p);
    forall n: nat | OfBulk(bs, n, p) ensures n == m { InOrder(bs, m, n, p, p); }
  }

  lemma LogIsBulks(ss: seq<State>, acts: seq<Action>)
    requires IsRun(ss, acts)
    ensures ss[|acts|].st.log == Contents(Finished(ss, acts))
  {
    hide Finished, Contents;
    QueueIsBulks(ss, acts);
  }

  lemma DeliveredIs(ss: seq<State>, acts: seq<Action>, p: nat)
    requires IsRun(ss, acts) && AllClaim(acts, 1) && p in ss[|acts|].st.delivered
    ensures p < |ss[|acts|].st.log| && ss[|acts|].st.delivered[p] == ss[|acts|].st.log[p]
  {
    hide Init, Enabled, Next, AllClaim, Served;
    AlwaysFifo(ss, acts);
    assert FirstInFirstOut(ss[|acts|]);
  }

  // ---------------------------------------------------------------- a bulk is published whole or leaves no trace

  /** The blocks taken from the pool by the actions from i on. */
  function TakenIn(acts: seq<Action>, i: nat, j: nat): seq<BlockId>
    requires i <= j <= |acts|
  {
    if i == j then [] else TakenIn(acts, i, j - 1) + Taken(acts[j - 1])
  }

  /** The blocks given back by the producer in the actions from i on. */
  function FreedIn(ss: seq<State>, acts: seq<Action>, i: nat, j: nat): seq<BlockId>
    requires i <= j <= |acts| == |ss| - 1
  {
    if i == j then [] else FreedIn(ss, acts, i, j - 1) + Freed(ss[j - 1], acts[j - 1])
  }

  lemma StartHolds(s: State, a: Action)
    requires Enabled(s, a) && a.Start?
    ensures Holding(Next(s, a).pp) == [] && GivenBack(Next(s, a).pp) == 0 && Taken(a) == [] && Freed(s, a) == []
  {}

  /** A step of a bulk takes a block or gives the next one back, or neither. */
  lemma HoldingChange(s: State, a: Action)
    requires Enabled(s, a) && !s.pp.PIdle? && GivenBack(s.pp) <= |Holding(s.pp)|
    ensures var pp, pp' := s.pp, Next(s, a).pp;
            && GivenBack(pp) + |Freed(s, a)| <= |Holding(pp)| && Freed(s, a) == Holding(pp)[GivenBack(pp)..GivenBack(pp) + |Freed(s, a)|]
            && (!pp'.PIdle? ==> Holding(pp') == Holding(pp) + Taken(a) && GivenBack(pp') == GivenBack(pp) + |Freed(s, a)| <= |Holding(pp')|)
            && (pp'.PIdle? ==> Taken(a) == [] && GivenBack(pp) + |Freed(s, a)| == if Publishes(s, a) then 0 else |Holding(pp)|)
  {
    if a.Go? { GoHolds(s); } else if a.Fail? { FailHolds(s); }
  }

  lemma FailHolds(s: State)
    requires s.pp.PCheck? || s.pp.PGrow? || s.pp.PNew?
    ensures var pp, pp' := s.pp, FailNext(s).pp;
            GivenBack(pp) == GivenBack(pp') == 0 && if pp'.PIdle? then Holding(pp) == [] else Holding(pp') == Holding(pp)
  {}

  lemma GoHolds(s: State)
    requires GoReady(s)
    ensures var pp, pp' := s.pp, GoNext(s).pp;
            && GivenBack(pp) + |Freed(s, Go)| <= |Holding(pp)| && Freed(s, Go) == Holding(pp)[GivenBack(pp)..GivenBack(pp) + |Freed(s, Go)|]
            && (!pp'.PIdle? ==> Holding(pp') == Holding(pp) && GivenBack(pp') == GivenBack(pp) + |Freed(s, Go)| <= |Holding(pp')|)
            && (pp'.PIdle? ==> GivenBack(pp) + |Freed(s, Go)| == if Publishes(s, Go) then 0 else |Holding(pp)|)
  {}

  /** While a bulk that began in state i is in progress. */
  ghost predicate InBulk(ss: seq<State>, acts: seq<Action>, i: nat, m: nat)
    requires i < m < |ss| == |acts| + 1 && acts[i].Start?
  {
    var pp := ss[m].pp;
    && ss[m].st.log == ss[i].st.log
    && Pending(pp) == (if exists n | i < n < m :: acts[n].Fail? then None else Some(acts[i].xs))
    && Holding(pp) == TakenIn(acts, i, m) && GivenBack(pp) <= |Holding(pp)| && FreedIn(ss, acts, i, m) == Holding(pp)[..GivenBack(pp)]
  }

  lemma {:induction false} DuringBulk(ss: seq<State>, acts: seq<Action>, i: nat, m: nat)
    requires IsRun(ss, acts) && i < m < |ss| && acts[i].Start? && forall n | i < n <= m :: !ss[n].pp.PIdle?
    ensures InBulk(ss, acts, i, m)
  {
    hide Enabled, Next, Holding, GivenBack, Taken, Freed, Pending;
    if m > i + 1 {
      DuringBulk(ss, acts, i, m - 1);
      BulkGoesOn(ss, acts, i, m - 1);
    } else {
      ContentsChange(ss[i], acts[i]);
      StartHolds(ss[i], acts[i]);
      assert TakenIn(acts, i, m) == TakenIn(acts, i, i) + Taken(acts[i]) == [];
      assert FreedIn(ss, acts, i, m) == FreedIn(ss, acts, i, i) + Freed(ss[i], acts[i]) == [];
    }
  }

  lemma BulkGoesOn(ss: seq<State>, acts: seq<Action>, i: nat, m: nat)
    requires i < m < |acts| == |ss| - 1 && Enabled(ss[m], acts[m]) && ss[m + 1] == Next(ss[m], acts[m])
    requires acts[i].Start? && !ss[m].pp.PIdle? && !ss[m + 1].pp.PIdle? && InBulk(ss, acts, i, m)
    ensures InBulk(ss, acts, i, m + 1)
  {
    hide Enabled, Next, Holding, GivenBack, Taken, Freed, Pending;
    ContentsChange(ss[m], acts[m]);
    HoldingChange(ss[m], acts[m]);
    var g, f := GivenBack(ss[m].pp), Freed(ss[m], acts[m]);
    var all := Holding(ss[m + 1].pp);
    var had := Holding(ss[m].pp);
    assert all[..g] == had[..g] && all[g..g + |f|] == had[g..g + |f|] == f;
    assert FreedIn(ss, acts, i, m + 1) == had[..g] + f == all[..g + |f|];
    assert TakenIn(acts, i, m + 1) == all;
    assert ss[m + 1].st.log == ss[i].st.log;
    assert (exists n | i < n < m + 1 :: acts[n].Fail?) <==> (exists n | i < n < m :: acts[n].Fail?) || acts[m].Fail?;
  }

  /** Some step of a bulk found no memory, no block, or an index that may not grow. */
  predicate Refused(acts: seq<Action>, i: nat, j: nat)
    requires j <= |acts|
  {
    exists m | i < m < j :: acts[m].Fail?
  }

  predicate Different(blocks: seq<BlockId>) { forall x, y | 0 <= x < y < |blocks| :: blocks[x] != blocks[y] }

  /**
    A bulk starts in state i and is over in state j.  It is refused exactly if some step was a Fail.
    Otherwise it has published exactly its elements, with as many new blocks as they need.  A refused
    bulk leaves the contents and the tail of the block index as they were, and has given back each
    block that it took, once.
   */
  lemma BulkWholeOrNot(ss: seq<State>, acts: seq<Action>, i: nat, j: nat)
    requires IsRun(ss, acts) && AllClaim(acts, 1) && i < j < |ss| && acts[i].Start?
    requires ss[j].pp.PIdle? && forall m | i < m < j :: !ss[m].pp.PIdle?
    ensures !Refused(acts, i, j) ==>
              && ss[j].st.log == ss[i].st.log + acts[i].xs && FreedIn(ss, acts, i, j) == []
              && |TakenIn(acts, i, j)| == Published(ss[j].k, ss[j].st) - Published(ss[i].k, ss[i].st)
    ensures Refused(acts, i, j) ==>
              && ss[j].st.log == ss[i].st.log && FreedIn(ss, acts, i, j) == TakenIn(acts, i, j) && Different(TakenIn(acts, i, j))
              && ss[i].ix.headers != [] && ss[j].ix.headers != [] && ss[j].ix.Cur().tn == ss[i].ix.Cur().tn
              && OnlyChain(ss[j].st.blockOf, Published(ss[j].k, ss[j].st), 0)
  {
    hide IsRun, Inv, Refused, Different, OnlyChain, TakenIn, FreedIn, Published, AllClaim;
    RunInvariant(ss, acts, i);
    RunInvariant(ss, acts, j);
    SameSize(ss, acts, i, j);
    BulkOver(ss, acts, i, j);
    BlocksOf(ss[i]);
    BlocksOf(ss[j]);
    StartsIdle(ss, acts, i);
    IdleTail(ss[i]);
    IdleTail(ss[j]);
  }

  lemma StartsIdle(ss: seq<State>, acts: seq<Action>, i: nat)
    requires IsRun(ss, acts) && i + 1 < |ss| && acts[i].Start?
    ensures ss[i].pp.PIdle?
  {
    hide Init, Next;
  }

  lemma BlocksOf(s: State)
    ensures Published(s.k, s.st) == Blocks(|s.st.log|, Pow2(s.k))
  {}

  lemma BulkOver(ss: seq<State>, acts: seq<Action>, i: nat, j: nat)
    requires IsRun(ss, acts) && AllClaim(acts, 1) && i < j < |ss| && acts[i].Start?
    requires ss[j].pp.PIdle? && forall m | i < m < j :: !ss[m].pp.PIdle?
    ensures BulkIs(ss, acts, i, j, ss[j].k)
  {
    hide Init, Enabled, Next, AllClaim, Inv, InBulk, BulkIs;
    BulkEnds(ss[i], acts[i]);
    DuringBulk(ss, acts, i, j - 1);
    RunInvariant(ss, acts, j - 1);
    SameSize(ss, acts, j - 1, j);
    LastStep(ss, acts, i, j - 1);
  }

  lemma {:induction false} SameSize(ss: seq<State>, acts: seq<Action>, i: nat, j: nat)
    requires IsRun(ss, acts) && i <= j < |ss|
    ensures ss[j].k == ss[i].k
  {
    hide Init, Enabled, Next;
    if i < j {
      SameSize(ss, acts, i, j - 1);
      StepSize(ss[j - 1], acts[j - 1]);
    }
  }

  lemma StepSize(s: State, a: Action)
    requires Enabled(s, a)
    ensures Next(s, a).k == s.k
  {}

  lemma IdleTail(s: State)
    requires Inv(s) && s.pp.PIdle?
    ensures s.ix.headers != [] && s.ix.Cur().tn + 1 == Published(s.k, s.st) && OnlyChain(s.st.blockOf, Published(s.k, s.st), 0)
  {}

  /** The blocks in the producer's hands at the end. */
  lemma LastHolds(s: State)
    requires Inv(s)
    ensures s.pp.PRollFree? ==> Different(Holding(s.pp))
    ensures s.pp.PWrite? ==> Published(s.k, s.st) + |Holding(s.pp)| == Blocks(|s.st.log| + |s.pp.xs|, Pow2(s.k))
  {
    hide IndexOk, Bound, Counted, Claimed, Stored, Consumers, AllAttended, OnlyChain, Chained, ContentOk;
  }

  lemma EndsHow(s: State, a: Action)
    requires Enabled(s, a) && !s.pp.PIdle? && Next(s, a).pp.PIdle?
    ensures Publishes(s, a) || s.pp.PRollFree? || Holding(s.pp) == []
    ensures Publishes(s, a) ==> s.pp.PWrite?
    ensures Publishes(s, a) <==> !a.Fail? && Pending(s.pp).Some?
    ensures a.Fail? ==> Pending(s.pp).Some?
  {}

  ghost predicate BulkIs(ss: seq<State>, acts: seq<Action>, i: nat, j: nat, k: nat)
    requires i < j < |ss| == |acts| + 1 && acts[i].Start?
  {
    if Refused(acts, i, j) then
      ss[j].st.log == ss[i].st.log && FreedIn(ss, acts, i, j) == TakenIn(acts, i, j) && Different(TakenIn(acts, i, j))
    else
      && ss[j].st.log == ss[i].st.log + acts[i].xs && FreedIn(ss, acts, i, j) == []
      && |TakenIn(acts, i, j)| == Blocks(|ss[j].st.log|, Pow2(k)) - Blocks(|ss[i].st.log|, Pow2(k))
  }

  lemma LastStep(ss: seq<State>, acts: seq<Action>, i: nat, m: nat)
    requires i < m < |acts| == |ss| - 1 && Enabled(ss[m], acts[m]) && ss[m + 1] == Next(ss[m], acts[m])
    requires acts[i].Start? && !ss[m].pp.PIdle? && ss[m + 1].pp.PIdle? && InBulk(ss, acts, i, m) && Inv(ss[m])
    ensures BulkIs(ss, acts, i, m + 1, ss[m].k)
  {
    hide Enabled, Next, Inv, Holding, GivenBack, Taken, Freed, Pending, Publishes, TakenIn, FreedIn, Different;
    ContentsChange(ss[m], acts[m]);
    HoldingChange(ss[m], acts[m]);
    EndsHow(ss[m], acts[m]);
    LastHolds(ss[m]);
    assert Refused(acts, i, m + 1) <==> (exists n | i < n < m :: acts[n].Fail?) || acts[m].Fail?;
    LastTaken(ss, acts, i, m);
    Slices(Holding(ss[m].pp), GivenBack(ss[m].pp), |Freed(ss[m], acts[m])|);
    NoneDifferent();
  }

  lemma LastTaken(ss: seq<State>, acts: seq<Action>, i: nat, m: nat)
    requires i < m < |acts| == |ss| - 1
    ensures TakenIn(acts, i, m + 1) == TakenIn(acts, i, m) + Taken(acts[m])
    ensures FreedIn(ss, acts, i, m + 1) == FreedIn(ss, acts, i, m) + Freed(ss[m], acts[m])
  {}

  lemma Slices(s: seq<BlockId>, g: nat, n: nat)
    requires g + n <= |s|
    ensures s[..g] + s[g..g + n] == s[..g + n] && s[..|s|] == s && s + [] == s && s[..0] == []
  {}

  lemma NoneDifferent()
    ensures Different([])
  {}
}
