/**
  Allocations as the producers see them: a fixed stream of answers of malloc, of which so many have been
  used, and how many of them the blocks and index slots of an implicit producer ask for.
*/
module Allocation {
  /** The calls number `from` to `to` of malloc have all succeeded. */
  predicate Granted(malloc: nat -> bool, from: nat, to: nat) { forall i: nat | from <= i < to :: malloc(i) }

  lemma GrantedOn(malloc: nat -> bool, a: nat, b: nat, c: nat)
    requires Granted(malloc, a, b) && a <= b <= c
    ensures Granted(malloc, a, c) <==> Granted(malloc, b, c)
  {}

  lemma NotGranted(malloc: nat -> bool, a: nat, b: nat, c: nat)
    requires !Granted(malloc, a, b) && b <= c
    ensures !Granted(malloc, a, c)
  {}

  /** The call for a larger index when `live` blocks fill its `cap` slots, and the one for a block when none is free. */
  function DemandOne(cap: nat, free: nat, live: nat): nat { (if live < cap then 0 else 1) + if free > 0 then 0 else 1 }

  /** How many calls it takes to add m blocks to `live` ones, with so many free blocks and slots. */
  function Demand(cap: nat, free: nat, live: nat, m: nat): nat
    decreases m
  {
    if m == 0 then 0
    else DemandOne(cap, free, live) + Demand(if live < cap then cap else 2 * cap, if free > 0 then free - 1 else 0, live + 1, m - 1)
  }

  lemma DemandNext(cap: nat, free: nat, live: nat, m: nat)
    ensures if m == 0 then Demand(cap, free, live, m) == 0
            else Demand(cap, free, live, m) == DemandOne(cap, free, live)
                 + Demand(if live < cap then cap else 2 * cap, if free > 0 then free - 1 else 0, live + 1, m - 1)
  {}

  lemma DemandFirst(cap: nat, free: nat, live: nat, m: nat)
    requires m > 0
    ensures Demand(cap, free, live, 1) == DemandOne(cap, free, live) <= Demand(cap, free, live, m)
  {}

  /** How often a number of slots must be doubled to make n of them. */
  function Doublings(cap: nat, n: nat): nat
    requires cap > 0
    decreases n - cap
  {
    if n <= cap then 0 else 1 + Doublings(2 * cap, n)
  }

  /** One call for each block that is not free, and one for each doubling of the index. */
  lemma {:induction false} DemandIs(cap: nat, free: nat, live: nat, m: nat)
    requires live <= cap && cap > 0
    ensures Demand(cap, free, live, m) == (if m <= free then 0 else m - free) + Doublings(cap, live + m)
    decreases m
  {
    if m > 0 { DemandIs(if live < cap then cap else 2 * cap, if free > 0 then free - 1 else 0, live + 1, m - 1); }
  }

  /** There is nothing to ask for exactly if the blocks are there and the slots are. */
  lemma {:induction false} NoDemand(cap: nat, free: nat, live: nat, m: nat)
    ensures Demand(cap, free, live, m) == 0 <==> m == 0 || (m <= free && live + m <= cap)
    decreases m
  {
    if m > 0 { NoDemand(if live < cap then cap else 2 * cap, if free > 0 then free - 1 else 0, live + 1, m - 1); }
  }
}
