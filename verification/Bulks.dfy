/**
  Bulks of jobs as a producer offers them to the queue, one after the other, and what the queue then
  contains: those that it has accepted, whole and in order.
*/
module Bulks {
  import opened Jobs

  datatype Bulk = Bulk(jobs: seq<Socks>, ok: bool)

  function Contents(bs: seq<Bulk>): seq<Socks> {
    if bs == [] then [] else Contents(bs[..|bs| - 1]) + if bs[|bs| - 1].ok then bs[|bs| - 1].jobs else []
  }

  /** Where bulk i begins in the contents. */
  function StartOf(bs: seq<Bulk>, i: nat): nat
    requires i <= |bs|
  {
    |Contents(bs[..i])|
  }

  /** Place p of the contents belongs to bulk i. */
  predicate OfBulk(bs: seq<Bulk>, i: nat, p: nat) {
    i < |bs| && bs[i].ok && StartOf(bs, i) <= p < StartOf(bs, i) + |bs[i].jobs|
  }

  lemma OneMoreBulk(bs: seq<Bulk>, b: Bulk)
    ensures Contents(bs + [b]) == Contents(bs) + if b.ok then b.jobs else []
  {
    assert (bs + [b])[..|bs|] == bs;
  }

  lemma {:induction false} StartsInOrder(bs: seq<Bulk>, i: nat, j: nat)
    requires i <= j <= |bs|
    ensures StartOf(bs, i) <= StartOf(bs, j)
    ensures i < j && bs[i].ok ==> StartOf(bs, i) + |bs[i].jobs| <= StartOf(bs, j)
  {
    if i < j {
      StartsInOrder(bs, i, j - 1);
      assert bs[..j][..j - 1] == bs[..j - 1];
    }
  }

  /** An accepted bulk is one stretch of the contents. */
  lemma {:induction false} StretchOf(bs: seq<Bulk>, i: nat)
    requires i < |bs| && bs[i].ok
    ensures StartOf(bs, i) + |bs[i].jobs| <= |Contents(bs)|
    ensures Contents(bs)[StartOf(bs, i)..StartOf(bs, i) + |bs[i].jobs|] == bs[i].jobs
  {
    var n := |bs| - 1;
    if i < n {
      StretchOf(bs[..n], i);
      assert bs[..n][..i] == bs[..i];
    } else {
      assert bs[..n] == bs[..i];
    }
  }

  /** What stands at a place of a bulk. */
  lemma PlaceOf(bs: seq<Bulk>, i: nat, p: nat)
    requires OfBulk(bs, i, p)
    ensures p < |Contents(bs)| && Contents(bs)[p] == bs[i].jobs[p - StartOf(bs, i)]
  {
    StretchOf(bs, i);
    assert Contents(bs)[p] == Contents(bs)[StartOf(bs, i)..StartOf(bs, i) + |bs[i].jobs|][p - StartOf(bs, i)];
  }

  /** Every place belongs to a bulk. */
  lemma {:induction false} EveryPlace(bs: seq<Bulk>, p: nat) returns (i: nat)
    requires p < |Contents(bs)|
    ensures OfBulk(bs, i, p)
  {
    var n := |bs| - 1;
    if p < |Contents(bs[..n])| {
      i := EveryPlace(bs[..n], p);
      assert bs[..n][..i] == bs[..i] && bs[i] == bs[..n][i];
    } else {
      i := n;
    }
  }

  /** A later place is not of an earlier bulk. */
  lemma InOrder(bs: seq<Bulk>, i: nat, j: nat, p: nat, q: nat)
    requires OfBulk(bs, i, p) && OfBulk(bs, j, q) && p <= q
    ensures i <= j && (p == q ==> i == j)
  {
    if j < i { StartsInOrder(bs, j, i); }
    if i < j { StartsInOrder(bs, i, j); }
  }
}
