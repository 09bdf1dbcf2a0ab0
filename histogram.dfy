/**
 * The participation-rate histogram: numpy's histogram over fixed bucket
 * edges, applied once to the Democratic and once to the Republican subset.
 */
module Histogram {
  import opened Wrappers

  /** The bucket edges `bins`, as exact reals. */
  const EDGES: seq<real> := [0.0, 0.05, 0.10, 0.15, 0.20, 0.25, 0.30, 0.35, 1.0]
  /** One bucket between each pair of neighbouring edges. */
  const BUCKETS: nat := 8
  /** The x-axis labels of the eight buckets. */
  const LABELS: seq<string> := ["0%-5%", "5%-10%", "10%-15%", "15%-20%", "20%-25%", "25%-30%", "30%-35%", "35% & up"]

  /** Is `x` inside bucket `k`? Buckets are half-open [a, b), except the last, which is closed. */
  predicate InBucket(k: nat, x: real)
    requires k < BUCKETS
  {
    EDGES[k] <= x && (x < EDGES[k + 1] || (k == BUCKETS - 1 && x == EDGES[BUCKETS]))
  }

  /** A value numpy counts: one between the first and the last edge, both included. */
  predicate InRange(x: real) {
    EDGES[0] <= x <= EDGES[BUCKETS]
  }

  /** Searches the buckets from `k` upwards for the one holding `x`. */
  function BucketFrom(x: real, k: nat): (b: nat)
    requires k < BUCKETS && EDGES[k] <= x < EDGES[BUCKETS]
    ensures k <= b < BUCKETS && InBucket(b, x)
    decreases BUCKETS - k
  {
    if x < EDGES[k + 1] then k else BucketFrom(x, k + 1)
  }

  /** The bucket numpy puts `x` into, or None when numpy drops it. */
  function Bucket(x: real): (b: Option<nat>)
    ensures b.Some? <==> InRange(x)
    ensures b.Some? ==> b.value < BUCKETS && InBucket(b.value, x)
    ensures forall k :: 0 <= k < BUCKETS && InBucket(k, x) ==> b == Some(k)
  {
    if x < EDGES[0] || x > EDGES[BUCKETS] then None
    else if x == EDGES[BUCKETS] then Some(BUCKETS - 1)
    else Some(BucketFrom(x, 0))
  }

  /** Eight zero counts. */
  const ZEROS: seq<nat> := [0, 0, 0, 0, 0, 0, 0, 0]

  /** Adds one value to a running tally of bucket counts. */
  function Tally(counts: seq<nat>, b: Option<nat>): seq<nat>
    requires |counts| == BUCKETS && (b.Some? ==> b.value < BUCKETS)
  {
    match b
    case None => counts
    case Some(k) => counts[k := counts[k] + 1]
  }

  /** How many of `xs` fall in bucket `k`: the reference definition of one count. */
  function CountIn(xs: seq<real>, k: nat): nat {
    if |xs| == 0 then 0
    else CountIn(xs[1..], k) + (if Bucket(xs[0]) == Some(k) then 1 else 0)
  }

  /** How many of `xs` numpy counts at all. */
  function CountInRange(xs: seq<real>): nat {
    if |xs| == 0 then 0
    else CountInRange(xs[1..]) + (if InRange(xs[0]) then 1 else 0)
  }

  /** `np.histogram(xs, bins)[0]`: one pass over the values, tallying each into its bucket. */
  function Counts(xs: seq<real>): (c: seq<nat>)
    ensures |c| == BUCKETS
    ensures forall k :: 0 <= k < BUCKETS ==> c[k] == CountIn(xs, k)
  {
    if |xs| == 0 then ZEROS
    else Tally(Counts(xs[1..]), Bucket(xs[0]))
  }

  /** The sum of a sequence of counts. */
  function Sum(c: seq<nat>): nat {
    if |c| == 0 then 0 else c[0] + Sum(c[1..])
  }

  /** The largest of a non-empty sequence of counts, like Python's `max`. */
  function Max(c: seq<nat>): (m: nat)
    requires |c| > 0
    ensures m in c
    ensures forall i :: 0 <= i < |c| ==> c[i] <= m
  {
    if |c| == 1 then c[0]
    else
      var rest := Max(c[1..]);
      if c[0] >= rest then c[0] else rest
  }

  /** Adding one to a single count adds one to the sum. */
  lemma {:induction false} SumBump(c: seq<nat>, k: nat)
    requires k < |c|
    ensures Sum(c[k := c[k] + 1]) == Sum(c) + 1
  {
    if k > 0 {
      assert c[k := c[k] + 1][1..] == c[1..][k - 1 := c[k] + 1];
      SumBump(c[1..], k - 1);
    }
  }

  /** A sum of counts is zero only when every count is. */
  lemma {:induction false} SumZero(c: seq<nat>)
    requires Sum(c) == 0
    ensures forall i :: 0 <= i < |c| ==> c[i] == 0
  {
    if |c| > 0 {
      SumZero(c[1..]);
      assert forall i :: 1 <= i < |c| ==> c[i] == c[1..][i - 1];
    }
  }

  /** The counts add up to the number of values in [0, 1]: nothing counted twice, nothing in range dropped. */
  lemma {:induction false} CountsTotal(xs: seq<real>)
    ensures Sum(Counts(xs)) == CountInRange(xs)
  {
    if |xs| > 0 {
      CountsTotal(xs[1..]);
      var b := Bucket(xs[0]);
      if b.Some? {
        SumBump(Counts(xs[1..]), b.value);
      }
    }
  }

  /** Values all outside [0, 1] (in particular, no values) give eight zero counts. */
  lemma NothingInRange(xs: seq<real>)
    requires CountInRange(xs) == 0
    ensures Counts(xs) == ZEROS
  {
    CountsTotal(xs);
    SumZero(Counts(xs));
  }

  /** When every value is in [0, 1], the counts add up to the number of values. */
  lemma {:induction false} CountsCoverAll(xs: seq<real>)
    requires forall i :: 0 <= i < |xs| ==> 0.0 <= xs[i] <= 1.0
    ensures Sum(Counts(xs)) == |xs|
  {
    CountsTotal(xs);
    InRangeCountsAll(xs);
  }

  /** Every value in [0, 1] is counted by CountInRange. */
  lemma {:induction false} InRangeCountsAll(xs: seq<real>)
    requires forall i :: 0 <= i < |xs| ==> 0.0 <= xs[i] <= 1.0
    ensures CountInRange(xs) == |xs|
  {
    if |xs| > 0 {
      InRangeCountsAll(xs[1..]);
    }
  }
}
