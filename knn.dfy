/**
 * The neighbour selection and the vote shared by the three k-nearest-
 * neighbour classifiers `NearestNeighbor`, `NearestNeighbor1` and
 * `NearestNeighbor2`. The distance function is a parameter (only its
 * comparisons matter); the selection is the source's nested swap loop on
 * the parallel arrays `distance` and `id`, modelled by the functions `Scan`
 * (one inner pass) and `Passes` (the outer loop).
 */
module Knn {
  import opened Votes
  import opened Scores

  /** A training record: real-valued attributes and a class in 1..C. */
  datatype Sample = Sample(attributes: seq<real>, className: int)

  /** `distance(u, v)`, the classifier's distance between two attribute vectors. */
  type Metric = (seq<real>, seq<real>) -> real

  /** The source's distances are square roots, never negative. */
  ghost predicate NonNegative(metric: Metric)
  {
    forall u, v :: 0.0 <= metric(u, v)
  }

  /** Every class is one of 1..c. */
  predicate Labelled(records: seq<Sample>, c: int)
  {
    forall t :: 0 <= t < |records| ==> 1 <= records[t].className <= c
  }

  /** The number of loop rounds `for (i = 0; i < k; i++)` makes. */
  function Count(k: int): nat
  {
    if k < 0 then 0 else k
  }

  /** Position t of the parallel arrays: the distance and the record index stored there. */
  type Entry = (real, int)

  /** The parallel arrays `distance` and `id` read as one sequence of entries. */
  function Zip(distance: seq<real>, id: seq<int>): (z: seq<Entry>)
    requires |distance| == |id|
    ensures |z| == |distance|
  {
    seq(|distance|, t requires 0 <= t < |distance| => (distance[t], id[t]))
  }

  /** Exchange entries i and j; the source swaps both arrays in lock-step. */
  function Swap(p: seq<Entry>, i: nat, j: nat): (r: seq<Entry>)
    requires i < |p| && j < |p|
    ensures |r| == |p|
    ensures r[i] == p[j] && r[j] == p[i]
    ensures forall t :: 0 <= t < |p| && t != i && t != j ==> r[t] == p[t]
  {
    p[i := p[j]][j := p[i]]
  }

  /** One step of the inner loop: entry `j` moves to position `i` when it is strictly closer. */
  function Step(p: seq<Entry>, i: nat, j: nat): (r: seq<Entry>)
    requires i < |p| && j < |p|
    ensures |r| == |p|
    ensures r[i].0 <= p[i].0 && r[i].0 <= p[j].0
    ensures r[i] == p[i] || r[i] == p[j]
  {
    if p[i].0 > p[j].0 then Swap(p, i, j) else p
  }

  /** The inner loop of `nearestNeighbor` from position `j` up to `n`. */
  function Scan(p: seq<Entry>, i: nat, j: nat, n: nat): (r: seq<Entry>)
    requires i <= j && n <= |p|
    ensures |r| == |p|
    decreases n - j
  {
    if j >= n then p else Scan(Step(p, i, j), i, j + 1, n)
  }

  /** The outer loop of `nearestNeighbor` from round `i` on, for `k` rounds over the first `n` entries. */
  function Passes(p: seq<Entry>, i: nat, k: int, n: nat): (r: seq<Entry>)
    requires n <= |p|
    ensures |r| == |p|
    decreases k - i
  {
    if i >= k then p else Passes(Scan(p, i, i, n), i + 1, k, n)
  }

  /** Entries only move: the inner pass is a permutation. */
  lemma {:induction false} ScanPermutes(p: seq<Entry>, i: nat, j: nat, n: nat)
    requires i <= j && n <= |p|
    ensures multiset(Scan(p, i, j, n)) == multiset(p)
    decreases n - j
  {
    if j < n {
      if p[i].0 > p[j].0 {
        assert multiset(Swap(p, i, j)) == multiset(p);
      }
      ScanPermutes(Step(p, i, j), i, j + 1, n);
    }
  }

  /** Entries only move: the whole selection is a permutation. */
  lemma {:induction false} PassesPermutes(p: seq<Entry>, i: nat, k: int, n: nat)
    requires n <= |p|
    ensures multiset(Passes(p, i, k, n)) == multiset(p)
    decreases k - i
  {
    if i < k {
      ScanPermutes(p, i, i, n);
      PassesPermutes(Scan(p, i, i, n), i + 1, k, n);
    }
  }

  /** The first `i` positions hold the smallest distances among the first `n`, in non-decreasing order. */
  predicate Selected(p: seq<Entry>, i: int, n: nat)
    requires n <= |p|
  {
    forall a, b :: 0 <= a < i && a <= b < n ==> p[a].0 <= p[b].0
  }

  /** No position before `i` is farther than a position in `i..n`. */
  predicate Bounded(p: seq<Entry>, i: nat, n: nat)
    requires n <= |p|
  {
    forall a, b :: 0 <= a < i && i <= b < n ==> p[a].0 <= p[b].0
  }

  /** No record index is stored twice. */
  predicate DistinctIds(p: seq<Entry>)
  {
    forall a, b :: 0 <= a < b < |p| ==> p[a].1 != p[b].1
  }

  /** One step keeps the closest entry seen so far at position `i`. */
  lemma StepFacts(p: seq<Entry>, i: nat, j: nat, n: nat)
    requires i <= j < n <= |p|
    requires forall t :: i <= t < j ==> p[i].0 <= p[t].0
    requires Bounded(p, i, n)
    ensures forall t :: 0 <= t < |p| && (t < i || n <= t) ==> Step(p, i, j)[t] == p[t]
    ensures forall t :: i <= t < j + 1 ==> Step(p, i, j)[i].0 <= Step(p, i, j)[t].0
    ensures Bounded(Step(p, i, j), i, n)
    ensures DistinctIds(p) ==> DistinctIds(Step(p, i, j))
  {
  }

  /**
   * One inner pass leaves the closest of the entries `i..n` at position
   * `i`, touches no position outside `i..n`, and keeps the entries before
   * `i` no farther than those in `i..n`.
   */
  lemma {:induction false} ScanFacts(p: seq<Entry>, i: nat, j: nat, n: nat)
    requires i <= j && n <= |p|
    requires forall t :: i <= t < j && t < n ==> p[i].0 <= p[t].0
    requires Bounded(p, i, n)
    ensures forall t :: 0 <= t < |p| && (t < i || n <= t) ==> Scan(p, i, j, n)[t] == p[t]
    ensures forall t :: i <= t < n ==> Scan(p, i, j, n)[i].0 <= Scan(p, i, j, n)[t].0
    ensures Bounded(Scan(p, i, j, n), i, n)
    ensures DistinctIds(p) ==> DistinctIds(Scan(p, i, j, n))
    decreases n - j
  {
    if j < n {
      StepFacts(p, i, j, n);
      ScanFacts(Step(p, i, j), i, j + 1, n);
    }
  }

  /**
   * After the outer loop the first `k` positions hold the `k` smallest
   * distances of the first `n` entries, in non-decreasing order; entries
   * only move, ids stay distinct, and positions from `n` on are untouched.
   */
  lemma {:induction false} PassesFacts(p: seq<Entry>, i: nat, k: int, n: nat)
    requires n <= |p| && Selected(p, i, n)
    ensures Selected(Passes(p, i, k, n), k, n)
    ensures forall t :: n <= t < |p| ==> Passes(p, i, k, n)[t] == p[t]
    ensures DistinctIds(p) ==> DistinctIds(Passes(p, i, k, n))
    decreases k - i
  {
    if i < k {
      var q := Scan(p, i, i, n);
      ScanFacts(p, i, i, n);
      PassesFacts(q, i + 1, k, n);
    }
  }

  /** The arrays `distance` and `id` hold the entries `p`. */
  ghost predicate Holds(distance: array<real>, id: array<int>, p: seq<Entry>)
    reads distance, id
  {
    distance.Length == |p| && id.Length == |p| &&
    forall t :: 0 <= t < |p| ==> distance[t] == p[t].0 && id[t] == p[t].1
  }

  /**
   * `nearestNeighbor(distance, id)` over the first `n` entries: `k` rounds
   * of the inner scan, each swapping `distance` and `id` together.
   */
  method Select(distance: array<real>, id: array<int>, k: int, n: nat)
    requires distance.Length == id.Length && n <= distance.Length
    modifies distance, id
    ensures Holds(distance, id, Passes(Zip(old(distance[..]), old(id[..])), 0, k, n))
  {
    ghost var p := Zip(distance[..], id[..]);
    ghost var goal := Passes(p, 0, k, n);
    var i := 0;
    while i < k
      invariant 0 <= i && (i <= k || i == 0)
      invariant Holds(distance, id, p) && n <= |p|
      invariant Passes(p, i, k, n) == goal
    {
      ScanRound(distance, id, i, n, p);
      p := Scan(p, i, i, n);
      i := i + 1;
    }
  }

  /** Round `i` of the outer loop: the inner loop over `j` in `i..n`. */
  method ScanRound(distance: array<real>, id: array<int>, i: nat, n: nat, ghost p: seq<Entry>)
    requires Holds(distance, id, p) && n <= |p|
    modifies distance, id
    ensures Holds(distance, id, Scan(p, i, i, n))
  {
    ghost var q := p;
    var j := i;
    while j < n
      invariant i <= j && (j <= n || j == i)
      invariant Holds(distance, id, q) && |q| == |p|
      invariant Scan(q, i, j, n) == Scan(p, i, i, n)
    {
      CompareAndSwap(distance, id, i, j, q);
      q := Step(q, i, j);
      j := j + 1;
    }
  }

  /** The body of the inner loop: when `distance[i] > distance[j]`, swap entries `i` and `j` of both arrays. */
  method CompareAndSwap(distance: array<real>, id: array<int>, i: nat, j: nat, ghost p: seq<Entry>)
    requires Holds(distance, id, p) && i < |p| && j < |p|
    modifies distance, id
    ensures Holds(distance, id, Step(p, i, j))
  {
    if distance[i] > distance[j] {
      var tempDistance := distance[i];
      distance[i] := distance[j];
      distance[j] := tempDistance;
      var tempId := id[i];
      id[i] := id[j];
      id[j] := tempId;
    }
  }

  /** `id[i] = i`: every record starts as its own entry. */
  function Ids(n: nat): (ids: seq<int>)
    ensures |ids| == n && forall t :: 0 <= t < n ==> ids[t] == t
  {
    seq(n, t => t)
  }

  /** `distance[i] = distance(attributes, records[i].attributes)` for every record. */
  function Distances(records: seq<Sample>, query: seq<real>, metric: Metric): (d: seq<real>)
    ensures |d| == |records|
    ensures forall t :: 0 <= t < |records| ==> d[t] == metric(query, records[t].attributes)
  {
    seq(|records|, t requires 0 <= t < |records| => metric(query, records[t].attributes))
  }

  /** The entries of `distance` and `id` once `nearestNeighbor` has run over all records. */
  function Ranked(records: seq<Sample>, query: seq<real>, metric: Metric, k: int): (r: seq<Entry>)
    ensures |r| == |records|
  {
    Passes(Zip(Distances(records, query, metric), Ids(|records|)), 0, k, |records|)
  }

  /**
   * Every entry after the selection is a record with its own distance,
   * each record has exactly one entry, and the first `k` entries are the
   * closest, in non-decreasing order.
   */
  lemma RankedEntries(records: seq<Sample>, query: seq<real>, metric: Metric, k: int)
    ensures forall t :: 0 <= t < |records| ==>
              0 <= Ranked(records, query, metric, k)[t].1 < |records| &&
              Ranked(records, query, metric, k)[t].0 == metric(query, records[Ranked(records, query, metric, k)[t].1].attributes)
    ensures DistinctIds(Ranked(records, query, metric, k))
    ensures Selected(Ranked(records, query, metric, k), k, |records|)
    ensures forall y :: 0 <= y < |records| ==> (metric(query, records[y].attributes), y) in Ranked(records, query, metric, k)
  {
    var n := |records|;
    var d := Distances(records, query, metric);
    var z := Zip(d, Ids(n));
    var r := Ranked(records, query, metric, k);
    assert forall t :: 0 <= t < n ==> z[t] == (d[t], t);
    PassesFacts(z, 0, k, n);
    PassesPermutes(z, 0, k, n);
    forall t | 0 <= t < n
      ensures 0 <= r[t].1 < n && r[t].0 == metric(query, records[r[t].1].attributes)
    {
      assert r[t] in multiset(z);
      var u :| 0 <= u < n && z[u] == r[t];
    }
    forall y | 0 <= y < n
      ensures (metric(query, records[y].attributes), y) in r
    {
      assert z[y] in multiset(r);
    }
  }

  /** The record indices of the first `k` entries, `id[0..k)`: the neighbours. */
  function Neighbours(records: seq<Sample>, query: seq<real>, metric: Metric, k: int): (ids: seq<int>)
    requires k <= |records|
    ensures |ids| == Count(k)
    ensures forall a :: 0 <= a < |ids| ==> 0 <= ids[a] < |records|
  {
    RankedEntries(records, query, metric, k);
    seq(Count(k), a requires 0 <= a < Count(k) => Ranked(records, query, metric, k)[a].1)
  }

  /**
   * `ids` are distinct records in non-decreasing order of their distance
   * to `query`, and no record left out is closer than any of them.
   */
  ghost predicate Nearest(records: seq<Sample>, query: seq<real>, metric: Metric, ids: seq<int>)
  {
    (forall a :: 0 <= a < |ids| ==> 0 <= ids[a] < |records|) &&
    (forall a, b :: 0 <= a < b < |ids| ==> ids[a] != ids[b]) &&
    (forall a, b :: 0 <= a <= b < |ids| ==>
       metric(query, records[ids[a]].attributes) <= metric(query, records[ids[b]].attributes)) &&
    (forall a, y :: 0 <= a < |ids| && 0 <= y < |records| && y !in ids ==>
       metric(query, records[ids[a]].attributes) <= metric(query, records[y].attributes))
  }

  /** The selection finds the `k` nearest records. */
  lemma NeighboursAreNearest(records: seq<Sample>, query: seq<real>, metric: Metric, k: int)
    requires k <= |records|
    ensures Nearest(records, query, metric, Neighbours(records, query, metric, k))
  {
    RankedEntries(records, query, metric, k);
    LeftOutNotCloser(records, query, metric, k);
  }

  /** No record outside the neighbours is closer than a neighbour. */
  lemma LeftOutNotCloser(records: seq<Sample>, query: seq<real>, metric: Metric, k: int)
    requires k <= |records|
    ensures var ids := Neighbours(records, query, metric, k);
            forall a, y :: 0 <= a < |ids| && 0 <= y < |records| && y !in ids ==>
              metric(query, records[ids[a]].attributes) <= metric(query, records[y].attributes)
  {
    var n := |records|;
    var r := Ranked(records, query, metric, k);
    var ids := Neighbours(records, query, metric, k);
    RankedEntries(records, query, metric, k);
    assert forall b :: 0 <= b < |ids| ==> ids[b] == r[b].1;
    forall a, y | 0 <= a < |ids| && 0 <= y < n && y !in ids
      ensures metric(query, records[ids[a]].attributes) <= metric(query, records[y].attributes)
    {
      assert (metric(query, records[y].attributes), y) in r;
      var t :| 0 <= t < n && r[t] == (metric(query, records[y].attributes), y);
      assert |ids| <= t;
    }
  }

  /** The weight formulas of the weighted vote. */
  datatype Weighting =
    | Offset      // `1 / (d + 0.001)`
    | Reciprocal  // `1 / d`, and `1 / (d + 0.001)` at distance 0

  /** The weight a neighbour at distance `d` adds to its class. */
  function Weight(w: Weighting, d: real): (r: real)
    requires 0.0 <= d
    ensures 0.0 < r
  {
    match w
    case Offset => 1.0 / (d + 0.001)
    case Reciprocal => if d == 0.0 then 1.0 / (d + 0.001) else 1.0 / d
  }

  /** Of two neighbours the closer one weighs more, except that `1 / d` puts distance 0 apart. */
  lemma CloserWeighsMore(w: Weighting, d: real, e: real)
    requires 0.0 <= d < e && (w == Reciprocal ==> 0.0 < d)
    ensures Weight(w, e) < Weight(w, d)
  {
  }

  /**
   * Under `1 / d` a neighbour at distance 0 weighs 1000, less than one at
   * any distance below 0.001.
   */
  lemma ExactMatchWeighsLess(e: real)
    requires 0.0 < e < 0.001
    ensures Weight(Reciprocal, 0.0) == 1000.0 < Weight(Reciprocal, e)
  {
  }

  /** The classes of the neighbours `ids[0..k)`. */
  function NeighbourLabels(records: seq<Sample>, ids: seq<int>, k: int): (labels: seq<int>)
    requires Count(k) <= |ids| && forall a :: 0 <= a < Count(k) ==> 0 <= ids[a] < |records|
    ensures |labels| == Count(k)
    ensures forall a :: 0 <= a < Count(k) ==> labels[a] == records[ids[a]].className
  {
    seq(Count(k), a requires 0 <= a < Count(k) => records[ids[a]].className)
  }

  /**
   * What each neighbour adds to its class: 1 under the rule "unweighted",
   * otherwise the weight of its distance `distance(records[id].attributes,
   * attributes)`.
   */
  function NeighbourWeights(records: seq<Sample>, ids: seq<int>, k: int, query: seq<real>,
                            metric: Metric, rule: string, w: Weighting): (weights: seq<real>)
    requires Count(k) <= |ids| && forall a :: 0 <= a < Count(k) ==> 0 <= ids[a] < |records|
    requires NonNegative(metric)
    ensures |weights| == Count(k)
    ensures forall a :: 0 <= a < Count(k) ==> 0.0 < weights[a]
    ensures rule == "unweighted" ==> weights == Ones(Count(k))
  {
    if rule == "unweighted" then Ones(Count(k))
    else
      var weights := seq(Count(k), a requires 0 <= a < Count(k) => Weight(w, metric(records[ids[a]].attributes, query)));
      assert forall a :: 0 <= a < Count(k) ==> weights[a] == Weight(w, metric(records[ids[a]].attributes, query));
      weights
  }

  /**
   * `classify(attributes)`: the vote of the `k` nearest records, the
   * smallest class with the largest total. With no class at all the
   * answer is class 1.
   */
  function Predict(records: seq<Sample>, query: seq<real>, metric: Metric, k: int, c: nat,
                   rule: string, w: Weighting): (className: int)
    requires Labelled(records, c) && k <= |records| && NonNegative(metric)
    ensures c == 0 ==> className == 1
    ensures c > 0 ==> 1 <= className <= c
  {
    var ids := Neighbours(records, query, metric, k);
    Vote(NeighbourLabels(records, ids, k), NeighbourWeights(records, ids, k, query, metric, rule, w), c)
  }

  /**
   * Under the rule "unweighted" the answer is the smallest class that the
   * most of the `k` nearest records belong to, and the votes add up to `k`.
   */
  lemma UnweightedPrediction(records: seq<Sample>, query: seq<real>, metric: Metric, k: int, c: nat, w: Weighting)
    requires Labelled(records, c) && k <= |records| && NonNegative(metric) && c > 0
    ensures var labels := NeighbourLabels(records, Neighbours(records, query, metric, k), k);
            var m := Predict(records, query, metric, k, c, "unweighted", w);
            Sum(Tally(labels, Ones(Count(k)), c)) == Count(k) as real &&
            (forall x :: 1 <= x <= c ==> Occurrences(labels, x) <= Occurrences(labels, m)) &&
            (forall x :: 1 <= x < m ==> Occurrences(labels, x) < Occurrences(labels, m))
  {
    var labels := NeighbourLabels(records, Neighbours(records, query, metric, k), k);
    UnweightedWinner(labels, c);
    UnweightedTotal(labels, c);
  }

  /**
   * `majority(id, attributes)`: tally the classes of the neighbours
   * `id[0..k)`, then answer the first class with the largest entry.
   */
  method Majority(records: seq<Sample>, id: array<int>, k: int, c: nat, query: seq<real>,
                  metric: Metric, rule: string, w: Weighting) returns (className: int)
    requires Labelled(records, c) && NonNegative(metric)
    requires Count(k) <= id.Length && forall a :: 0 <= a < Count(k) ==> 0 <= id[a] < |records|
    ensures className == Vote(NeighbourLabels(records, id[..], k), NeighbourWeights(records, id[..], k, query, metric, rule, w), c)
  {
    var frequency := Frequencies(records, id, k, c, query, metric, rule, w);
    var maxIndex := FirstMaximum(frequency);
    className := maxIndex + 1;
  }

  /**
   * The `frequency` array of `majority`: zeroed, then each neighbour
   * `id[i]`, `i < k`, adds 1 (rule "unweighted") or its weight to the
   * entry of its class.
   */
  method Frequencies(records: seq<Sample>, id: array<int>, k: int, c: nat, query: seq<real>,
                     metric: Metric, rule: string, w: Weighting) returns (frequency: array<real>)
    requires Labelled(records, c) && NonNegative(metric)
    requires Count(k) <= id.Length && forall a :: 0 <= a < Count(k) ==> 0 <= id[a] < |records|
    ensures fresh(frequency)
    ensures frequency[..] == Tally(NeighbourLabels(records, id[..], k), NeighbourWeights(records, id[..], k, query, metric, rule, w), c)
  {
    frequency := new real[c];
    var i := 0;
    while i < c
      invariant 0 <= i <= c
      invariant forall j :: 0 <= j < i ==> frequency[j] == 0.0
    {
      frequency[i] := 0.0;
      i := i + 1;
    }
    ghost var labels := NeighbourLabels(records, id[..], k);
    ghost var weights := NeighbourWeights(records, id[..], k, query, metric, rule, w);
    assert InRange(labels, c);
    if rule == "unweighted" {
      CountVotes(frequency, records, id, k, c, labels);
    } else {
      WeighVotes(frequency, records, id, k, c, query, metric, w, labels, weights);
    }
  }

  /** The array `frequency` holds the entries of `t`. */
  ghost predicate Stores(frequency: array<real>, t: seq<real>)
    reads frequency
  {
    frequency.Length == |t| && forall j :: 0 <= j < |t| ==> frequency[j] == t[j]
  }

  /**
   * The unweighted loop of `majority`: each neighbour `id[i]`, `i < k`,
   * adds 1 to the entry of its class; `labels` are those classes.
   */
  method CountVotes(frequency: array<real>, records: seq<Sample>, id: array<int>, k: int, c: nat, ghost labels: seq<int>)
    requires Count(k) <= id.Length && forall a :: 0 <= a < Count(k) ==> 0 <= id[a] < |records|
    requires |labels| == Count(k) && InRange(labels, c)
    requires forall a :: 0 <= a < |labels| ==> labels[a] == records[id[a]].className
    requires frequency.Length == c && forall j :: 0 <= j < c ==> frequency[j] == 0.0
    modifies frequency
    ensures frequency[..] == Tally(labels, Ones(|labels|), c)
  {
    ghost var weights := Ones(|labels|);
    ghost var table := Tally(labels[..0], weights[..0], c);
    assert Stores(frequency, table);
    var i := 0;
    while i < k
      invariant 0 <= i <= |labels|
      invariant Stores(frequency, table) && table == Tally(labels[..i], weights[..i], c)
    {
      var x := records[id[i]].className - 1;
      TallyNext(labels, weights, c, i, table, x, 1.0);
      frequency[x] := frequency[x] + 1.0;
      table := table[x := table[x] + 1.0];
      i := i + 1;
    }
    assert labels[..i] == labels && weights[..i] == weights;
    assert frequency[..] == table;
  }

  /**
   * The weighted loop of `majority`: each neighbour `id[i]`, `i < k`, adds
   * the weight of its distance to the entry of its class; `labels` are
   * those classes and `weights` those weights.
   */
  method WeighVotes(frequency: array<real>, records: seq<Sample>, id: array<int>, k: int, c: nat,
                    query: seq<real>, metric: Metric, w: Weighting, ghost labels: seq<int>, ghost weights: seq<real>)
    requires NonNegative(metric)
    requires Count(k) <= id.Length && forall a :: 0 <= a < Count(k) ==> 0 <= id[a] < |records|
    requires |labels| == Count(k) && |weights| == Count(k) && InRange(labels, c)
    requires forall a :: 0 <= a < |labels| ==> labels[a] == records[id[a]].className
    requires forall a :: 0 <= a < |weights| ==> weights[a] == Weight(w, metric(records[id[a]].attributes, query))
    requires frequency.Length == c && forall j :: 0 <= j < c ==> frequency[j] == 0.0
    modifies frequency
    ensures frequency[..] == Tally(labels, weights, c)
  {
    ghost var table := Tally(labels[..0], weights[..0], c);
    assert Stores(frequency, table);
    var i := 0;
    while i < k
      invariant 0 <= i <= |labels|
      invariant Stores(frequency, table) && table == Tally(labels[..i], weights[..i], c)
    {
      var d := metric(records[id[i]].attributes, query);
      var x := records[id[i]].className - 1;
      var v := Weight(w, d);
      assert v == weights[i];
      TallyNext(labels, weights, c, i, table, x, v);
      frequency[x] := frequency[x] + v;
      table := table[x := table[x] + v];
      i := i + 1;
    }
    assert labels[..i] == labels && weights[..i] == weights;
    assert frequency[..] == table;
  }

  /** The scan `if (frequency[i] > frequency[maxIndex]) maxIndex = i` over the whole array. */
  method FirstMaximum(frequency: array<real>) returns (maxIndex: int)
    ensures maxIndex == ArgMax(frequency[..])
  {
    maxIndex := 0;
    var i := 0;
    while i < frequency.Length
      invariant 0 <= i <= frequency.Length
      invariant maxIndex == ArgMax(frequency[..i])
    {
      assert frequency[..i + 1][..i] == frequency[..i];
      if frequency[i] > frequency[maxIndex] {
        maxIndex := i;
      }
      i := i + 1;
    }
    assert frequency[..i] == frequency[..];
  }

  /**
   * One more voter in the tally: voter `i`, of class `x + 1` and weight
   * `v`, adds `v` to entry `x` of the table of the voters before it.
   */
  lemma TallyNext(labels: seq<int>, weights: seq<real>, c: nat, i: nat, table: seq<real>, x: int, v: real)
    requires |weights| == |labels| && InRange(labels, c) && i < |labels|
    requires table == Tally(labels[..i], weights[..i], c) && x == labels[i] - 1 && v == weights[i]
    ensures 0 <= x < |table| && table[x := table[x] + v] == Tally(labels[..i + 1], weights[..i + 1], c)
  {
    assert labels[..i + 1][..i] == labels[..i];
    assert weights[..i + 1][..i] == weights[..i];
  }

  /** Two id lists that agree on their first `k` entries name the same neighbours, with the same votes. */
  lemma SameNeighbours(records: seq<Sample>, ids: seq<int>, others: seq<int>, k: int, query: seq<real>,
                       metric: Metric, rule: string, w: Weighting)
    requires Count(k) <= |ids| && Count(k) <= |others| && NonNegative(metric)
    requires forall a :: 0 <= a < Count(k) ==> 0 <= ids[a] < |records| && ids[a] == others[a]
    ensures NeighbourLabels(records, ids, k) == NeighbourLabels(records, others, k)
    ensures NeighbourWeights(records, ids, k, query, metric, rule, w) == NeighbourWeights(records, others, k, query, metric, rule, w)
  {
  }

  /**
   * `classify(attributes)`, and its overload on `cutOutRecords`: the
   * distance from `query` to every record with `id[i] = i`, the selection
   * of the `k` nearest, then their vote.
   */
  method Classify(records: seq<Sample>, query: seq<real>, metric: Metric, k: int, c: nat,
                  rule: string, w: Weighting) returns (className: int)
    requires Labelled(records, c) && k <= |records| && NonNegative(metric)
    ensures className == Predict(records, query, metric, k, c, rule, w)
  {
    var n := |records|;
    var distance := new real[n];
    var id := new int[n];
    var i := 0;
    while i < n
      invariant 0 <= i <= n
      invariant forall t :: 0 <= t < i ==> distance[t] == metric(query, records[t].attributes) && id[t] == t
    {
      distance[i] := metric(query, records[i].attributes);
      id[i] := i;
      i := i + 1;
    }
    assert distance[..] == Distances(records, query, metric);
    assert id[..] == Ids(n);
    Select(distance, id, k, n);
    ghost var ids := Neighbours(records, query, metric, k);
    assert forall a :: 0 <= a < Count(k) ==> id[a] == ids[a];
    SameNeighbours(records, id[..], ids, k, query, metric, rule, w);
    className := Majority(records, id, k, c, query, metric, rule, w);
  }

  /** `new ArrayList<>(records)` followed by `remove(i)`: a copy of the records without position `i`. */
  function CutOut(records: seq<Sample>, i: nat): (rest: seq<Sample>)
    requires i < |records|
    ensures |rest| == |records| - 1
    ensures forall t :: 0 <= t < i ==> rest[t] == records[t]
    ensures forall t :: i <= t < |rest| ==> rest[t] == records[t + 1]
  {
    records[..i] + records[i + 1..]
  }

  /** Only the record at position `i` is missing from the copy. */
  lemma CutOutMissesOne(records: seq<Sample>, i: nat)
    requires i < |records|
    ensures multiset(CutOut(records, i)) + multiset{records[i]} == multiset(records)
  {
    assert records == records[..i] + [records[i]] + records[i + 1..];
  }

  /** Every class of the remaining records is still one of 1..c. */
  lemma LabelledCutOut(records: seq<Sample>, i: nat, c: int)
    requires Labelled(records, c) && i < |records|
    ensures Labelled(CutOut(records, i), c)
  {
    var rest := CutOut(records, i);
    forall t | 0 <= t < |rest|
      ensures 1 <= rest[t].className <= c
    {
      if t < i {
        assert rest[t] == records[t];
      } else {
        assert rest[t] == records[t + 1];
      }
    }
  }

  /** The sequence `f(0), ..., f(m - 1)`, built one entry at a time. */
  function Tabulate(f: nat --> int, m: nat): (s: seq<int>)
    requires forall t: nat :: t < m ==> f.requires(t)
    ensures |s| == m
  {
    if m == 0 then [] else Tabulate(f, m - 1) + [f(m - 1)]
  }

  /** Entry `t` of the table is `f(t)`. */
  lemma {:induction false} TabulateAt(f: nat --> int, m: nat, t: nat)
    requires forall t: nat :: t < m ==> f.requires(t)
    requires t < m
    ensures Tabulate(f, m)[t] == f(t)
  {
    if t < m - 1 {
      TabulateAt(f, m - 1, t);
    }
  }

  /** What `classify` answers for record `t`, with every record, itself included, as a candidate neighbour. */
  function TrainingVote(records: seq<Sample>, metric: Metric, k: int, c: nat, rule: string, w: Weighting): nat --> int
    requires Labelled(records, c) && (k <= |records| || |records| == 0) && NonNegative(metric)
  {
    (t: nat) requires t < |records| => Predict(records, records[t].attributes, metric, k, c, rule, w)
  }

  /** What `classify` answers for each training record. */
  function TrainingPredictions(records: seq<Sample>, metric: Metric, k: int, c: nat, rule: string, w: Weighting): (predicted: seq<int>)
    requires Labelled(records, c) && (k <= |records| || |records| == 0) && NonNegative(metric)
    ensures |predicted| == |records|
  {
    Tabulate(TrainingVote(records, metric, k, c, rule, w), |records|)
  }

  /** Record `t` is predicted the vote of its neighbours among all the records. */
  lemma TrainingPredictionAt(records: seq<Sample>, metric: Metric, k: int, c: nat, rule: string, w: Weighting, t: nat)
    requires Labelled(records, c) && k <= |records| && NonNegative(metric) && t < |records|
    ensures TrainingPredictions(records, metric, k, c, rule, w)[t] == Predict(records, records[t].attributes, metric, k, c, rule, w)
  {
    TabulateAt(TrainingVote(records, metric, k, c, rule, w), |records|, t);
  }

  /** What `classify` answers for record `t` when only the other records are candidate neighbours. */
  function LeftOutVote(records: seq<Sample>, metric: Metric, k: int, c: nat, rule: string, w: Weighting): nat --> int
    requires Labelled(records, c) && (k < |records| || |records| == 0) && NonNegative(metric)
  {
    (t: nat) requires t < |records| =>
      LabelledCutOut(records, t, c);
      Predict(CutOut(records, t), records[t].attributes, metric, k, c, rule, w)
  }

  /** What `classify` answers for each record when only the other records are candidate neighbours. */
  function LeaveOneOutPredictions(records: seq<Sample>, metric: Metric, k: int, c: nat, rule: string, w: Weighting): (predicted: seq<int>)
    requires Labelled(records, c) && (k < |records| || |records| == 0) && NonNegative(metric)
    ensures |predicted| == |records|
  {
    Tabulate(LeftOutVote(records, metric, k, c, rule, w), |records|)
  }

  /** Record `t` is predicted the vote of its neighbours among the other records. */
  lemma LeaveOneOutPredictionAt(records: seq<Sample>, metric: Metric, k: int, c: nat, rule: string, w: Weighting, t: nat)
    requires Labelled(records, c) && k < |records| && NonNegative(metric) && t < |records|
    ensures Labelled(CutOut(records, t), c)
    ensures LeaveOneOutPredictions(records, metric, k, c, rule, w)[t] == Predict(CutOut(records, t), records[t].attributes, metric, k, c, rule, w)
  {
    LabelledCutOut(records, t, c);
    TabulateAt(LeftOutVote(records, metric, k, c, rule, w), |records|, t);
  }

  /**
   * The number of the first `m` records whose prediction is not their own
   * class: the error count of both validations.
   */
  function Mistakes(predicted: seq<int>, records: seq<Sample>, m: nat): (errors: nat)
    requires |predicted| == |records| && m <= |records|
    ensures errors <= m
  {
    if m == 0 then 0
    else Mistakes(predicted, records, m - 1) + (if predicted[m - 1] != records[m - 1].className then 1 else 0)
  }

  /** No mistake exactly when every one of the first `m` records is predicted its own class. */
  lemma {:induction false} MistakesZero(predicted: seq<int>, records: seq<Sample>, m: nat)
    requires |predicted| == |records| && m <= |records|
    ensures Mistakes(predicted, records, m) == 0 <==> forall t :: 0 <= t < m ==> predicted[t] == records[t].className
  {
    if m > 0 {
      MistakesZero(predicted, records, m - 1);
    }
  }
}
