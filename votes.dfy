/**
 * Class-frequency tables and the first-maximum scan shared by every
 * majority vote of the learners: the decision tree's majority leaf and
 * "Class" impurity, and the k-nearest-neighbour vote. Classes are numbered
 * 1..C and a table keeps class c at position c - 1, as the source's
 * `frequency` arrays do.
 */
module Votes {

  /** Sum of a sequence of reals, folded from the right. */
  function Sum(s: seq<real>): real
  {
    if |s| == 0 then 0.0 else Sum(s[..|s| - 1]) + s[|s| - 1]
  }

  lemma {:induction false} SumUpdate(s: seq<real>, c: nat, x: real)
    requires c < |s|
    ensures Sum(s[c := s[c] + x]) == Sum(s) + x
  {
    var n := |s| - 1;
    if c == n {
      assert s[c := s[c] + x][..n] == s[..n];
    } else {
      SumUpdate(s[..n], c, x);
      assert s[c := s[c] + x][..n] == s[..n][c := s[c] + x];
    }
  }

  lemma {:induction false} SumZeros(c: nat)
    ensures Sum(seq(c, _ => 0.0)) == 0.0
  {
    if c > 0 {
      assert seq(c, _ => 0.0)[..c - 1] == seq(c - 1, _ => 0.0);
      SumZeros(c - 1);
    }
  }

  /** If no entry exceeds `m`, the sum is at most `|s| * m`. */
  lemma {:induction false} SumAtMost(s: seq<real>, m: real)
    requires forall i :: 0 <= i < |s| ==> s[i] <= m
    ensures Sum(s) <= |s| as real * m
  {
    if |s| > 0 {
      SumAtMost(s[..|s| - 1], m);
    }
  }

  /** With non-negative entries, every entry is at most the sum. */
  lemma {:induction false} EntryAtMostSum(s: seq<real>, i: nat)
    requires i < |s|
    requires forall j :: 0 <= j < |s| ==> 0.0 <= s[j]
    ensures s[i] <= Sum(s)
  {
    var n := |s| - 1;
    if i < n {
      EntryAtMostSum(s[..n], i);
    }
    SumNonNegative(s[..n]);
  }

  lemma {:induction false} SumNonNegative(s: seq<real>)
    requires forall j :: 0 <= j < |s| ==> 0.0 <= s[j]
    ensures 0.0 <= Sum(s)
  {
    if |s| > 0 {
      SumNonNegative(s[..|s| - 1]);
    }
  }

  /** The weights of an unweighted vote: every voter contributes 1. */
  function Ones(k: nat): (w: seq<real>)
    ensures |w| == k && forall i :: 0 <= i < k ==> w[i] == 1.0
  {
    seq(k, _ => 1.0)
  }

  lemma {:induction false} SumOnes(k: nat)
    ensures Sum(Ones(k)) == k as real
  {
    if k > 0 {
      assert Ones(k)[..k - 1] == Ones(k - 1);
      SumOnes(k - 1);
    }
  }

  /** Every label is a class number in 1..C. */
  predicate InRange(labels: seq<int>, c: int)
  {
    forall i :: 0 <= i < |labels| ==> 1 <= labels[i] <= c
  }

  /** Number of occurrences of `x` in `labels`. */
  function Occurrences(labels: seq<int>, x: int): (r: nat)
    ensures r <= |labels|
  {
    if |labels| == 0 then 0
    else Occurrences(labels[..|labels| - 1], x) + (if labels[|labels| - 1] == x then 1 else 0)
  }

  /** A label that fills the whole list is the only label in it. */
  lemma {:induction false} OccurrencesAll(labels: seq<int>, x: int)
    requires Occurrences(labels, x) == |labels|
    ensures forall i :: 0 <= i < |labels| ==> labels[i] == x
  {
    var n := |labels| - 1;
    if |labels| > 0 {
      OccurrencesAll(labels[..n], x);
      assert forall i :: 0 <= i < n ==> labels[..n][i] == labels[i];
    }
  }

  /** A list carrying a single label holds no other label. */
  lemma {:induction false} OccurrencesConstant(labels: seq<int>, x: int, y: int)
    requires forall i :: 0 <= i < |labels| ==> labels[i] == x
    ensures Occurrences(labels, y) == if x == y then |labels| else 0
  {
    if |labels| > 0 {
      OccurrencesConstant(labels[..|labels| - 1], x, y);
    }
  }

  /**
   * The frequency table of a weighted vote: voter i adds `weights[i]` to
   * the entry of its class `labels[i]`.
   */
  function Tally(labels: seq<int>, weights: seq<real>, c: nat): (t: seq<real>)
    requires |weights| == |labels| && InRange(labels, c)
    ensures |t| == c
    ensures (forall i :: 0 <= i < |weights| ==> 0.0 <= weights[i]) ==>
              forall j :: 0 <= j < c ==> 0.0 <= t[j]
  {
    if |labels| == 0 then
      seq(c, _ => 0.0)
    else
      var n := |labels| - 1;
      var t := Tally(labels[..n], weights[..n], c);
      t[labels[n] - 1 := t[labels[n] - 1] + weights[n]]
  }

  /** The table holds exactly what the voters handed out. */
  lemma {:induction false} TallySum(labels: seq<int>, weights: seq<real>, c: nat)
    requires |weights| == |labels| && InRange(labels, c)
    ensures Sum(Tally(labels, weights, c)) == Sum(weights)
  {
    if |labels| == 0 {
      SumZeros(c);
    } else {
      var n := |labels| - 1;
      TallySum(labels[..n], weights[..n], c);
      SumUpdate(Tally(labels[..n], weights[..n], c), labels[n] - 1, weights[n]);
    }
  }

  /** In an unweighted vote the entry of class x + 1 is the number of its voters. */
  lemma {:induction false} TallyCounts(labels: seq<int>, c: nat, x: nat)
    requires InRange(labels, c) && x < c
    ensures Tally(labels, Ones(|labels|), c)[x] == Occurrences(labels, x + 1) as real
  {
    var n := |labels| - 1;
    if |labels| > 0 {
      assert Ones(|labels|)[..n] == Ones(n);
      TallyCounts(labels[..n], c, x);
    }
  }

  /** Every entry of an unweighted vote's table is the number of voters of its class. */
  lemma CountsOfTally(labels: seq<int>, c: nat)
    requires InRange(labels, c)
    ensures forall x :: 0 <= x < c ==> Tally(labels, Ones(|labels|), c)[x] == Occurrences(labels, x + 1) as real
  {
    forall x | 0 <= x < c ensures Tally(labels, Ones(|labels|), c)[x] == Occurrences(labels, x + 1) as real {
      TallyCounts(labels, c, x);
    }
  }

  /** An unweighted vote hands out one vote per voter. */
  lemma UnweightedTotal(labels: seq<int>, c: nat)
    requires InRange(labels, c)
    ensures Sum(Tally(labels, Ones(|labels|), c)) == |labels| as real
  {
    TallySum(labels, Ones(|labels|), c);
    SumOnes(|labels|);
  }

  /** The winner of an unweighted vote is the smallest class with the most voters. */
  lemma UnweightedWinner(labels: seq<int>, c: nat)
    requires InRange(labels, c) && c > 0
    ensures forall x :: 1 <= x <= c ==>
              Occurrences(labels, x) <= Occurrences(labels, Vote(labels, Ones(|labels|), c))
    ensures forall x :: 1 <= x < Vote(labels, Ones(|labels|), c) ==>
              Occurrences(labels, x) < Occurrences(labels, Vote(labels, Ones(|labels|), c))
  {
    CountsOfTally(labels, c);
    var w := Vote(labels, Ones(|labels|), c);
    assert forall x :: 1 <= x <= c ==> Tally(labels, Ones(|labels|), c)[x - 1] == Occurrences(labels, x) as real;
  }

  /** Counting one more label of a prefix. */
  lemma OccurrencesPrefixStep(labels: seq<int>, i: nat, x: int)
    requires i < |labels|
    ensures Occurrences(labels[..i + 1], x) == Occurrences(labels[..i], x) + (if labels[i] == x then 1 else 0)
  {
    assert labels[..i + 1][..i] == labels[..i];
  }

  /** Every label occurs at least once. */
  lemma {:induction false} OccurrencesPositive(labels: seq<int>, i: nat)
    requires i < |labels|
    ensures 1 <= Occurrences(labels, labels[i])
  {
    var n := |labels| - 1;
    if i < n {
      assert labels[..n][i] == labels[i];
      OccurrencesPositive(labels[..n], i);
    }
  }

  /** A label that is counted occurs in the list. */
  lemma {:induction false} OccurrencesMember(labels: seq<int>, x: int)
    requires 1 <= Occurrences(labels, x)
    ensures exists i :: 0 <= i < |labels| && labels[i] == x
  {
    var n := |labels| - 1;
    if labels[n] != x {
      OccurrencesMember(labels[..n], x);
      var i :| 0 <= i < n && labels[..n][i] == x;
      assert labels[i] == x;
    }
  }

  /**
   * The position of the first maximum of `f`, found by the source's scan
   * `if (f[i] > f[maxIndex]) maxIndex = i` from `maxIndex = 0`. The scan of
   * an empty table leaves position 0.
   */
  function ArgMax(f: seq<real>): (m: nat)
    ensures |f| == 0 ==> m == 0
    ensures |f| > 0 ==> m < |f|
    ensures |f| > 0 ==> forall j :: 0 <= j < |f| ==> f[j] <= f[m]
    ensures |f| > 0 ==> forall j :: 0 <= j < m ==> f[j] < f[m]
  {
    if |f| <= 1 then 0
    else
      var m := ArgMax(f[..|f| - 1]);
      if f[|f| - 1] > f[m] then |f| - 1 else m
  }

  /** A first maximum is the first maximum: `ArgMax` is determined by its contract. */
  lemma ArgMaxUnique(f: seq<real>, m: nat)
    requires m < |f|
    requires forall j :: 0 <= j < |f| ==> f[j] <= f[m]
    requires forall j :: 0 <= j < m ==> f[j] < f[m]
    ensures ArgMax(f) == m
  {
  }

  /**
   * The winning class of a vote: the smallest class whose entry is largest.
   * With no class at all the source still answers class 1.
   */
  function Vote(labels: seq<int>, weights: seq<real>, c: nat): (winner: int)
    requires |weights| == |labels| && InRange(labels, c)
    ensures c == 0 ==> winner == 1
    ensures c > 0 ==> 1 <= winner <= c
    ensures c > 0 ==> var t := Tally(labels, weights, c);
              forall j :: 0 <= j < c ==> t[j] <= t[winner - 1]
    ensures c > 0 ==> var t := Tally(labels, weights, c);
              forall j :: 0 <= j < winner - 1 ==> t[j] < t[winner - 1]
  {
    ArgMax(Tally(labels, weights, c)) + 1
  }
}
